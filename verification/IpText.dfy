/** The reading and writing loops of the address class. */
module IpText {
  import opened Common
  import opened Utf8
  import opened Numerals
  import opened IpAddress
  import IpPieces
  import IpRoundTrip

  method ParseV4(input: Bytes) returns (r: Option<seq<int>>)
    ensures r == ReadV4(input, [])
  {
    var text, bytes, index := input, [], 0;
    while true
      invariant |bytes| == index <= 3 && ReadV4(text, bytes) == ReadV4(input, [])
      decreases 4 - index
    {
      var dot := Find(text, DOT);
      var value := ReadPart(text[..dot]);
      if value.None? { return None; }
      if index == 3 { return if dot == |text| then Some(bytes + [value.value]) else None; }
      if dot == |text| { return None; }
      bytes := bytes + [value.value];
      text := text[dot + 1..];
      index := index + 1;
    }
  }

  /** A group of hexadecimal digits, read digit by digit. */
  method ParseHex(part: Bytes) returns (r: Option<int>)
    ensures r == ReadHex(part)
  {
    var value := 0;
    for i := 0 to |part|
      invariant ReadHex(part[..i]) == Some(value)
    {
      assert part[..i + 1][..i] == part[..i];
      var hex := HexValue(part[i]);
      if hex.None? {
        HexFails(part, i);
        return None;
      }
      value := value * 16 + hex.value;
    }
    assert part[..|part|] == part;
    return Some(value);
  }

  lemma {:induction false} HexFails(part: Bytes, i: nat)
    requires i < |part| && HexValue(part[i]).None?
    ensures ReadHex(part).None?
    decreases |part|
  {
    if i < |part| - 1 { HexFails(part[..|part| - 1], i); }
  }

  method ParseWords(input: Bytes, allowV4: bool) returns (r: Option<seq<int>>)
    ensures r == ReadWords(input, allowV4, [])
  {
    if input == [] { return Some([]); }
    var text, words := input, [];
    while true
      invariant text != [] && ReadWord(text, allowV4, words) == ReadWord(input, allowV4, [])
      decreases |text|
    {
      var colon := Find(text, COLON);
      var part := text[..colon];
      if part == [] || |words| == 8 { return None; }
      if DOT in part {
        if !allowV4 || colon != |text| || |words| > 6 { return None; }
        var bytes := ParseV4(part);
        if bytes.None? || |bytes.value| != 4 { return None; }
        return Some(words + [bytes.value[0] * 256 + bytes.value[1], bytes.value[2] * 256 + bytes.value[3]]);
      }
      if |part| > 4 { return None; }
      var value := ParseHex(part);
      if value.None? { return None; }
      words := words + [value.value];
      if colon == |text| { return Some(words); }
      if colon + 1 == |text| { return None; }
      text := text[colon + 1..];
    }
  }

  method ParseAddress(input: Bytes) returns (r: Option<Address>)
    ensures r == Parse(input)
  {
    hide ReadV4, ReadV6, Find;
    if input == [] || |input| > 64 { return None; }
    if COLON !in input {
      var bytes := ParseV4(input);
      return if bytes.Some? then Some(V4(bytes.value)) else None;
    }
    var zone := Find(input, PERCENT);
    var scope := 0;
    var text := input;
    if zone < |input| {
      var digits := input[zone + 1..];
      if digits == [] || !Digits(digits) || Value(digits) > 0xFFFF_FFFF { return None; }
      scope := Value(digits);
      text := input[..zone];
    }
    assert text == input[..zone];
    assert [ZERO][..0] == [] && Value([ZERO]) == 0;
    var words := ParseV6(text);
    return if words.Some? then Some(V6(words.value, scope)) else None;
  }

  method ParseV6(text: Bytes) returns (r: Option<seq<int>>)
    ensures r == ReadV6(text)
  {
    var at := FindPair(text, 0);
    if at == |text| {
      r := ParseWords(text, true);
      return if r.Some? && |r.value| == 8 then r else None;
    }
    if FindPair(text, at + 2) < |text| { return None; }
    var left := ParseWords(text[..at], false);
    if left.None? { return None; }
    var right := ParseWords(text[at + 2..], true);
    if right.None? || |left.value| + |right.value| >= 8 { return None; }
    return Some(left.value + Zeros(8 - |left.value| - |right.value|) + right.value);
  }

  // Writing.

  predicate ZeroRun(ws: seq<int>, start: nat, length: nat) {
    start + length <= |ws| && forall i :: start <= i < start + length ==> ws[i] == 0
  }

  /** `l` zeros at `s` are not better than the chosen run. */
  predicate NoBetter(s: nat, l: nat, best: nat, length: nat) { l <= length && (l == length ==> best <= s) }

  /** The longest run of at least two zeros, the leftmost of equals, as section 4.2 of RFC 5952 asks. */
  ghost predicate IsBest(ws: seq<int>, best: nat, length: nat) {
    && IsRun(ws, best, length) && (best < 8 ==> 2 <= length)
    && forall s: nat, l: nat :: 2 <= l && ZeroRun(ws, s, l) ==> best < 8 && NoBetter(s, l, best, length)
  }

  method FindBest(ws: seq<int>) returns (best: nat, length: nat)
    requires |ws| == 8
    ensures IsBest(ws, best, length)
  {
    best, length := 8, 0;
    var index := 0;
    while index < 8
      invariant index <= 8 && IsRun(ws, best, length) && (best < 8 ==> 2 <= length && best + length <= index)
      invariant 0 < index < 8 && ws[index - 1] == 0 ==> ws[index] != 0
      invariant forall s: nat, l: nat :: 2 <= l && s + l <= index && ZeroRun(ws, s, l) ==>
        best < 8 && NoBetter(s, l, best, length)
      decreases 8 - index
    {
      if ws[index] != 0 {
        index := index + 1;
      } else {
        var start := index;
        index := RunEnd(ws, start);
        if index - start >= 2 && index - start > length {
          best := start;
          length := index - start;
        }
      }
    }
  }

  method RunEnd(ws: seq<int>, start: nat) returns (end: nat)
    requires start < |ws| && ws[start] == 0
    ensures start < end <= |ws| && ZeroRun(ws, start, end - start) && (end < |ws| ==> ws[end] != 0)
  {
    end := start;
    while end < |ws| && ws[end] == 0
      invariant start <= end <= |ws| && ZeroRun(ws, start, end - start)
    {
      end := end + 1;
    }
  }

  /** What has been written before word `index`. */
  function Written(ws: seq<int>, best: nat, length: nat, index: nat): Bytes
    requires AllWords(ws) && index <= |ws| && best <= |ws| && best + length <= |ws|
    requires (index <= best || best + length <= index)
  {
    if index <= best then Join(ws[..index]) else Join(ws[..best]) + [COLON, COLON] + Join(ws[best + length..index])
  }

  lemma {:induction false} JoinMore(ws: seq<int>, w: int)
    requires AllWords(ws) && 0 <= w <= 0xFFFF
    ensures AllWords(ws + [w]) && Join(ws + [w]) == if ws == [] then HexText(w) else Join(ws) + [COLON] + HexText(w)
    decreases |ws|
  {
    hide HexText;
    var more := ws + [w];
    if ws == [] {
      assert more == [w];
    } else {
      assert more[1..] == ws[1..] + [w] && more[0] == ws[0];
      JoinMore(ws[1..], w);
      if |ws| > 1 { Chain(HexText(ws[0]), Join(ws[1..]), HexText(w)); }
    }
  }

  lemma Chain(a: Bytes, b: Bytes, c: Bytes)
    ensures a + [COLON] + (b + [COLON] + c) == a + [COLON] + b + [COLON] + c
  {
  }

  predicate EndsInColon(s: Bytes) { s != [] && s[|s| - 1] == COLON }

  lemma JoinEnd(ws: seq<int>)
    requires AllWords(ws)
    ensures !EndsInColon(Join(ws)) && (Join(ws) == [] <==> ws == [])
  {
    IpRoundTrip.JoinPlain(ws);
  }

  /** One more word, with a colon before it unless the text is empty or ends in one. */
  lemma WriteWord(ws: seq<int>, best: nat, length: nat, index: nat)
    requires AllWords(ws) && index < |ws| && best <= |ws| && best + length <= |ws|
    requires 0 < length + (if best == |ws| then 1 else 0)
    requires index < best || best + length <= index
    ensures var so := Written(ws, best, length, index);
      Written(ws, best, length, index + 1) == so + (if so != [] && !EndsInColon(so) then [COLON] else []) + HexText(ws[index])
  {
    hide HexText, Join;
    if index < best {
      assert ws[..index + 1] == ws[..index] + [ws[index]];
      JoinMore(ws[..index], ws[index]);
      JoinEnd(ws[..index]);
      assert [] + [] + HexText(ws[index]) == HexText(ws[index]);
    } else {
      var tail := ws[best + length..index];
      assert ws[best + length..index + 1] == tail + [ws[index]];
      JoinMore(tail, ws[index]);
      JoinEnd(tail);
      AfterPair(Join(ws[..best]), Join(tail), HexText(ws[index]));
    }
  }

  lemma AfterPair(a: Bytes, b: Bytes, c: Bytes)
    requires !EndsInColon(b)
    ensures var so := a + [COLON, COLON] + b;
      && so != [] && EndsInColon(so) == (b == []) && so + [COLON] + c == a + [COLON, COLON] + (b + [COLON] + c)
      && (b == [] ==> so + [] + c == a + [COLON, COLON] + c)
  {
    var so := a + [COLON, COLON] + b;
    if b == [] { assert so[|so| - 1] == COLON; } else { assert so[|so| - 1] == b[|b| - 1]; }
  }

  method WriteV6(ws: seq<int>, best: nat, length: nat) returns (result: Bytes)
    requires AllWords(ws) && IsRun(ws, best, length)
    ensures result == V6Text(ws, best, length)
  {
    hide Join, HexText;
    result := [];
    var index := 0;
    assert ws[..0] == [];
    JoinEnd([]);
    while index < 8
      invariant index <= 8 && (index <= best || best + length <= index) && result == Written(ws, best, length, index)
      decreases 8 - index
    {
      if index == best {
        assert ws[best + length..best + length] == [];
        assert Join(ws[..best]) + [COLON, COLON] == Join(ws[..best]) + [COLON, COLON] + [];
        result := result + [COLON, COLON];
        index := index + length;
      } else {
        WriteWord(ws, best, length, index);
        if result != [] && result[|result| - 1] != COLON {
          result := result + [COLON];
        } else {
          assert result + [] == result;
        }
        result := result + HexText(ws[index]);
        index := index + 1;
      }
    }
    assert ws[..8] == ws && ws[best + length..8] == ws[best + length..];
  }

  /** ToString: the text from which the address is read back. */
  method Format(a: Address) returns (text: Bytes)
    requires IsV4(a) || IsV6(a)
    ensures Parse(text) == Some(a)
    ensures a.V4? ==> text == V4Text(a.bytes)
    ensures a.V6? ==>
      exists best, length :: IsBest(a.words, best, length) && text == V6Text(a.words, best, length) + ZoneText(a.scope)
  {
    hide Parse, V4Text, V6Text, Decimal, AllWords;
    if a.V4? {
      IpRoundTrip.V4RoundTrip(a);
      return V4Text(a.bytes);
    }
    var best, length := FindBest(a.words);
    text := WriteV6(a.words, best, length);
    if a.scope != 0 { text := text + [PERCENT] + Decimal(a.scope); }
    assert text == V6Text(a.words, best, length) + ZoneText(a.scope);
    IpRoundTrip.V6RoundTrip(a, best, length);
  }
}
