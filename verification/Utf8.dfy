/** UTF-8 as section 3 of RFC 3629 defines it, and the validator that accepts exactly its strings. */
module Utf8 {
  import opened Common

  newtype Byte = b: int | 0 <= b < 256
  type Bytes = seq<Byte>

  predicate IsScalar(c: int) { 0 <= c <= 0x10FFFF && !(0xD800 <= c <= 0xDFFF) }

  /** The encoding of one code point; what the JSON parser appends for an escape. */
  function Encode(c: int): Bytes
    requires 0 <= c <= 0x1FFFFF
  {
    if c <= 0x7F then [c as Byte]
    else if c <= 0x7FF then [(0xC0 + c / 64) as Byte, (0x80 + c % 64) as Byte]
    else if c <= 0xFFFF then [(0xE0 + c / 64 / 64) as Byte, (0x80 + c / 64 % 64) as Byte, (0x80 + c % 64) as Byte]
    else [(0xF0 + c / 64 / 64 / 64) as Byte, (0x80 + c / 64 / 64 % 64) as Byte, (0x80 + c / 64 % 64) as Byte, (0x80 + c % 64) as Byte]
  }

  ghost predicate Scalars(cs: seq<int>) { forall i :: 0 <= i < |cs| ==> IsScalar(cs[i]) }

  function EncodeAll(cs: seq<int>): Bytes
    requires Scalars(cs)
  {
    if cs == [] then [] else Encode(cs[0]) + EncodeAll(cs[1..])
  }

  /** A well-formed string is the concatenation of encodings of scalar values. */
  ghost predicate WellFormed(text: Bytes) { exists cs :: Scalars(cs) && text == EncodeAll(cs) }

  // The validator's reading of one character.

  /** How many continuation bytes the lead announces, or 4 when it is no lead. */
  function Announced(lead: Byte): nat {
    var b := lead as int;
    if b < 0x80 then 0 else if b / 32 == 6 then 1 else if b / 16 == 14 then 2 else if b / 8 == 30 then 3 else 4
  }

  function LeadBits(lead: Byte): int {
    var b := lead as int;
    match Announced(lead)
    case 0 => b
    case 1 => b % 32
    case 2 => b % 16
    case 3 => b % 8
    case _ => 0
  }

  function Smallest(n: nat): int {
    if n == 1 then 0x80 else if n == 2 then 0x800 else if n == 3 then 0x10000 else 0
  }

  predicate IsContinuation(b: Byte) { b as int / 64 == 2 }

  /** The code point after reading `n` continuation bytes. */
  function Joined(cp: int, tail: Bytes): int {
    if tail == [] then cp else Joined(cp, tail[..|tail| - 1]) * 64 + tail[|tail| - 1] as int % 64
  }

  /** The first character of `text`: its code point, when its bytes are the shortest form of a scalar value. */
  function First(text: Bytes): Option<int>
    requires text != []
  {
    var n := Announced(text[0]);
    if n == 4 || n >= |text| then None
    else if exists i :: 1 <= i <= n && !IsContinuation(text[i]) then None
    else
      var cp := Joined(LeadBits(text[0]), text[1..n + 1]);
      if cp < Smallest(n) || !IsScalar(cp) then None else Some(cp)
  }

  /** The reference decoder. */
  function Decode(text: Bytes): Option<seq<int>> {
    if text == [] then Some([])
    else match First(text)
      case None => None
      case Some(cp) =>
        match Decode(text[Announced(text[0]) + 1..])
        case None => None
        case Some(rest) => Some([cp] + rest)
  }

  // One character: First inverts Encode, and accepts nothing else.

  lemma Joined1(cp: int, a: Byte)
    ensures Joined(cp, [a]) == cp * 64 + a as int % 64
  {
    assert [a][..0] == [];
  }

  lemma Joined2(cp: int, a: Byte, b: Byte)
    ensures Joined(cp, [a, b]) == (cp * 64 + a as int % 64) * 64 + b as int % 64
  {
    Joined1(cp, a);
    assert [a, b][..1] == [a];
  }

  lemma Joined3(cp: int, a: Byte, b: Byte, c: Byte)
    ensures Joined(cp, [a, b, c]) == ((cp * 64 + a as int % 64) * 64 + b as int % 64) * 64 + c as int % 64
  {
    Joined2(cp, a, b);
    assert [a, b, c][..2] == [a, b];
  }

  /** The masks and shifts of the code are these divisions and remainders. */
  lemma MaskForms(b: bv8)
    ensures b & 0xE0 == 0xC0 <==> b / 32 == 6
    ensures b & 0xF0 == 0xE0 <==> b / 16 == 14
    ensures b & 0xF8 == 0xF0 <==> b / 8 == 30
    ensures b & 0xC0 == 0x80 <==> b / 64 == 2
    ensures b & 0x1F == b % 32 && b & 0x0F == b % 16 && b & 0x07 == b % 8 && b & 0x3F == b % 64
  {
  }

  lemma ShiftForms(cp: bv32, b: bv8)
    requires cp < 0x200000
    ensures (cp << 6) | (b as bv32 & 0x3F) == cp * 64 + b as bv32 % 64
    ensures 0xC0 | (cp >> 6) == 0xC0 + cp / 64 || cp > 0x7FF
    ensures 0x80 | (cp & 0x3F) == 0x80 + cp % 64
    ensures 0x80 | ((cp >> 6) & 0x3F) == 0x80 + cp / 64 % 64
    ensures 0xE0 | (cp >> 12) == 0xE0 + cp / 64 / 64 || cp > 0xFFFF
    ensures 0xF0 | (cp >> 18) == 0xF0 + cp / 64 / 64 / 64 || cp > 0x1FFFFF
  {
  }

  /** A lead and its payload bits. */
  lemma Leads(b: Byte)
    ensures Announced(b) == 0 <==> 0 <= b < 0x80
    ensures Announced(b) == 1 <==> 0xC0 <= b < 0xE0
    ensures Announced(b) == 2 <==> 0xE0 <= b < 0xF0
    ensures Announced(b) == 3 <==> 0xF0 <= b < 0xF8
    ensures Announced(b) == 0 ==> LeadBits(b) == b as int
    ensures Announced(b) == 1 ==> LeadBits(b) == b as int - 0xC0
    ensures Announced(b) == 2 ==> LeadBits(b) == b as int - 0xE0
    ensures Announced(b) == 3 ==> LeadBits(b) == b as int - 0xF0
  {
  }

  lemma Continuations(b: Byte)
    ensures IsContinuation(b) <==> 0x80 <= b < 0xC0
    ensures IsContinuation(b) ==> b as int % 64 == b as int - 0x80
  {
  }

  /** The code point that `n` continuation bytes after the lead spell. */
  function Spelled(text: Bytes, n: nat): int
    requires n < |text| && n <= 3
  {
    var lead := LeadBits(text[0]);
    if n == 0 then lead
    else if n == 1 then lead * 64 + text[1] as int % 64
    else if n == 2 then (lead * 64 + text[1] as int % 64) * 64 + text[2] as int % 64
    else ((lead * 64 + text[1] as int % 64) * 64 + text[2] as int % 64) * 64 + text[3] as int % 64
  }

  lemma JoinedIsSpelled(text: Bytes, n: nat)
    requires n < |text| && n <= 3
    ensures Joined(LeadBits(text[0]), text[1..n + 1]) == Spelled(text, n)
  {
    if n == 1 {
      assert text[1..2] == [text[1]];
      Joined1(LeadBits(text[0]), text[1]);
    } else if n == 2 {
      assert text[1..3] == [text[1], text[2]];
      Joined2(LeadBits(text[0]), text[1], text[2]);
    } else if n == 3 {
      assert text[1..4] == [text[1], text[2], text[3]];
      Joined3(LeadBits(text[0]), text[1], text[2], text[3]);
    }
  }

  ghost predicate Tail(text: Bytes, n: nat) { n < |text| && forall i :: 1 <= i <= n ==> IsContinuation(text[i]) }

  lemma FirstIs(text: Bytes, n: nat)
    requires text != [] && n == Announced(text[0]) && n <= 3 && Tail(text, n)
    ensures First(text) == if Spelled(text, n) < Smallest(n) || !IsScalar(Spelled(text, n)) then None
      else Some(Spelled(text, n))
  {
    JoinedIsSpelled(text, n);
  }

  lemma EncodedBytes(c: int)
    requires 0 <= c <= 0x10FFFF
    ensures var e := Encode(c);
      && |e| == Announced(e[0]) + 1 <= 4 && Tail(e, |e| - 1) && Spelled(e, |e| - 1) == c && Smallest(|e| - 1) <= c
  {
    var e := Encode(c);
    Leads(e[0]);
    if |e| > 1 { Continuations(e[1]); }
    if |e| > 2 { Continuations(e[2]); }
    if |e| > 3 { Continuations(e[3]); }
  }

  lemma FirstOfEncode(c: int, rest: Bytes)
    requires IsScalar(c)
    ensures First(Encode(c) + rest) == Some(c) && Announced(Encode(c)[0]) + 1 == |Encode(c)|
  {
    EncodedBytes(c);
    var text := Encode(c) + rest;
    var n := |Encode(c)| - 1;
    assert Tail(text, n) by { forall i | 1 <= i <= n ensures IsContinuation(text[i]) { assert text[i] == Encode(c)[i]; } }
    FirstIs(text, n);
  }

  lemma Shifted(a: int, r: int)
    requires 0 <= r < 64
    ensures (a * 64 + r) / 64 == a && (a * 64 + r) % 64 == r
  {
  }

  /** The shortest form is the only one: the bytes are determined by the code point. */
  lemma BytesSpell(text: Bytes, n: nat)
    requires text != [] && n == Announced(text[0]) && n <= 3 && Tail(text, n) && Smallest(n) <= Spelled(text, n)
    requires IsScalar(Spelled(text, n))
    ensures text[..n + 1] == Encode(Spelled(text, n))
  {
    Leads(text[0]);
    var c0 := LeadBits(text[0]);
    if n == 0 { return; }
    Continuations(text[1]);
    var c1 := c0 * 64 + text[1] as int % 64;
    Shifted(c0, text[1] as int % 64);
    if n == 1 {
      assert c1 == Spelled(text, 1);
      return;
    }
    Continuations(text[2]);
    var c2 := c1 * 64 + text[2] as int % 64;
    Shifted(c1, text[2] as int % 64);
    if n == 2 {
      assert c2 == Spelled(text, 2);
      return;
    }
    Continuations(text[3]);
    Shifted(c2, text[3] as int % 64);
    assert Spelled(text, 3) == c2 * 64 + text[3] as int % 64;
  }

  lemma EncodeOfFirst(text: Bytes)
    requires text != [] && First(text).Some?
    ensures text[..Announced(text[0]) + 1] == Encode(First(text).value)
  {
    var n := Announced(text[0]);
    assert Tail(text, n) && n <= 3 by { Leads(text[0]); }
    FirstIs(text, n);
    BytesSpell(text, n);
  }

  // Whole strings.

  lemma {:induction false} DecodeOfEncode(cs: seq<int>)
    requires Scalars(cs)
    ensures Decode(EncodeAll(cs)) == Some(cs)
  {
    if cs != [] {
      var rest := EncodeAll(cs[1..]);
      DecodeOfEncode(cs[1..]);
      FirstOfEncode(cs[0], rest);
      var text := Encode(cs[0]) + rest;
      assert text[|Encode(cs[0])|..] == rest;
      assert [cs[0]] + cs[1..] == cs;
    }
  }

  lemma EncodeCons(cp: int, rest: seq<int>)
    requires IsScalar(cp) && Scalars(rest)
    ensures Scalars([cp] + rest) && EncodeAll([cp] + rest) == Encode(cp) + EncodeAll(rest)
  {
    assert ([cp] + rest)[1..] == rest;
  }

  lemma {:induction false} EncodeOfDecode(text: Bytes)
    requires Decode(text).Some?
    ensures Scalars(Decode(text).value) && EncodeAll(Decode(text).value) == text
  {
    if text != [] {
      var n := Announced(text[0]) + 1;
      var cp, rest := First(text).value, Decode(text[n..]).value;
      EncodeOfDecode(text[n..]);
      assert IsScalar(cp);
      EncodeCons(cp, rest);
      EncodeOfFirst(text);
      assert text == text[..n] + text[n..];
    }
  }

  /** The decoder succeeds exactly on well-formed strings. */
  lemma DecodeIffWellFormed(text: Bytes)
    ensures Decode(text).Some? <==> WellFormed(text)
  {
    if Decode(text).Some? { EncodeOfDecode(text); }
    if WellFormed(text) {
      var cs :| Scalars(cs) && text == EncodeAll(cs);
      DecodeOfEncode(cs);
    }
  }

  /** What the JSON parser appends for a scalar value is accepted and decodes back to it. */
  lemma AppendedIsAccepted(c: int)
    requires IsScalar(c)
    ensures WellFormed(Encode(c)) && Decode(Encode(c)) == Some([c])
  {
    DecodeOfEncode([c]);
    assert EncodeAll([c]) == Encode(c) + EncodeAll([]);
    assert Encode(c) == EncodeAll([c]);
  }

  method IsValidUtf8(text: Bytes) returns (valid: bool)
    ensures valid <==> WellFormed(text)
  {
    DecodeIffWellFormed(text);
    var index := 0;
    while index < |text|
      invariant index <= |text|
      invariant Decode(text).Some? <==> Decode(text[index..]).Some?
    {
      ghost var here := text[index..];
      var lead := text[index];
      var continuationCount := 0;
      var codePoint := 0;
      var smallest := 0;
      if lead < 0x80 {
        codePoint := lead as int;
      } else if lead as int / 32 == 6 {
        continuationCount, codePoint, smallest := 1, lead as int % 32, 0x80;
      } else if lead as int / 16 == 14 {
        continuationCount, codePoint, smallest := 2, lead as int % 16, 0x800;
      } else if lead as int / 8 == 30 {
        continuationCount, codePoint, smallest := 3, lead as int % 8, 0x10000;
      } else {
        return false;
      }
      if continuationCount > 0 && index + continuationCount >= |text| { return false; }
      var read, at := Continue(text, index, codePoint, continuationCount);
      if read.None? { return false; }
      codePoint := read.value;
      index := index + continuationCount + 1;
      if codePoint < smallest || 0xD800 <= codePoint <= 0xDFFF || codePoint > 0x10FFFF { return false; }
      assert here[continuationCount + 1..] == text[index..];
    }
    return true;
  }

  /** Reads `count` continuation bytes after the lead at `index`; `at` is the first byte that is none. */
  method Continue(text: Bytes, index: nat, lead: int, count: nat) returns (read: Option<int>, ghost at: nat)
    requires index + count < |text|
    ensures var here := text[index..];
      && (read.Some? ==> read.value == Joined(lead, here[1..count + 1]) && forall i :: 1 <= i <= count ==> IsContinuation(here[i]))
      && (read.None? ==> 1 <= at <= count && !IsContinuation(here[at]))
  {
    ghost var here := text[index..];
    var codePoint := lead;
    var offset := 1;
    while offset <= count
      invariant 1 <= offset <= count + 1
      invariant codePoint == Joined(lead, here[1..offset])
      invariant forall i :: 1 <= i < offset ==> IsContinuation(here[i])
    {
      var continuation := text[index + offset];
      assert here[offset] == continuation;
      if continuation as int / 64 != 2 { return None, offset; }
      codePoint := codePoint * 64 + continuation as int % 64;
      assert here[1..offset + 1][..offset - 1] + [continuation] == here[1..offset + 1];
      assert here[1..offset + 1][..offset - 1] == here[1..offset];
      offset := offset + 1;
    }
    return Some(codePoint), 0;
  }

  // Facts the JSON printer needs.

  lemma {:induction false} EncodeAllConcat(a: seq<int>, b: seq<int>)
    requires Scalars(a) && Scalars(b)
    ensures Scalars(a + b) && EncodeAll(a + b) == EncodeAll(a) + EncodeAll(b)
  {
    if a == [] {
      assert a + b == b;
    } else {
      EncodeAllConcat(a[1..], b);
      assert (a + b)[1..] == a[1..] + b;
    }
  }

  lemma WellFormedConcat(a: Bytes, b: Bytes)
    requires WellFormed(a) && WellFormed(b)
    ensures WellFormed(a + b)
  {
    var x :| Scalars(x) && a == EncodeAll(x);
    var y :| Scalars(y) && b == EncodeAll(y);
    EncodeAllConcat(x, y);
  }

  lemma {:induction false} AsciiWellFormed(a: Bytes)
    requires forall i :: 0 <= i < |a| ==> a[i] < 0x80
    ensures WellFormed(a)
  {
    if a == [] {
      assert EncodeAll([]) == [];
    } else {
      AsciiWellFormed(a[1..]);
      var cs := [a[0] as int];
      assert EncodeAll(cs) == Encode(cs[0]) + EncodeAll([]);
      assert [a[0]] == EncodeAll(cs);
      WellFormedConcat([a[0]], a[1..]);
      assert a == [a[0]] + a[1..];
    }
  }
}
