/** The parser object, which advances a position and a value budget, and the printer's append loops. */
module JsonParser {
  import opened Common
  import opened Utf8
  import opened JsonNumber
  import opened Numerals
  import opened JsonText

  class Parser {
    const text: Bytes
    var position: nat
    var remaining: nat

    constructor (input: Bytes, maxValues: nat)
      ensures text == input && position == 0 && remaining == maxValues
    {
      text, position, remaining := input, 0, maxValues;
    }

    /** The result and the object's state are the given outcome. */
    ghost predicate Agrees(r: Result<Json>, o: Outcome<Json>)
      reads this
    {
      match o
      case Got(v, pos, left) => r == Success(v) && position == pos && remaining == left
      case Fail(e) => r == Failure(e)
    }

    method SkipByteOrderMark()
      requires position == 0
      modifies this`position
      ensures position == AfterMark(text)
    {
      if |text| >= 3 && text[0] == 0xEF && text[1] == 0xBB && text[2] == 0xBF { position := 3; }
    }

    method SkipWhitespace()
      modifies this`position
      ensures position == SkipSpace(text, old(position))
    {
      while position < |text| && (text[position] == 32 || text[position] == 9 || text[position] == 13 || text[position] == 10)
        invariant SkipSpace(text, position) == SkipSpace(text, old(position))
        decreases |text| - position
      {
        position := position + 1;
      }
    }

    method Consume(value: Byte) returns (taken: bool)
      modifies this`position
      ensures taken == Is(text, old(position), value) && position == old(position) + if taken then 1 else 0
    {
      taken := position < |text| && text[position] == value;
      if taken { position := position + 1; }
    }

    method ReadLiteral(word: Bytes, v: Json) returns (r: Result<Json>)
      modifies this`position
      ensures Agrees(r, ParseLiteral(text, old(position), old(remaining), word, v))
    {
      if position + |word| > |text| || text[position..position + |word|] != word { return Failure(InvalidFormat); }
      position := position + |word|;
      return Success(v);
    }

    method ReadHex4() returns (value: Option<int>)
      modifies this`position
      ensures value == Hex4(text, old(position)) && (value.Some? ==> position == old(position) + 4)
    {
      if position + 4 > |text| { return None; }
      ghost var start := position;
      var code := 0;
      var index := 0;
      while index < 4
        invariant 0 <= index <= 4 && position == start + index && start + 4 <= |text|
        invariant Hex(text, start, index) == Some(code)
      {
        var character := text[position] as int;
        position := position + 1;
        code := code * 16;
        index := index + 1;
        if 48 <= character <= 57 {
          code := code + (character - 48);
        } else if 97 <= character <= 102 {
          code := code + (character - 97 + 10);
        } else if 65 <= character <= 70 {
          code := code + (character - 65 + 10);
        } else {
          HexStops(text, start, index);
          return None;
        }
      }
      return Some(code);
    }

    /** The digits behind `\u`, with the second half of a surrogate pair. */
    method ReadCodePoint() returns (codePoint: Option<int>)
      modifies this`position
      ensures match UnicodeEscape(text, old(position))
        case None => codePoint.None?
        case Some((cp, next)) => codePoint == Some(cp) && position == next
    {
      var high := ReadHex4();
      if high.None? { return None; }
      if 0xD800 <= high.value <= 0xDBFF {
        if position + 2 > |text| || text[position] != BACKSLASH || text[position + 1] != 117 { return None; }
        position := position + 2;
        var low := ReadHex4();
        if low.None? || low.value < 0xDC00 || low.value > 0xDFFF { return None; }
        return Some(0x10000 + (high.value - 0xD800) * 1024 + (low.value - 0xDC00));
      }
      if 0xDC00 <= high.value <= 0xDFFF { return None; }
      return high;
    }

    method ReadString() returns (r: Option<Bytes>)
      modifies this`position
      ensures match ParseString(text, old(position))
        case None => r.None?
        case Some((s, next)) => r == Some(s) && position == next
    {
      var quoted := Consume(QUOTE);
      if !quoted { return None; }
      var result: Bytes := [];
      while position < |text|
        invariant ParseChars(text, position, result) == ParseString(text, old(position))
        decreases |text| - position
      {
        var character := text[position];
        position := position + 1;
        if character == QUOTE { return Some(result); }
        if character < 32 { return None; }
        if character != BACKSLASH {
          result := result + [character];
        } else {
          if position >= |text| { return None; }
          var escape := text[position];
          position := position + 1;
          if escape == QUOTE || escape == BACKSLASH || escape == 47 {
            result := result + [escape];
          } else if escape == 98 {
            result := result + [8];
          } else if escape == 102 {
            result := result + [12];
          } else if escape == 110 {
            result := result + [10];
          } else if escape == 114 {
            result := result + [13];
          } else if escape == 116 {
            result := result + [9];
          } else if escape == 117 {
            var codePoint := ReadCodePoint();
            if codePoint.None? { return None; }
            result := result + Encode(codePoint.value);
          } else {
            return None;
          }
        }
      }
      return None;
    }

    method ReadDigits()
      modifies this`position
      ensures position == DigitsEnd(text, old(position))
    {
      while position < |text| && IsDigit(text[position])
        invariant DigitsEnd(text, position) == DigitsEnd(text, old(position))
        decreases |text| - position
      {
        position := position + 1;
      }
    }

    method ReadWhole() returns (ok: bool)
      modifies this`position
      ensures ok == WholeEnd(text, old(position)).Some? && (ok ==> position == WholeEnd(text, old(position)).value)
    {
      var zero := Consume(ZERO);
      if zero { return !(position < |text| && IsDigit(text[position])); }
      if position >= |text| || text[position] < 49 || text[position] > 57 { return false; }
      ReadDigits();
      return true;
    }

    method ReadFraction() returns (ok: bool)
      modifies this`position
      ensures ok == FractionEnd(text, old(position)).Some?
      ensures (ok ==> position == FractionEnd(text, old(position)).value)
    {
      var point := Consume(DOT);
      if !point { return true; }
      if position >= |text| || !IsDigit(text[position]) { return false; }
      ReadDigits();
      return true;
    }

    method ReadExponent() returns (ok: bool)
      modifies this`position
      ensures ok == ExponentEnd(text, old(position)).Some?
      ensures (ok ==> position == ExponentEnd(text, old(position)).value)
    {
      if position >= |text| || (text[position] != LOWER_E && text[position] != UPPER_E) { return true; }
      position := position + 1;
      if position < |text| && (text[position] == PLUS || text[position] == MINUS) { position := position + 1; }
      if position >= |text| || !IsDigit(text[position]) { return false; }
      ReadDigits();
      return true;
    }

    method ReadNumber() returns (r: Result<Json>)
      requires position < |text|
      modifies this`position
      ensures Agrees(r, ParseNumber(text, old(position), old(remaining)))
    {
      var start := position;
      var negative := Consume(MINUS);
      var ok := ReadWhole();
      if !ok { return Failure(InvalidFormat); }
      var whole := position;
      ok := ReadFraction();
      if !ok { return Failure(InvalidFormat); }
      ok := ReadExponent();
      if !ok { return Failure(InvalidFormat); }
      if position > whole { return Success(Double(text[start..position])); }
      TokenDigits(text, start, position);
      var integer := Integer(text[start..position]);
      if integer.None? { return Failure(InvalidFormat); }
      return Success(integer.value);
    }

    method ReadScalar() returns (r: Result<Json>)
      requires position < |text|
      modifies this`position
      ensures Agrees(r, ParseScalar(text, old(position), old(remaining)))
    {
      var first := text[position];
      if first == 110 {
        r := ReadLiteral(NULL_TEXT, Null);
      } else if first == 116 {
        r := ReadLiteral(TRUE_TEXT, Bool(true));
      } else if first == 102 {
        r := ReadLiteral(FALSE_TEXT, Bool(false));
      } else if first == QUOTE {
        var s := ReadString();
        r := if s.Some? then Success(Str(s.value)) else Failure(InvalidFormat);
      } else if first == MINUS || IsDigit(first) {
        r := ReadNumber();
      } else {
        r := Failure(InvalidFormat);
      }
    }

    method ReadValue(depth: nat) returns (r: Result<Json>)
      modifies this
      ensures Agrees(r, ParseValue(text, old(position), old(remaining), depth))
      decreases |text| - position, 1
    {
      if depth > MAX_DEPTH || position >= |text| { return Failure(InvalidFormat); }
      if remaining == 0 { return Failure(TooLarge); }
      remaining := remaining - 1;
      if text[position] == OPEN_ARRAY {
        position := position + 1;
        r := ReadArray(depth + 1);
      } else if text[position] == OPEN_OBJECT {
        position := position + 1;
        r := ReadObject(depth + 1);
      } else {
        r := ReadScalar();
      }
    }

    /** Behind an element: the closing bracket, or a comma and the white space after it. */
    method CloseOrComma(close: Byte) returns (closed: bool, comma: bool)
      requires position <= |text| && close != COMMA
      modifies this`position
      ensures var p := SkipSpace(text, old(position));
        && closed == Is(text, p, close) && comma == Is(text, p, COMMA)
        && (closed ==> position == p + 1 <= |text|) && (comma ==> position == SkipSpace(text, p + 1) <= |text|)
    {
      SkipWhitespace();
      comma := false;
      closed := Consume(close);
      if closed { return; }
      comma := Consume(COMMA);
      if comma { SkipWhitespace(); }
    }

    method ReadArray(depth: nat) returns (r: Result<Json>)
      requires position <= |text|
      modifies this
      ensures Agrees(r, ParseArray(text, old(position), old(remaining), depth))
      decreases |text| - position, 2
    {
      SkipWhitespace();
      var closed := Consume(CLOSE_ARRAY);
      if closed { return Success(Arr([])); }
      var result: seq<Json> := [];
      ghost var goal := ParseItems(text, position, remaining, depth, []);
      while true
        invariant old(position) <= position <= |text| && ParseItems(text, position, remaining, depth, result) == goal
        decreases |text| - position
      {
        var element := ReadValue(depth);
        if element.Failure? { return Failure(element.error); }
        result := result + [element.value];
        var comma;
        closed, comma := CloseOrComma(CLOSE_ARRAY);
        if closed { return Success(Arr(result)); }
        if !comma { return Failure(InvalidFormat); }
      }
    }

    method ReadObject(depth: nat) returns (r: Result<Json>)
      requires position <= |text|
      modifies this
      ensures Agrees(r, ParseObject(text, old(position), old(remaining), depth))
      decreases |text| - position, 3
    {
      SkipWhitespace();
      var closed := Consume(CLOSE_OBJECT);
      if closed { return Success(Obj([])); }
      var result: seq<Member> := [];
      ghost var goal := ParseMembers(text, position, remaining, depth, []);
      while true
        invariant old(position) <= position <= |text| && ParseMembers(text, position, remaining, depth, result) == goal
        decreases |text| - position
      {
        var stored := ReadMember(depth, result);
        if stored.Failure? { return Failure(stored.error); }
        result := stored.value;
        var comma;
        closed, comma := CloseOrComma(CLOSE_OBJECT);
        if closed { return Success(Obj(result)); }
        if !comma { return Failure(InvalidFormat); }
      }
    }

    /** One key, its value, and their place in the object. */
    method ReadMember(depth: nat, acc: seq<Member>) returns (r: Result<seq<Member>>)
      requires position <= |text|
      modifies this
      ensures r.Success? ==> old(position) < position <= |text|
      ensures r.Success? ==>
        ParseMembers(text, old(position), old(remaining), depth, acc) == AfterMember(text, position, remaining, depth, r.value)
      ensures r.Failure? ==> ParseMembers(text, old(position), old(remaining), depth, acc) == Fail(r.error)
      decreases |text| - position, 2
    {
      var key := ReadString();
      if key.None? { return Failure(InvalidFormat); }
      SkipWhitespace();
      var colon := Consume(COLON);
      if !colon { return Failure(InvalidFormat); }
      SkipWhitespace();
      assert ParseMembers(text, old(position), old(remaining), depth, acc) == ParseMember(text, position, remaining, depth, acc, key.value);
      var value := ReadValue(depth);
      if value.Failure? { return Failure(value.error); }
      var stored := Insert(acc, Member(key.value, value.value));
      return if stored.Some? then Success(stored.value) else Failure(InvalidFormat);
    }

    method ReadDocument() returns (r: Result<Json>)
      requires position == 0 && Decode(text).Some?
      modifies this
      ensures Agrees(r, ParseDocument(text, old(remaining)))
    {
      SkipByteOrderMark();
      SkipWhitespace();
      r := ReadValue(0);
      if r.Failure? { return; }
      SkipWhitespace();
      if position != |text| { return Failure(InvalidFormat); }
    }
  }

  /** ParseText: validation, then the parser. */
  method Parse(text: Bytes, maxValues: nat) returns (r: Result<Json>)
    ensures match ParseDocument(text, maxValues)
      case Got(v, _, _) => r == Success(v)
      case Fail(e) => r == Failure(e)
  {
    var valid := IsValidUtf8(text);
    DecodeIffWellFormed(text);
    if !valid { return Failure(InvalidFormat); }
    var parser := new Parser(text, maxValues);
    r := parser.ReadDocument();
  }

  // The printer.

  method DumpEscapedString(value: Bytes, output: Bytes) returns (r: Bytes)
    ensures r == output + Quoted(value)
  {
    r := output + [QUOTE];
    assert value[0..] == value;
    for i := 0 to |value|
      invariant r + Escape(value[i..]) == output + [QUOTE] + Escape(value)
    {
      assert value[i..][1..] == value[i + 1..];
      assert r + (EscapeByte(value[i]) + Escape(value[i + 1..])) == (r + EscapeByte(value[i])) + Escape(value[i + 1..]);
      r := r + EscapeByte(value[i]);
    }
    assert value[|value|..] == [] && r + [] == r;
    r := r + [QUOTE];
    assert output + [QUOTE] + Escape(value) + [QUOTE] == output + Quoted(value);
  }

  /** What appending the elements from `i` on to `out` gives. */
  ghost function Appended(out: Bytes, rest: Result<Bytes>, separated: bool): Result<Bytes> {
    match rest
    case Failure(e) => Failure(e)
    case Success(t) => Success(out + (if separated then SEPARATOR else []) + t)
  }

  method DumpValue(v: Json, output: Bytes, depth: nat) returns (r: Result<Bytes>)
    ensures r == Appended(output, Dump(v, depth), false)
    decreases v, 1
  {
    hide Quoted, DumpItems, DumpMembers, WellFormed, Decode;
    if depth > MAX_DEPTH { return Failure(InvalidArgument); }
    assert output + [] == output;
    match v {
      case Str(s) =>
        var valid := IsValidUtf8(s);
        DecodeIffWellFormed(s);
        if !valid { return Failure(InvalidArgument); }
        var quoted := DumpEscapedString(s, output);
        return Success(quoted);
      case Arr(items) =>
        r := DumpElements(items, output + [OPEN_ARRAY], depth + 1);
        if r.Success? {
          assert r.value + [CLOSE_ARRAY] == output + ([OPEN_ARRAY] + DumpItems(items, depth + 1).value + [CLOSE_ARRAY]);
          r := Success(r.value + [CLOSE_ARRAY]);
        }
      case Obj(members) =>
        var valid := ValidKeys(members);
        if !valid { return Failure(InvalidArgument); }
        r := DumpPairs(members, output + [OPEN_OBJECT], depth + 1);
        if r.Success? {
          assert r.value + [CLOSE_OBJECT] == output + ([OPEN_OBJECT] + DumpMembers(members, depth + 1).value + [CLOSE_OBJECT]);
          r := Success(r.value + [CLOSE_OBJECT]);
        }
      case _ =>
        return Success(output + Render(v));
    }
  }

  method ValidKeys(members: seq<Member>) returns (valid: bool)
    ensures valid <==> forall i :: 0 <= i < |members| ==> Decode(members[i].key).Some?
  {
    for i := 0 to |members|
      invariant forall j :: 0 <= j < i ==> Decode(members[j].key).Some?
    {
      valid := IsValidUtf8(members[i].key);
      DecodeIffWellFormed(members[i].key);
      if !valid { return false; }
    }
    return true;
  }

  method DumpElements(items: seq<Json>, output: Bytes, depth: nat) returns (r: Result<Bytes>)
    ensures r == Appended(output, DumpItems(items, depth), false)
    decreases items, 0
  {
    var out := output;
    assert items[0..] == items;
    for i := 0 to |items|
      invariant Appended(out, DumpItems(items[i..], depth), 0 < i < |items|) == Appended(output, DumpItems(items, depth), false)
    {
      SeparatorFirst(out, DumpItems(items[i..], depth));
      if i > 0 { out := out + SEPARATOR; }
      var element := DumpValue(items[i], out, depth);
      if element.Failure? { return element; }
      ElementStep(out, items[i..], depth);
      assert items[i..][1..] == items[i + 1..];
      out := element.value;
    }
    assert items[|items|..] == [] && out + [] + [] == out;
    return Success(out);
  }

  lemma SeparatorFirst(out: Bytes, rest: Result<Bytes>)
    ensures Appended(out, rest, true) == Appended(out + SEPARATOR, rest, false)
  {
    if rest.Success? { assert out + SEPARATOR + rest.value == (out + SEPARATOR) + [] + rest.value; }
  }

  lemma ElementStep(out: Bytes, rest: seq<Json>, depth: nat)
    requires rest != [] && Dump(rest[0], depth).Success?
    ensures Appended(out, DumpItems(rest, depth), false) == Appended(out + [] + Dump(rest[0], depth).value, DumpItems(rest[1..], depth), |rest| > 1)
  {
    var t, more := Dump(rest[0], depth).value, DumpItems(rest[1..], depth);
    if |rest| == 1 {
      assert out + [] + t + [] + [] == out + [] + t;
    } else if more.Success? {
      assert out + [] + (t + SEPARATOR + more.value) == (out + [] + t) + SEPARATOR + more.value;
    }
  }

  method DumpPairs(members: seq<Member>, output: Bytes, depth: nat) returns (r: Result<Bytes>)
    ensures r == Appended(output, DumpMembers(members, depth), false)
    decreases members, 0
  {
    var out := output;
    assert members[0..] == members;
    for i := 0 to |members|
      invariant Appended(out, DumpMembers(members[i..], depth), 0 < i < |members|) == Appended(output, DumpMembers(members, depth), false)
    {
      SeparatorFirst(out, DumpMembers(members[i..], depth));
      if i > 0 { out := out + SEPARATOR; }
      ghost var before := out;
      out := DumpEscapedString(members[i].key, out);
      out := out + KEY_SEPARATOR;
      var value := DumpValue(members[i].value, out, depth);
      if value.Failure? { return value; }
      PairStep(before, members[i..], depth);
      assert members[i..][1..] == members[i + 1..];
      out := value.value;
    }
    assert members[|members|..] == [] && out + [] + [] == out;
    return Success(out);
  }

  lemma PairStep(out: Bytes, rest: seq<Member>, depth: nat)
    requires rest != [] && Dump(rest[0].value, depth).Success?
    ensures var done := out + Quoted(rest[0].key) + KEY_SEPARATOR + [] + Dump(rest[0].value, depth).value;
      Appended(out, DumpMembers(rest, depth), false) == Appended(done, DumpMembers(rest[1..], depth), |rest| > 1)
  {
    hide Dump, Quoted;
    var key, t, more := Quoted(rest[0].key), Dump(rest[0].value, depth).value, DumpMembers(rest[1..], depth);
    if |rest| == 1 {
      assert out + [] + (key + KEY_SEPARATOR + t) == out + key + KEY_SEPARATOR + [] + t + [] + [];
    } else if more.Success? {
      assert out + [] + (key + KEY_SEPARATOR + t + SEPARATOR + more.value) == (out + key + KEY_SEPARATOR + [] + t) + SEPARATOR + more.value;
    }
  }

  lemma HexStops(text: Bytes, pos: nat, n: nat)
    requires 1 <= n <= 4 && pos + 4 <= |text| && HexValue(text[pos + n - 1]).None?
    ensures Hex(text, pos, 4).None?
  {
    if n == 1 {
      assert Hex(text, pos, 1).None? && Hex(text, pos, 2).None? && Hex(text, pos, 3).None?;
    } else if n == 2 {
      assert Hex(text, pos, 2).None? && Hex(text, pos, 3).None?;
    } else if n == 3 {
      assert Hex(text, pos, 3).None?;
    }
  }
}