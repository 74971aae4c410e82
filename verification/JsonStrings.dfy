/** The strings the parser builds from a well-formed text are well-formed, whatever escapes they use. */
module JsonStrings {
  import opened Common
  import opened Utf8
  import opened Numerals
  import opened JsonText

  /** A character starts at `pos`, or the text ends there. */
  predicate Boundary(text: Bytes, pos: nat) { pos <= |text| && Decode(text[pos..]).Some? }

  /** One character on: it is the encoding of a scalar value, and its bytes are high unless it is a single one. */
  lemma NextBoundary(text: Bytes, pos: nat) returns (n: nat)
    requires Boundary(text, pos) && pos < |text|
    ensures 1 <= n <= 4 && pos + n <= |text| && Boundary(text, pos + n)
    ensures n == 1 <==> text[pos] < 0x80
    ensures n > 1 ==> forall i :: pos <= i < pos + n ==> text[i] >= 0x80
    ensures WellFormed(text[pos..pos + n])
  {
    hide Decode, First, Announced, Encode, WellFormed;
    var here := text[pos..];
    n := Announced(here[0]) + 1;
    CharacterBytes(here);
    assert here[n..] == text[pos + n..] && here[..n] == text[pos..pos + n];
    forall i | pos <= i < pos + n && n > 1 ensures text[i] >= 0x80 { assert text[i] == here[i - pos]; }
    EncodeOfFirst(here);
    AppendedIsAccepted(First(here).value);
  }

  lemma CharacterBytes(here: Bytes)
    requires here != [] && Decode(here).Some?
    ensures var n := Announced(here[0]) + 1;
      && 1 <= n <= 4 && n <= |here| && Decode(here[n..]).Some? && First(here).Some? && IsScalar(First(here).value)
      && (n == 1 <==> here[0] < 0x80) && (n > 1 ==> forall i :: 0 <= i < n ==> here[i] >= 0x80)
  {
    hide Decode, First, Announced;
    DecodeStep(here);
    Leads(here[0]);
    FirstBytes(here);
  }

  lemma DecodeStep(here: Bytes)
    requires here != [] && Decode(here).Some?
    ensures First(here).Some? && Announced(here[0]) + 1 <= |here| && Decode(here[Announced(here[0]) + 1..]).Some?
  {
    hide Joined, LeadBits, Smallest, IsContinuation, Announced;
  }

  lemma FirstBytes(here: Bytes)
    requires here != [] && First(here).Some?
    ensures var n := Announced(here[0]);
      n <= 3 && n < |here| && IsScalar(First(here).value) && forall i :: 1 <= i <= n ==> here[i] >= 0x80
  {
    hide Announced, Joined, LeadBits, Smallest;
    Leads(here[0]);
    var n := Announced(here[0]);
    forall i | 1 <= i <= n ensures here[i] >= 0x80 { Continuations(here[i]); }
    NoMoreThanThree(here[0]);
  }

  lemma NoMoreThanThree(b: Byte)
    ensures Announced(b) <= 4
  {
  }

  /** In a well-formed text every single-byte character is a boundary. */
  lemma {:induction false} AsciiIsBoundary(text: Bytes, from: nat, pos: nat)
    requires Boundary(text, from) && from <= pos < |text| && text[pos] < 0x80
    ensures Boundary(text, pos) && Boundary(text, pos + 1)
    decreases |text| - from
  {
    hide Boundary, WellFormed;
    var n := NextBoundary(text, from);
    if pos >= from + n { AsciiIsBoundary(text, from + n, pos); }
  }

  /** The bytes of a longer character are taken one by one. */
  lemma {:induction false} HighRun(text: Bytes, pos: nat, n: nat, acc: Bytes)
    requires pos + n <= |text| && forall i :: pos <= i < pos + n ==> text[i] >= 0x80
    ensures ParseChars(text, pos, acc) == ParseChars(text, pos + n, acc + text[pos..pos + n])
    decreases n
  {
    if n == 0 {
      assert acc + text[pos..pos] == acc;
    } else {
      HighRun(text, pos + 1, n - 1, acc + [text[pos]]);
      assert acc + [text[pos]] + text[pos + 1..pos + n] == acc + text[pos..pos + n];
    }
  }

  lemma {:induction false} HexAscii(text: Bytes, pos: nat, n: nat)
    requires Hex(text, pos, n).Some?
    ensures forall i :: pos <= i < pos + n ==> text[i] < 0x80
    decreases n
  {
    if n > 0 { HexAscii(text, pos, n - 1); }
  }

  /** An escape ends behind a hexadecimal digit. */
  lemma EscapeEndsInAscii(text: Bytes, pos: nat)
    requires UnicodeEscape(text, pos).Some?
    ensures pos < UnicodeEscape(text, pos).value.1 <= |text| && text[UnicodeEscape(text, pos).value.1 - 1] < 0x80
  {
    HexAscii(text, pos, 4);
    if Hex4(text, pos + 6).Some? { HexAscii(text, pos + 6, 4); }
  }

  lemma OneByte(b: Byte)
    requires b < 0x80
    ensures WellFormed([b])
  {
    AsciiWellFormed([b]);
  }

  lemma {:induction false} CharsWellFormed(text: Bytes, pos: nat, acc: Bytes)
    requires Boundary(text, 0) && Boundary(text, pos) && WellFormed(acc) && ParseChars(text, pos, acc).Some?
    ensures WellFormed(ParseChars(text, pos, acc).value.0)
    decreases |text| - pos
  {
    hide WellFormed, Boundary, UnicodeEscape, Encode;
    if text[pos] != QUOTE {
      var n := NextBoundary(text, pos);
      if text[pos] != BACKSLASH {
        WellFormedConcat(acc, text[pos..pos + n]);
        if n > 1 { HighRun(text, pos, n, acc); } else { assert text[pos..pos + 1] == [text[pos]]; }
        CharsWellFormed(text, pos + n, acc + text[pos..pos + n]);
      } else {
        EscapeWellFormed(text, pos, acc);
      }
    }
  }

  lemma EscapeWellFormed(text: Bytes, pos: nat, acc: Bytes)
    requires Boundary(text, 0) && WellFormed(acc) && Is(text, pos, BACKSLASH) && ParseChars(text, pos, acc).Some?
    ensures WellFormed(ParseChars(text, pos, acc).value.0)
    decreases |text| - pos, 0
  {
    hide WellFormed, Boundary, UnicodeEscape, Encode;
    var b := text[pos + 1];
    if SimpleEscape(b).Some? {
      AsciiIsBoundary(text, 0, pos + 1);
      OneByte(SimpleEscape(b).value);
      WellFormedConcat(acc, [SimpleEscape(b).value]);
      CharsWellFormed(text, pos + 2, acc + [SimpleEscape(b).value]);
    } else {
      var (cp, next) := UnicodeEscape(text, pos + 2).value;
      EscapeEndsInAscii(text, pos + 2);
      AsciiIsBoundary(text, 0, next - 1);
      AppendedIsAccepted(cp);
      WellFormedConcat(acc, Encode(cp));
      CharsWellFormed(text, next, acc + Encode(cp));
    }
  }

  /** Every string the parser returns from a well-formed text is well-formed. */
  lemma StringWellFormed(text: Bytes, pos: nat)
    requires Decode(text).Some? && ParseString(text, pos).Some?
    ensures WellFormed(ParseString(text, pos).value.0)
  {
    assert text[0..] == text;
    AsciiIsBoundary(text, 0, pos);
    AsciiWellFormed([]);
    CharsWellFormed(text, pos + 1, []);
  }
}
