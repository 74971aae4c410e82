/** JSON number tokens: decimal digits, exact magnitudes, and the saturating test for a magnitude below one. */
module JsonNumber {
  import opened Common
  import opened Utf8
  import opened Numerals

  const MINUS: Byte := 45
  const PLUS: Byte := 43
  const LOWER_E: Byte := 101
  const UPPER_E: Byte := 69

  /** The bound at which the exponent saturates. */
  const EXPONENT_LIMIT: int := 100_000_000_000_000_000

  /** The grammar of section 6 of RFC 8259. */
  datatype Exponent = Exponent(mark: Byte, sign: Option<Byte>, digits: Bytes)
  datatype Number = Number(negative: bool, whole: Bytes, fraction: Option<Bytes>, exponent: Option<Exponent>)

  ghost predicate Grammatical(t: Number) {
    && t.whole != [] && Digits(t.whole) && (|t.whole| > 1 ==> t.whole[0] != ZERO)
    && (t.fraction.Some? ==> t.fraction.value != [] && Digits(t.fraction.value))
    && (t.exponent.Some? ==> GrammaticalExponent(t.exponent.value))
  }

  ghost predicate GrammaticalExponent(e: Exponent) {
    && (e.mark == LOWER_E || e.mark == UPPER_E) && (e.sign.Some? ==> e.sign.value == PLUS || e.sign.value == MINUS)
    && e.digits != [] && Digits(e.digits)
  }

  function SignBytes(t: Number): Bytes { if t.negative then [MINUS] else [] }
  function FractionBytes(t: Number): Bytes { if t.fraction.Some? then [DOT] + t.fraction.value else [] }
  function ExponentSign(e: Exponent): Bytes { if e.sign.Some? then [e.sign.value] else [] }
  function ExponentBytes(t: Number): Bytes {
    if t.exponent.Some? then [t.exponent.value.mark] + ExponentSign(t.exponent.value) + t.exponent.value.digits else []
  }
  function RenderNumber(t: Number): Bytes { SignBytes(t) + t.whole + FractionBytes(t) + ExponentBytes(t) }

  function FractionDigits(t: Number): Bytes { if t.fraction.Some? then t.fraction.value else [] }

  ghost function Scale(t: Number): int
    requires Grammatical(t)
  {
    if t.exponent.None? then 0
    else if t.exponent.value.sign == Some(MINUS) then 0 - Value(t.exponent.value.digits)
    else Value(t.exponent.value.digits)
  }

  /** `d * 10^shift < 1`, exactly. */
  ghost predicate ScaledBelowOne(d: nat, shift: int) { if shift >= 0 then d * Pow10(shift) < 1 else d < Pow10(-shift) }

  /** The exact magnitude of the token is below one. */
  ghost predicate BelowOne(t: Number)
    requires Grammatical(t)
  {
    ScaledBelowOne(Value(t.whole + FractionDigits(t)), Scale(t) - |FractionDigits(t)|)
  }

  // Digits and powers of ten.

  /** The first non-zero digit sits at `i`. */
  ghost predicate Leads(s: Bytes, i: nat) { i < |s| && s[i] != ZERO && forall j :: 0 <= j < i ==> s[j] == ZERO }

  lemma {:induction false} AllZero(s: Bytes)
    requires forall i :: 0 <= i < |s| ==> s[i] == ZERO
    ensures Digits(s) && Value(s) == 0
  {
    if s != [] { AllZero(s[..|s| - 1]); }
  }

  /** The first non-zero digit fixes the magnitude to one decade. */
  lemma {:induction false} ValueDecade(s: Bytes, i: nat)
    requires Digits(s) && Leads(s, i)
    ensures Pow10(|s| - 1 - i) <= Value(s) < Pow10(|s| - i)
  {
    var init, last := s[..|s| - 1], s[|s| - 1];
    if i == |s| - 1 {
      AllZero(init);
    } else {
      ValueDecade(init, i);
    }
  }

  /** A number with leading digit at 10^lead and scale e is below one exactly when lead + e < 0. */
  lemma DecadeDecides(d: nat, lead: int, places: nat, scale: int)
    requires lead + places >= 0 && Pow10(lead + places) <= d < Pow10(lead + places + 1)
    ensures ScaledBelowOne(d, scale - places) <==> lead + scale < 0
  {
    var shift := scale - places;
    PowGrows(0, lead + places);
    if lead + scale < 0 {
      PowGrows(lead + places + 1, -shift);
    } else if shift >= 0 {
      PowGrows(0, shift);
      Positive(d, Pow10(shift));
    } else {
      PowGrows(-shift, lead + places);
    }
  }

  lemma Positive(a: nat, b: nat)
    requires 1 <= a && 1 <= b
    ensures 1 <= a * b
  {
  }

  lemma ZeroScaled(shift: int)
    ensures ScaledBelowOne(0, shift)
  {
    if shift < 0 { PowGrows(0, -shift); }
  }

  /** Saturating each step is saturating the result. */
  lemma SaturateStep(v: nat, x: int, digit: int)
    requires 0 <= digit <= 9 && x == Min(v, EXPONENT_LIMIT)
    ensures Min(x * 10 + digit, EXPONENT_LIMIT) == Min(v * 10 + digit, EXPONENT_LIMIT)
  {
  }

  // The scanner.

  predicate Int64(x: int) { -0x8000_0000_0000_0000 <= x <= 0x7FFF_FFFF_FFFF_FFFF }

  /** The digits of `token` from `start` are `s`; they end at a byte that is no digit. */
  ghost predicate RunOfDigits(token: Bytes, start: nat, s: Bytes) {
    && start + |s| <= |token| && Digits(s) && (forall i :: start <= i < start + |s| ==> token[i] == s[i - start])
    && (start + |s| < |token| ==> !IsDigit(token[start + |s|]))
  }

  method SkipDigits(token: Bytes, start: nat, ghost s: Bytes) returns (position: nat)
    requires RunOfDigits(token, start, s)
    ensures position == start + |s|
  {
    position := start;
    while position < |token| && IsDigit(token[position])
      invariant start <= position <= start + |s|
    {
      position := position + 1;
    }
  }

  /** What is known of the leading digit after reading `s`, whose first `whole` digits stand before the point. */
  ghost predicate Found(s: Bytes, whole: nat, nonZero: bool, leading: int) {
    if nonZero then exists i :: Leads(s, i) && leading == whole - 1 - i else forall i :: 0 <= i < |s| ==> s[i] == ZERO
  }

  lemma FoundMore(s: Bytes, whole: nat, nonZero: bool, leading: int, b: Byte)
    requires Found(s, whole, nonZero, leading)
    ensures nonZero || b == ZERO ==> Found(s + [b], whole, nonZero, leading)
    ensures !nonZero && b != ZERO ==> Found(s + [b], whole, true, whole - 1 - |s|)
  {
    if nonZero {
      var i :| Leads(s, i) && leading == whole - 1 - i;
      assert Leads(s + [b], i);
    } else if b != ZERO {
      assert Leads(s + [b], |s|);
    }
  }

  /** The integer part: the search stops at the first non-zero digit. */
  method LeadOfWhole(token: Bytes, start: nat, ghost s: Bytes) returns (nonZero: bool, leading: int)
    requires RunOfDigits(token, start, s)
    ensures Found(s, |s|, nonZero, leading) && (nonZero ==> 0 <= leading < |s|)
  {
    nonZero, leading := false, 0;
    var position := SkipDigits(token, start, s);
    var integerDigits := position - start;
    var index := start;
    while index < position && !nonZero
      invariant start <= index <= position
      invariant !nonZero ==> forall i :: 0 <= i < index - start ==> s[i] == ZERO
      invariant nonZero ==> 0 <= leading < |s| && Leads(s, |s| - 1 - leading)
      decreases position - index, !nonZero
    {
      if token[index] != ZERO {
        nonZero := true;
        leading := integerDigits - 1 - (index - start);
      }
      index := index + 1;
    }
    if nonZero { assert leading == |s| - 1 - (|s| - 1 - leading); }
  }

  /** The fraction continues the search over all its digits. */
  method LeadOfFraction(token: Bytes, start: nat, ghost s: Bytes, ghost whole: Bytes, nonZero0: bool, leading0: int)
    returns (position: nat, nonZero: bool, leading: int)
    requires RunOfDigits(token, start, s) && Found(whole, |whole|, nonZero0, leading0)
    requires (nonZero0 ==> 0 <= leading0 < |whole|)
    ensures position == start + |s| && Found(whole + s, |whole|, nonZero, leading)
    ensures (nonZero ==> -|s| <= leading < |whole|)
  {
    position, nonZero, leading := start, nonZero0, leading0;
    assert whole + s[..0] == whole;
    while position < |token| && IsDigit(token[position])
      invariant start <= position <= start + |s|
      invariant Found(whole + s[..position - start], |whole|, nonZero, leading)
      invariant nonZero ==> start - position <= leading < |whole|
    {
      ghost var read := s[..position - start];
      FoundMore(whole + read, |whole|, nonZero, leading, token[position]);
      assert s[..position - start + 1] == read + [token[position]];
      assert whole + (read + [token[position]]) == (whole + read) + [token[position]];
      if !nonZero && token[position] != ZERO {
        nonZero := true;
        leading := -1 - (position - start);
      }
      position := position + 1;
    }
    assert s[..|s|] == s;
  }

  /** The exponent digits, saturated so that no step leaves 64 bits. */
  method ReadExponent(token: Bytes, start: nat, ghost s: Bytes) returns (exponent: int)
    requires RunOfDigits(token, start, s)
    ensures exponent == Min(Value(s), EXPONENT_LIMIT) && Int64(exponent)
  {
    exponent := 0;
    var position := start;
    while position < |token| && IsDigit(token[position])
      invariant start <= position <= start + |s|
      invariant exponent == Min(Value(s[..position - start]), EXPONENT_LIMIT)
    {
      ghost var read := s[..position - start];
      var digit := (token[position] - ZERO) as int;
      SaturateStep(Value(read), exponent, digit);
      assert s[..position - start + 1][..position - start] == read;
      assert Int64(exponent * 10 + digit);
      exponent := Min(exponent * 10 + digit, EXPONENT_LIMIT);
      position := position + 1;
    }
    assert s[..|s|] == s;
  }

  /** Where the parts of a token are. */
  lemma Layout(t: Number)
    requires Grammatical(t)
    ensures var token := RenderNumber(t); var w := |SignBytes(t)|; var p1 := w + |t.whole|;
      var p2 := p1 + |FractionBytes(t)|;
      && |token| == p2 + |ExponentBytes(t)| && (token[0] == MINUS <==> t.negative) && RunOfDigits(token, w, t.whole)
      && (t.fraction.Some? <==> p1 < |token| && token[p1] == DOT)
      && (t.fraction.Some? ==> RunOfDigits(token, p1 + 1, t.fraction.value))
      && (t.exponent.Some? <==> p2 < |token|)
  {
    var token := RenderNumber(t);
    var w := |SignBytes(t)|;
    var p1 := w + |t.whole|;
    if t.exponent.Some? { assert ExponentBytes(t)[0] == t.exponent.value.mark; }
    forall i | 0 <= i < |ExponentBytes(t)| ensures token[p1 + |FractionBytes(t)| + i] == ExponentBytes(t)[i] { }
    forall i | 0 <= i < |FractionBytes(t)| ensures token[p1 + i] == FractionBytes(t)[i] { }
  }

  lemma ExponentLayout(t: Number)
    requires Grammatical(t) && t.exponent.Some?
    ensures var token := RenderNumber(t); var e := t.exponent.value;
      var p2 := |SignBytes(t)| + |t.whole| + |FractionBytes(t)|;
      && p2 + 1 < |token| && token[p2] == e.mark
      && (token[p2 + 1] == MINUS <==> e.sign == Some(MINUS)) && (token[p2 + 1] == PLUS <==> e.sign == Some(PLUS))
      && RunOfDigits(token, p2 + 1 + |ExponentSign(e)|, e.digits)
  {
    var token := RenderNumber(t);
    var p2 := |SignBytes(t)| + |t.whole| + |FractionBytes(t)|;
    var bytes := ExponentBytes(t);
    forall i | 0 <= i < |bytes| ensures token[p2 + i] == bytes[i] { }
  }

  /** The saturated comparison decides the exact one: no leading place reaches the limit. */
  lemma SaturationIsExact(leading: int, scale: nat, negative: bool)
    requires -EXPONENT_LIMIT < leading < EXPONENT_LIMIT
    ensures var e := Min(scale, EXPONENT_LIMIT);
      && (leading + (if negative then -e else e) < 0 <==> leading + (if negative then 0 - scale else scale) < 0)
      && Int64(leading + if negative then -e else e)
  {
  }

  lemma Decides(t: Number, nonZero: bool, leading: int)
    requires Grammatical(t) && Found(t.whole + FractionDigits(t), |t.whole|, nonZero, leading)
    ensures Digits(t.whole + FractionDigits(t)) && (BelowOne(t) <==> !nonZero || leading + Scale(t) < 0)
  {
    var s := t.whole + FractionDigits(t);
    if nonZero {
      var i :| Leads(s, i) && leading == |t.whole| - 1 - i;
      ValueDecade(s, i);
      DecadeDecides(Value(s), leading, |FractionDigits(t)|, Scale(t));
    } else {
      AllZero(s);
      ZeroScaled(Scale(t) - |FractionDigits(t)|);
    }
  }

  /**
    Decides whether the exact magnitude of a grammatical token is below one. The token may have any number of digits
    below the exponent limit, and no intermediate value leaves 64 bits.
   */
  method MagnitudeBelowOne(token: Bytes, ghost t: Number) returns (below: bool)
    requires Grammatical(t) && token == RenderNumber(t) && |token| < EXPONENT_LIMIT
    ensures below <==> BelowOne(t)
  {
    Layout(t);
    var position := if |token| > 0 && token[0] == MINUS then 1 else 0;
    var nonZero, leading := LeadOfWhole(token, position, t.whole);
    position := SkipDigits(token, position, t.whole);
    assert t.whole + [] == t.whole;
    if position < |token| && token[position] == DOT {
      position, nonZero, leading := LeadOfFraction(token, position + 1, t.fraction.value, t.whole, nonZero, leading);
    }
    Decides(t, nonZero, leading);
    if !nonZero { return true; }
    below := WithExponent(token, position, leading, t);
  }

  method WithExponent(token: Bytes, start: nat, leading: int, ghost t: Number) returns (below: bool)
    requires Grammatical(t) && token == RenderNumber(t) && -EXPONENT_LIMIT < leading < EXPONENT_LIMIT
    requires start == |SignBytes(t)| + |t.whole| + |FractionBytes(t)| && (t.exponent.Some? <==> start < |token|)
    ensures below <==> leading + Scale(t) < 0
  {
    hide RenderNumber, Value, Digits, FractionBytes, SignBytes;
    var exponent := 0;
    var position := start;
    if t.exponent.Some? { ExponentLayout(t); }
    if position < |token| && (token[position] == LOWER_E || token[position] == UPPER_E) {
      position := position + 1;
      var negative := position < |token| && token[position] == MINUS;
      if position < |token| && (token[position] == PLUS || token[position] == MINUS) { position := position + 1; }
      exponent := ReadExponent(token, position, t.exponent.value.digits);
      SaturationIsExact(leading, Value(t.exponent.value.digits), negative);
      if negative { exponent := -exponent; }
    }
    return leading + exponent < 0;
  }
}
