/** Decimal and hexadecimal numerals, shared by the JSON and the address texts. */
module Numerals {
  import opened Common
  import opened Utf8

  const ZERO: Byte := 48
  const NINE: Byte := 57
  const DOT: Byte := 46
  const COLON: Byte := 58

  predicate IsDigit(b: Byte) { ZERO <= b <= NINE }
  predicate Digits(s: Bytes) { forall i :: 0 <= i < |s| ==> IsDigit(s[i]) }

  function Value(s: Bytes): nat
    requires Digits(s)
  {
    if s == [] then 0 else Value(s[..|s| - 1]) * 10 + (s[|s| - 1] - ZERO) as int
  }

  function Pow10(n: nat): nat { if n == 0 then 1 else 10 * Pow10(n - 1) }

  function Decimal(n: nat): Bytes {
    if n < 10 then [(48 + n) as Byte] else Decimal(n / 10) + [(48 + n % 10) as Byte]
  }

  function HexDigit(n: int): Byte
    requires 0 <= n < 16
  {
    (if n < 10 then 48 + n else 87 + n) as Byte
  }

  /** A hexadecimal digit of either case. */
  function HexChar(n: int, upper: bool): Byte
    requires 0 <= n < 16
  {
    if n < 10 then (48 + n) as Byte else if upper then (55 + n) as Byte else (87 + n) as Byte
  }

  function HexValue(b: Byte): Option<int> {
    var c := b as int;
    if 48 <= c <= 57 then Some(c - 48) else if 97 <= c <= 102 then Some(c - 87) else if 65 <= c <= 70 then Some(c - 55)
    else None
  }

  lemma {:induction false} PowGrows(m: nat, n: nat)
    requires m <= n
    ensures 1 <= Pow10(m) <= Pow10(n)
    decreases n
  {
    if m < n { PowGrows(m, n - 1); } else if m > 0 { PowGrows(m - 1, n - 1); }
  }

  lemma {:induction false} DecimalValue(n: nat)
    ensures Decimal(n) != [] && Digits(Decimal(n)) && Value(Decimal(n)) == n
    ensures Decimal(n)[0] == ZERO <==> n == 0
    ensures n == 0 ==> |Decimal(n)| == 1
  {
    if n < 10 {
      assert Decimal(n)[..0] == [];
    } else {
      DecimalValue(n / 10);
      var init := Decimal(n / 10);
      assert Decimal(n)[..|init|] == init;
    }
  }

  lemma HexCharValue(n: int, upper: bool)
    requires 0 <= n < 16
    ensures HexValue(HexChar(n, upper)) == Some(n)
  {
  }

  function Capital(b: Byte): bool { 65 <= b <= 70 }

  lemma HexSpelled(b: Byte)
    requires HexValue(b).Some?
    ensures 0 <= HexValue(b).value < 16 && HexChar(HexValue(b).value, Capital(b)) == b
  {
  }
}
