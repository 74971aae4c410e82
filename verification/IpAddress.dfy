/** IP addresses as text: section 2.2 of RFC 4291 for reading, section 4 of RFC 5952 for writing. */
module IpAddress {
  import opened Common
  import opened Utf8
  import opened Numerals

  const PERCENT: Byte := 37

  /** A version 6 address is its eight words; `Bytes16` gives the sixteen bytes the source stores. */
  datatype Address = V4(bytes: seq<int>) | V6(words: seq<int>, scope: nat)

  predicate IsV4(a: Address) { a.V4? && |a.bytes| == 4 && forall i :: 0 <= i < 4 ==> 0 <= a.bytes[i] <= 255 }
  predicate IsV6(a: Address) { a.V6? && |a.words| == 8 && AllWords(a.words) && a.scope <= 0xFFFF_FFFF }
  predicate AllWords(ws: seq<int>) { forall i :: 0 <= i < |ws| ==> 0 <= ws[i] <= 0xFFFF }

  function Bytes16(ws: seq<int>): seq<int> {
    if ws == [] then [] else [ws[0] / 256, ws[0] % 256] + Bytes16(ws[1..])
  }

  // Reading.

  function Find(text: Bytes, b: Byte): (r: nat)
    ensures r <= |text| && (r < |text| ==> text[r] == b) && forall i :: 0 <= i < r ==> text[i] != b
  {
    if text == [] || text[0] == b then 0 else 1 + Find(text[1..], b)
  }

  predicate IsPair(text: Bytes, i: nat) { i + 1 < |text| && text[i] == COLON && text[i + 1] == COLON }

  /** The first double colon from `start` on, or the length. */
  function FindPair(text: Bytes, start: nat): (r: nat)
    ensures start <= |text| ==> start <= r <= |text|
    ensures r < |text| ==> IsPair(text, r)
    ensures forall i :: start <= i < r ==> !IsPair(text, i)
    decreases |text| - start
  {
    if start >= |text| then (if start > |text| then start else |text|) else if IsPair(text, start) then start
    else FindPair(text, start + 1)
  }

  function ReadPart(part: Bytes): Option<int> {
    if |part| > 3 || (|part| > 1 && part[0] == ZERO) || part == [] || !Digits(part) || Value(part) > 255 then None
    else Some(Value(part))
  }

  /** Four decimal parts; `acc` holds those already read. */
  function ReadV4(text: Bytes, acc: seq<int>): Option<seq<int>>
    decreases |text|
  {
    var dot := Find(text, DOT);
    match ReadPart(text[..dot])
    case None => None
    case Some(v) =>
      if |acc| >= 3 then (if dot == |text| then Some(acc + [v]) else None)
      else if dot == |text| then None
      else ReadV4(text[dot + 1..], acc + [v])
  }

  function ReadHex(part: Bytes): (r: Option<int>)
    ensures r.Some? ==> 0 <= r.value
  {
    if part == [] then Some(0)
    else
      match (ReadHex(part[..|part| - 1]), HexValue(part[|part| - 1]))
      case (Some(high), Some(low)) => Some(high * 16 + low)
      case _ => None
  }

  function ReadWords(text: Bytes, allowV4: bool, acc: seq<int>): Option<seq<int>>
    decreases |text|
  {
    if text == [] then Some(acc) else ReadWord(text, allowV4, acc)
  }

  function ReadWord(text: Bytes, allowV4: bool, acc: seq<int>): Option<seq<int>>
    requires text != []
    decreases |text|
  {
    var colon := Find(text, COLON);
    var part := text[..colon];
    if part == [] || |acc| == 8 then None
    else if DOT in part then
      if !allowV4 || colon != |text| || |acc| > 6 then None
      else
        match ReadV4(part, [])
        case None => None
        case Some(b) => if |b| == 4 then Some(acc + [b[0] * 256 + b[1], b[2] * 256 + b[3]]) else None
    else if |part| > 4 then None
    else
      match ReadHex(part)
      case None => None
      case Some(v) =>
        if colon == |text| then Some(acc + [v])
        else if colon + 1 == |text| then None
        else ReadWord(text[colon + 1..], allowV4, acc + [v])
  }

  /** The words of a text without zone. */
  function ReadV6(text: Bytes): Option<seq<int>> {
    var at := FindPair(text, 0);
    if at == |text| then
      match ReadWords(text, true, [])
      case None => None
      case Some(ws) => if |ws| == 8 then Some(ws) else None
    else if FindPair(text, at + 2) < |text| then None
    else
      match (ReadWords(text[..at], false, []), ReadWords(text[at + 2..], true, []))
      case (Some(left), Some(right)) =>
        if |left| + |right| >= 8 then None else Some(left + Zeros(8 - |left| - |right|) + right)
      case _ => None
  }

  function Zeros(n: nat): (r: seq<int>)
    ensures |r| == n && forall i :: 0 <= i < n ==> r[i] == 0
  {
    if n == 0 then [] else [0] + Zeros(n - 1)
  }

  function Parse(text: Bytes): Option<Address> {
    if text == [] || |text| > 64 then None
    else if COLON !in text then
      match ReadV4(text, [])
      case None => None
      case Some(b) => Some(V4(b))
    else
      var zone := Find(text, PERCENT);
      var digits := if zone < |text| then text[zone + 1..] else [ZERO];
      if digits == [] || !Digits(digits) || Value(digits) > 0xFFFF_FFFF then None
      else
        match ReadV6(text[..zone])
        case None => None
        case Some(ws) => Some(V6(ws, Value(digits)))
  }

  // Writing.

  /** to_chars in base 16: lower case, no leading zeros. */
  function HexText(n: nat): Bytes {
    if n < 16 then [HexDigit(n)] else HexText(n / 16) + [HexDigit(n % 16)]
  }

  function Join(ws: seq<int>): Bytes
    requires AllWords(ws)
  {
    if ws == [] then [] else if |ws| == 1 then HexText(ws[0]) else HexText(ws[0]) + [COLON] + Join(ws[1..])
  }

  /** The run of zeros the text leaves out; `best` is 8 when there is none. */
  ghost predicate IsRun(ws: seq<int>, best: nat, length: nat) {
    && |ws| == 8 && best <= 8 && (best == 8 ==> length == 0)
    && (best < 8 ==> 0 < length && best + length <= 8 && forall i :: best <= i < best + length ==> ws[i] == 0)
  }

  function V6Text(ws: seq<int>, best: nat, length: nat): Bytes
    requires AllWords(ws) && best <= |ws| && best + length <= |ws|
  {
    if best == |ws| then Join(ws) else Join(ws[..best]) + [COLON, COLON] + Join(ws[best + length..])
  }

  function ZoneText(scope: nat): Bytes { if scope == 0 then [] else [PERCENT] + Decimal(scope) }

  function V4Text(b: seq<int>): Bytes
    requires |b| == 4 && forall i :: 0 <= i < 4 ==> 0 <= b[i] <= 255
  {
    Decimal(b[0]) + [DOT] + Decimal(b[1]) + [DOT] + Decimal(b[2]) + [DOT] + Decimal(b[3])
  }
}
