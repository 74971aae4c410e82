/** JSON values, the printer and the parser, as functions of the text, the position and the remaining value budget. */
module JsonText {
  import opened Common
  import opened Utf8
  import opened JsonNumber
  import opened Numerals

  /** An object is its members in key order, as the sorted tree of the source iterates them. */
  datatype Json =
    | Null
    | Bool(b: bool)
    | Int64(i: int)
    | UInt64(u: nat)
    | Double(token: Bytes)
    | Str(s: Bytes)
    | Arr(items: seq<Json>)
    | Obj(members: seq<Member>)
  datatype Member = Member(key: Bytes, value: Json)

  const MAX_DEPTH: nat := 256

  const QUOTE: Byte := 34
  const BACKSLASH: Byte := 92
  const COMMA: Byte := 44
  const SPACE: Byte := 32
  const OPEN_ARRAY: Byte := 91
  const CLOSE_ARRAY: Byte := 93
  const OPEN_OBJECT: Byte := 123
  const CLOSE_OBJECT: Byte := 125

  const NULL_TEXT: Bytes := [110, 117, 108, 108]
  const TRUE_TEXT: Bytes := [116, 114, 117, 101]
  const FALSE_TEXT: Bytes := [102, 97, 108, 115, 101]
  const SEPARATOR: Bytes := [COMMA, SPACE]
  const KEY_SEPARATOR: Bytes := [COLON, SPACE]

  // The printer.

  function EscapeByte(b: Byte): Bytes {
    if b == QUOTE then [BACKSLASH, QUOTE]
    else if b == BACKSLASH then [BACKSLASH, BACKSLASH]
    else if b == 8 then [BACKSLASH, 98]
    else if b == 12 then [BACKSLASH, 102]
    else if b == 10 then [BACKSLASH, 110]
    else if b == 13 then [BACKSLASH, 114]
    else if b == 9 then [BACKSLASH, 116]
    else if b < 32 then [BACKSLASH, 117, 48, 48, HexDigit(b as int / 16), HexDigit(b as int % 16)]
    else [b]
  }

  function Escape(s: Bytes): Bytes { if s == [] then [] else EscapeByte(s[0]) + Escape(s[1..]) }

  function Quoted(s: Bytes): Bytes { [QUOTE] + Escape(s) + [QUOTE] }

  /** The text of a value, without the checks of the printer. */
  function Render(v: Json): Bytes {
    match v
    case Null => NULL_TEXT
    case Bool(b) => if b then TRUE_TEXT else FALSE_TEXT
    case Int64(i) => if i < 0 then [MINUS] + Decimal(-i) else Decimal(i)
    case UInt64(u) => Decimal(u)
    case Double(token) => token
    case Str(s) => Quoted(s)
    case Arr(items) => [OPEN_ARRAY] + RenderItems(items) + [CLOSE_ARRAY]
    case Obj(members) => [OPEN_OBJECT] + RenderMembers(members) + [CLOSE_OBJECT]
  }

  function RenderItems(items: seq<Json>): Bytes {
    if items == [] then []
    else if |items| == 1 then Render(items[0])
    else Render(items[0]) + SEPARATOR + RenderItems(items[1..])
  }

  function RenderMember(m: Member): Bytes { Quoted(m.key) + KEY_SEPARATOR + Render(m.value) }

  function RenderMembers(members: seq<Member>): Bytes {
    if members == [] then []
    else if |members| == 1 then RenderMember(members[0])
    else RenderMember(members[0]) + SEPARATOR + RenderMembers(members[1..])
  }

  /** DumpValue: the text, or the first error on the way. */
  function Dump(v: Json, depth: nat): Result<Bytes>
    decreases v
  {
    if depth > MAX_DEPTH then Failure(InvalidArgument)
    else match v
      case Str(s) => if Decode(s).Some? then Success(Quoted(s)) else Failure(InvalidArgument)
      case Arr(items) =>
        (match DumpItems(items, depth + 1)
         case Success(t) => Success([OPEN_ARRAY] + t + [CLOSE_ARRAY])
         case Failure(e) => Failure(e))
      case Obj(members) =>
        if exists i :: 0 <= i < |members| && Decode(members[i].key).None? then Failure(InvalidArgument)
        else (match DumpMembers(members, depth + 1)
              case Success(t) => Success([OPEN_OBJECT] + t + [CLOSE_OBJECT])
              case Failure(e) => Failure(e))
      case _ => Success(Render(v))
  }

  function DumpItems(items: seq<Json>, depth: nat): Result<Bytes>
    decreases items
  {
    if items == [] then Success([])
    else match Dump(items[0], depth)
      case Failure(e) => Failure(e)
      case Success(t) =>
        if |items| == 1 then Success(t)
        else match DumpItems(items[1..], depth)
          case Failure(e) => Failure(e)
          case Success(rest) => Success(t + SEPARATOR + rest)
  }

  function DumpMembers(members: seq<Member>, depth: nat): Result<Bytes>
    decreases members
  {
    if members == [] then Success([])
    else match Dump(members[0].value, depth)
      case Failure(e) => Failure(e)
      case Success(t) =>
        if |members| == 1 then Success(Quoted(members[0].key) + KEY_SEPARATOR + t)
        else match DumpMembers(members[1..], depth)
          case Failure(e) => Failure(e)
          case Success(rest) => Success(Quoted(members[0].key) + KEY_SEPARATOR + t + SEPARATOR + rest)
  }

  // The parser. `left` is the number of values that may still be created.

  datatype Outcome<T> = Got(value: T, pos: nat, left: nat) | Fail(error: ErrorCode)

  predicate Is(text: Bytes, pos: nat, b: Byte) { pos < |text| && text[pos] == b }
  predicate IsSpace(b: Byte) { b == 32 || b == 9 || b == 13 || b == 10 }

  function SkipSpace(text: Bytes, pos: nat): (r: nat)
    ensures pos <= r && (pos <= |text| ==> r <= |text|)
    decreases |text| - pos
  {
    if pos < |text| && IsSpace(text[pos]) then SkipSpace(text, pos + 1) else pos
  }

  predicate HasLiteral(text: Bytes, pos: nat, word: Bytes) { pos + |word| <= |text| && text[pos..pos + |word|] == word }

  function ParseLiteral(text: Bytes, pos: nat, left: nat, word: Bytes, v: Json): Outcome<Json> {
    if HasLiteral(text, pos, word) then Got(v, pos + |word|, left) else Fail(InvalidFormat)
  }

  /** `n` hexadecimal digits, most significant first. */
  function Hex(text: Bytes, pos: nat, n: nat): (r: Option<int>)
    ensures r.Some? ==> 0 <= r.value && pos + n <= |text|
  {
    if n == 0 then (if pos <= |text| then Some(0) else None)
    else if pos + n > |text| then None
    else
      var high, low := Hex(text, pos, n - 1), HexValue(text[pos + n - 1]);
      if high.Some? && low.Some? then Some(high.value * 16 + low.value) else None
  }

  function Hex4(text: Bytes, pos: nat): (r: Option<int>)
    ensures r.Some? ==> 0 <= r.value <= 0xFFFF && pos + 4 <= |text|
  {
    HexBelow(text, pos, 1);
    HexBelow(text, pos, 2);
    HexBelow(text, pos, 3);
    HexBelow(text, pos, 4);
    Hex(text, pos, 4)
  }

  /** One more digit extends the range sixteenfold. */
  lemma HexBelow(text: Bytes, pos: nat, n: nat)
    requires 1 <= n
    ensures Hex(text, pos, n).Some? ==>
      Hex(text, pos, n - 1).Some? && Hex(text, pos, n).value <= Hex(text, pos, n - 1).value * 16 + 15
    ensures n == 1 && Hex(text, pos, 1).Some? ==> Hex(text, pos, 1).value <= 15
  {
  }

  function SimpleEscape(b: Byte): Option<Byte> {
    if b == QUOTE || b == BACKSLASH || b == 47 then Some(b)
    else if b == 98 then Some(8)
    else if b == 102 then Some(12)
    else if b == 110 then Some(10)
    else if b == 114 then Some(13)
    else if b == 116 then Some(9)
    else None
  }

  /** The code point of an escape whose digits start at `pos`, and where it ends. */
  function UnicodeEscape(text: Bytes, pos: nat): (r: Option<(int, nat)>)
    ensures r.Some? ==> IsScalar(r.value.0) && pos < r.value.1 <= |text|
  {
    match Hex4(text, pos)
    case None => None
    case Some(high) =>
      if 0xD800 <= high <= 0xDBFF then
        if !Is(text, pos + 4, BACKSLASH) || !Is(text, pos + 5, 117) then None
        else (match Hex4(text, pos + 6)
              case None => None
              case Some(low) =>
                if 0xDC00 <= low <= 0xDFFF then Some((0x10000 + (high - 0xD800) * 1024 + (low - 0xDC00), pos + 10)) else None)
      else if 0xDC00 <= high <= 0xDFFF then None
      else Some((high, pos + 4))
  }

  /** The rest of a string after its opening quote. */
  function ParseChars(text: Bytes, pos: nat, acc: Bytes): (r: Option<(Bytes, nat)>)
    ensures r.Some? ==> pos < r.value.1 <= |text|
    decreases |text| - pos
  {
    if pos >= |text| then None
    else if text[pos] == QUOTE then Some((acc, pos + 1))
    else if text[pos] < 32 then None
    else if text[pos] != BACKSLASH then ParseChars(text, pos + 1, acc + [text[pos]])
    else if pos + 1 >= |text| then None
    else if SimpleEscape(text[pos + 1]).Some? then ParseChars(text, pos + 2, acc + [SimpleEscape(text[pos + 1]).value])
    else if text[pos + 1] != 117 then None
    else match UnicodeEscape(text, pos + 2)
      case None => None
      case Some((cp, next)) => ParseChars(text, next, acc + Encode(cp))
  }

  function ParseString(text: Bytes, pos: nat): (r: Option<(Bytes, nat)>)
    ensures r.Some? ==> pos < r.value.1 <= |text|
  {
    if Is(text, pos, QUOTE) then ParseChars(text, pos + 1, []) else None
  }

  function DigitsEnd(text: Bytes, pos: nat): (r: nat)
    ensures pos <= r && (pos <= |text| ==> r <= |text|) && (pos < |text| && IsDigit(text[pos]) ==> pos < r)
    ensures forall i :: pos <= i < r ==> i < |text| && IsDigit(text[i])
    ensures r < |text| ==> !IsDigit(text[r])
    decreases |text| - pos
  {
    if pos < |text| && IsDigit(text[pos]) then DigitsEnd(text, pos + 1) else pos
  }

  function FractionEnd(text: Bytes, pos: nat): (r: Option<nat>)
    ensures r.Some? && pos <= |text| ==> pos <= r.value <= |text|
  {
    if !Is(text, pos, DOT) then Some(pos)
    else if pos + 1 < |text| && IsDigit(text[pos + 1]) then Some(DigitsEnd(text, pos + 1)) else None
  }

  function ExponentEnd(text: Bytes, pos: nat): (r: Option<nat>)
    ensures r.Some? && pos <= |text| ==> pos <= r.value <= |text|
  {
    if !Is(text, pos, LOWER_E) && !Is(text, pos, UPPER_E) then Some(pos)
    else
      var p := if Is(text, pos + 1, PLUS) || Is(text, pos + 1, MINUS) then pos + 2 else pos + 1;
      if p < |text| && IsDigit(text[p]) then Some(DigitsEnd(text, p)) else None
  }

  /** The end of the integer part: a lone zero, or digits that do not start with zero. */
  function WholeEnd(text: Bytes, pos: nat): (r: Option<nat>)
    ensures r.Some? ==> pos < r.value <= |text| && forall i :: pos <= i < r.value ==> IsDigit(text[i])
  {
    if pos >= |text| || !IsDigit(text[pos]) then None
    else if text[pos] != ZERO then Some(DigitsEnd(text, pos))
    else if pos + 1 < |text| && IsDigit(text[pos + 1]) then None else Some(pos + 1)
  }

  lemma TokenDigits(text: Bytes, pos: nat, end: nat)
    requires pos < |text| && (if text[pos] == MINUS then pos + 1 else pos) < end <= |text|
    requires forall i :: (if text[pos] == MINUS then pos + 1 else pos) <= i < end ==> IsDigit(text[i])
    ensures var token := text[pos..end]; token != [] && Digits(if token[0] == MINUS then token[1..] else token)
  {
  }

  /**
    The integer a token without point or exponent denotes, when 64 bits hold it. Minus zero is left to the double path.
   */
  function Integer(token: Bytes): Option<Json>
    requires token != [] && Digits(if token[0] == MINUS then token[1..] else token)
  {
    if token[0] == MINUS then
      if token == [MINUS, ZERO] then Some(Double(token))
      else if Value(token[1..]) <= 0x8000_0000_0000_0000 then Some(Int64(0 - Value(token[1..]))) else None
    else if Value(token) <= 0xFFFF_FFFF_FFFF_FFFF then Some(UInt64(Value(token))) else None
  }

  function ParseNumber(text: Bytes, pos: nat, left: nat): (r: Outcome<Json>)
    requires pos < |text|
    ensures r.Got? ==> pos < r.pos <= |text|
  {
    var start := if text[pos] == MINUS then pos + 1 else pos;
    match WholeEnd(text, start)
    case None => Fail(InvalidFormat)
    case Some(p1) =>
      match FractionEnd(text, p1)
      case None => Fail(InvalidFormat)
      case Some(p2) =>
        match ExponentEnd(text, p2)
        case None => Fail(InvalidFormat)
        case Some(p3) =>
          if p3 > p1 then Got(Double(text[pos..p3]), p3, left)
          else
            TokenDigits(text, pos, p3);
            (match Integer(text[pos..p3])
             case Some(v) => Got(v, p3, left)
             case None => Fail(InvalidFormat))
  }

  predicate Less(a: Bytes, b: Bytes) {
    b != [] && (a == [] || a[0] < b[0] || (a[0] == b[0] && Less(a[1..], b[1..])))
  }

  /** Insertion into the ordered members; a key that is there already is refused. */
  function Insert(members: seq<Member>, m: Member): Option<seq<Member>> {
    if members == [] then Some([m])
    else if members[0].key == m.key then None
    else if Less(m.key, members[0].key) then Some([m] + members)
    else match Insert(members[1..], m)
      case None => None
      case Some(rest) => Some([members[0]] + rest)
  }

  function ParseScalar(text: Bytes, pos: nat, left: nat): (r: Outcome<Json>)
    requires pos < |text|
    ensures r.Got? ==> pos < r.pos <= |text|
  {
    if text[pos] == 110 then ParseLiteral(text, pos, left, NULL_TEXT, Null)
    else if text[pos] == 116 then ParseLiteral(text, pos, left, TRUE_TEXT, Bool(true))
    else if text[pos] == 102 then ParseLiteral(text, pos, left, FALSE_TEXT, Bool(false))
    else if text[pos] == QUOTE then
      match ParseString(text, pos)
      case None => Fail(InvalidFormat)
      case Some((s, next)) => Got(Str(s), next, left)
    else if text[pos] == MINUS || IsDigit(text[pos]) then ParseNumber(text, pos, left)
    else Fail(InvalidFormat)
  }

  function ParseValue(text: Bytes, pos: nat, left: nat, depth: nat): (r: Outcome<Json>)
    ensures r.Got? ==> pos < r.pos <= |text|
    decreases |text| - pos, 1
  {
    if depth > MAX_DEPTH || pos >= |text| then Fail(InvalidFormat)
    else if left == 0 then Fail(TooLarge)
    else ParseKind(text, pos, left - 1, depth)
  }

  /** The first byte decides what kind of value follows. */
  function ParseKind(text: Bytes, pos: nat, left: nat, depth: nat): (r: Outcome<Json>)
    requires pos < |text|
    ensures r.Got? ==> pos < r.pos <= |text|
    decreases |text| - pos, 0
  {
    if text[pos] == OPEN_ARRAY then ParseArray(text, pos + 1, left, depth + 1)
    else if text[pos] == OPEN_OBJECT then ParseObject(text, pos + 1, left, depth + 1)
    else ParseScalar(text, pos, left)
  }

  /** Behind the opening bracket. */
  function ParseArray(text: Bytes, pos: nat, left: nat, depth: nat): (r: Outcome<Json>)
    ensures r.Got? ==> pos < r.pos <= |text|
    decreases |text| - pos, 3
  {
    var p := SkipSpace(text, pos);
    if Is(text, p, CLOSE_ARRAY) then Got(Arr([]), p + 1, left) else ParseItems(text, p, left, depth, [])
  }

  function ParseObject(text: Bytes, pos: nat, left: nat, depth: nat): (r: Outcome<Json>)
    ensures r.Got? ==> pos < r.pos <= |text|
    decreases |text| - pos, 3
  {
    var p := SkipSpace(text, pos);
    if Is(text, p, CLOSE_OBJECT) then Got(Obj([]), p + 1, left) else ParseMembers(text, p, left, depth, [])
  }

  function ParseItems(text: Bytes, pos: nat, left: nat, depth: nat, acc: seq<Json>): (r: Outcome<Json>)
    ensures r.Got? ==> pos < r.pos <= |text|
    decreases |text| - pos, 2
  {
    match ParseValue(text, pos, left, depth)
    case Fail(e) => Fail(e)
    case Got(v, next, left2) => AfterItem(text, next, left2, depth, acc + [v])
  }

  /** Behind an element: the bracket, or a comma and the next element. */
  function AfterItem(text: Bytes, pos: nat, left: nat, depth: nat, acc: seq<Json>): (r: Outcome<Json>)
    ensures r.Got? ==> pos < r.pos <= |text|
    decreases |text| - pos, 2
  {
    var p := SkipSpace(text, pos);
    if Is(text, p, CLOSE_ARRAY) then Got(Arr(acc), p + 1, left)
    else if Is(text, p, COMMA) then ParseItems(text, SkipSpace(text, p + 1), left, depth, acc)
    else Fail(InvalidFormat)
  }

  function ParseMembers(text: Bytes, pos: nat, left: nat, depth: nat, acc: seq<Member>): (r: Outcome<Json>)
    ensures r.Got? ==> pos < r.pos <= |text|
    decreases |text| - pos, 2
  {
    match ParseString(text, pos)
    case None => Fail(InvalidFormat)
    case Some((key, next)) =>
      var p := SkipSpace(text, next);
      if Is(text, p, COLON) then ParseMember(text, SkipSpace(text, p + 1), left, depth, acc, key)
      else Fail(InvalidFormat)
  }

  /** Behind the colon: the value of `key`, which must be new. */
  function ParseMember(text: Bytes, pos: nat, left: nat, depth: nat, acc: seq<Member>, key: Bytes): (r: Outcome<Json>)
    ensures r.Got? ==> pos < r.pos <= |text|
    decreases |text| - pos, 2
  {
    match ParseValue(text, pos, left, depth)
    case Fail(e) => Fail(e)
    case Got(v, next, left2) =>
      match Insert(acc, Member(key, v))
      case None => Fail(InvalidFormat)
      case Some(acc2) => AfterMember(text, next, left2, depth, acc2)
  }

  function AfterMember(text: Bytes, pos: nat, left: nat, depth: nat, acc: seq<Member>): (r: Outcome<Json>)
    ensures r.Got? ==> pos < r.pos <= |text|
    decreases |text| - pos, 2
  {
    var p := SkipSpace(text, pos);
    if Is(text, p, CLOSE_OBJECT) then Got(Obj(acc), p + 1, left)
    else if Is(text, p, COMMA) then ParseMembers(text, SkipSpace(text, p + 1), left, depth, acc)
    else Fail(InvalidFormat)
  }

  function AfterMark(text: Bytes): nat {
    if |text| >= 3 && text[0] == 0xEF && text[1] == 0xBB && text[2] == 0xBF then 3 else 0
  }

  function ParseDocument(text: Bytes, maxValues: nat): Outcome<Json> {
    if Decode(text).None? then Fail(InvalidFormat)
    else
      match ParseValue(text, SkipSpace(text, AfterMark(text)), maxValues, 0)
      case Fail(e) => Fail(e)
      case Got(v, pos, left) => if SkipSpace(text, pos) == |text| then Got(v, |text|, left) else Fail(InvalidFormat)
  }
}
