/**
The grammar of RFC 8259, written from its derivations: a `Spelling` is one way of writing a value, with its
white space, its escapes and its number tokens.  `Spell` is the text of a spelling and `Means` the value it denotes.
*/
module JsonGrammar {
  import opened Common
  import opened Utf8
  import opened JsonNumber
  import opened Numerals
  import opened JsonText

  // White space, section 2.

  predicate Blank(s: Bytes) { forall i :: 0 <= i < |s| ==> s[i] in {0x20, 0x09, 0x0A, 0x0D} }

  // Strings, section 7.

  /** One character of a string: itself, a two-character escape, or the escape of a code point. */
  datatype Char =
    | Raw(b: Byte)
    | Named(letter: Byte, b: Byte)
    | Coded(cp: int, upper: seq<bool>)            // `upper` tells which hexadecimal digits are capitals

  const NAMES: set<(Byte, Byte)> :=
    {(0x22, 0x22), (0x5C, 0x5C), (0x2F, 0x2F), (0x62, 0x08), (0x66, 0x0C), (0x6E, 0x0A), (0x72, 0x0D), (0x74, 0x09)}

  predicate GoodChar(c: Char) {
    match c
    case Raw(b) => b >= 0x20 && b != 0x22 && b != 0x5C
    case Named(letter, b) => (letter, b) in NAMES
    case Coded(cp, upper) => IsScalar(cp) && |upper| == if cp < 0x10000 then 4 else 8
  }

  /** Four hexadecimal digits behind a backslash and a `u`. */
  function Group(n: int, upper: seq<bool>): (r: Bytes)
    requires 0 <= n <= 0xFFFF && |upper| == 4
    ensures |r| == 6
  {
    [0x5C, 0x75, HexChar(n / 4096, upper[0]), HexChar(n / 256 % 16, upper[1]), HexChar(n / 16 % 16, upper[2]),
     HexChar(n % 16, upper[3])]
  }

  /** Below U+10000 one group, from there on the two halves of the UTF-16 surrogate pair. */
  function CodedText(cp: int, upper: seq<bool>): Bytes
    requires GoodChar(Coded(cp, upper))
  {
    if cp < 0x10000 then Group(cp, upper)
    else Group(0xD800 + (cp - 0x10000) / 0x400, upper[..4]) + Group(0xDC00 + (cp - 0x10000) % 0x400, upper[4..])
  }

  function CharText(c: Char): Bytes
    requires GoodChar(c)
  {
    match c
    case Raw(b) => [b]
    case Named(letter, _) => [0x5C, letter]
    case Coded(cp, upper) => CodedText(cp, upper)
  }

  function CharBytes(c: Char): Bytes
    requires GoodChar(c)
  {
    if c.Coded? then Encode(c.cp) else [c.b]
  }

  predicate GoodChars(cs: seq<Char>) { forall i :: 0 <= i < |cs| ==> GoodChar(cs[i]) }

  function CharsText(cs: seq<Char>): Bytes
    requires GoodChars(cs)
  {
    if cs == [] then [] else CharText(cs[0]) + CharsText(cs[1..])
  }

  function CharsBytes(cs: seq<Char>): Bytes
    requires GoodChars(cs)
  {
    if cs == [] then [] else CharBytes(cs[0]) + CharsBytes(cs[1..])
  }

  function StringText(cs: seq<Char>): Bytes
    requires GoodChars(cs)
  {
    [0x22] + CharsText(cs) + [0x22]
  }

  // Numbers, section 6.

  /** `sign` is empty, a plus or a minus. */
  datatype Power = Power(mark: Byte, sign: Bytes, digits: Bytes)
  datatype Token = Token(minus: bool, whole: Bytes, fraction: Option<Bytes>, power: Option<Power>)

  predicate Numeral(s: Bytes) { s != [] && Digits(s) }

  predicate GoodToken(t: Token) {
    && Numeral(t.whole) && (t.whole[0] == 0x30 ==> |t.whole| == 1)
    && (t.fraction.Some? ==> Numeral(t.fraction.value))
    && (t.power.Some? ==>
          && t.power.value.mark in {0x65, 0x45} && t.power.value.sign in {[], [0x2B], [0x2D]}
          && Numeral(t.power.value.digits))
  }

  function FractionText(f: Option<Bytes>): Bytes { if f.None? then [] else [0x2E] + f.value }
  function PowerText(p: Option<Power>): Bytes {
    if p.None? then [] else [p.value.mark] + p.value.sign + p.value.digits
  }
  function WholeText(t: Token): Bytes { (if t.minus then [0x2D] else []) + t.whole }
  function TokenText(t: Token): Bytes { WholeText(t) + (FractionText(t.fraction) + PowerText(t.power)) }

  /** An integer when 64 bits hold it; with a fraction, an exponent or as minus zero, a double. */
  function TokenValue(t: Token): Option<Json>
    requires GoodToken(t)
  {
    if t.fraction.Some? || t.power.Some? || (t.minus && t.whole == [0x30]) then Some(Double(TokenText(t)))
    else if t.minus then (if Value(t.whole) <= 0x8000_0000_0000_0000 then Some(Int64(0 - Value(t.whole))) else None)
    else if Value(t.whole) <= 0xFFFF_FFFF_FFFF_FFFF then Some(UInt64(Value(t.whole))) else None
  }

  // Values, sections 3 to 5.

  datatype Spelling =
    | Word(w: Json)
    | Num(t: Token)
    | Text(cs: seq<Char>)
    | List(blank: Bytes, items: seq<Item>)        // `blank` is what an empty array holds
    | Table(blank: Bytes, fields: seq<Field>)
  datatype Item = Item(before: Bytes, value: Spelling, after: Bytes)
  datatype Field = Field(before: Bytes, key: seq<Char>, after: Bytes, item: Item)

  predicate Good(sp: Spelling) {
    match sp
    case Word(w) => w.Null? || w.Bool?
    case Num(t) => GoodToken(t)
    case Text(cs) => GoodChars(cs)
    case List(blank, items) => Blank(blank) && forall i :: 0 <= i < |items| ==> GoodItem(items[i])
    case Table(blank, fields) => Blank(blank) && forall i :: 0 <= i < |fields| ==> GoodField(fields[i])
  }
  predicate GoodItem(x: Item) { Blank(x.before) && Good(x.value) && Blank(x.after) }
  predicate GoodField(x: Field) { Blank(x.before) && GoodChars(x.key) && Blank(x.after) && GoodItem(x.item) }

  predicate GoodItems(items: seq<Item>) { forall i :: 0 <= i < |items| ==> GoodItem(items[i]) }
  predicate GoodFields(fields: seq<Field>) { forall i :: 0 <= i < |fields| ==> GoodField(fields[i]) }

  /** The three literal names. */
  function WordText(w: Json): Bytes {
    if w.Null? then [0x6E, 0x75, 0x6C, 0x6C]
    else if w == Bool(true) then [0x74, 0x72, 0x75, 0x65] else [0x66, 0x61, 0x6C, 0x73, 0x65]
  }

  function Spell(sp: Spelling): Bytes
    requires Good(sp)
  {
    match sp
    case Word(w) => WordText(w)
    case Num(t) => TokenText(t)
    case Text(cs) => StringText(cs)
    case List(blank, items) => [0x5B] + (if items == [] then blank else SpellItems(items)) + [0x5D]
    case Table(blank, fields) => [0x7B] + (if fields == [] then blank else SpellFields(fields)) + [0x7D]
  }

  function SpellItem(x: Item): Bytes
    requires GoodItem(x)
  {
    x.before + (Spell(x.value) + x.after)
  }

  function SpellItems(items: seq<Item>): Bytes
    requires GoodItems(items)
  {
    if items == [] then []
    else if |items| == 1 then SpellItem(items[0])
    else SpellItem(items[0]) + ([0x2C] + SpellItems(items[1..]))
  }

  function SpellField(x: Field): Bytes
    requires GoodField(x)
  {
    x.before + (StringText(x.key) + (x.after + ([0x3A] + SpellItem(x.item))))
  }

  function SpellFields(fields: seq<Field>): Bytes
    requires GoodFields(fields)
  {
    if fields == [] then []
    else if |fields| == 1 then SpellField(fields[0])
    else SpellField(fields[0]) + ([0x2C] + SpellFields(fields[1..]))
  }

  /** The value a spelling denotes: none when an integer is out of range or an object repeats a key. */
  function Means(sp: Spelling): Option<Json>
    requires Good(sp)
  {
    match sp
    case Word(w) => Some(w)
    case Num(t) => TokenValue(t)
    case Text(cs) => Some(Str(CharsBytes(cs)))
    case List(_, items) => (match MeansItems(items) case None => None case Some(vs) => Some(Arr(vs)))
    case Table(_, fields) => (match MeansFields(fields, []) case None => None case Some(ms) => Some(Obj(ms)))
  }

  function MeansItems(items: seq<Item>): Option<seq<Json>>
    requires GoodItems(items)
  {
    if items == [] then Some([])
    else match Means(items[0].value)
      case None => None
      case Some(v) => match MeansItems(items[1..]) case None => None case Some(vs) => Some([v] + vs)
  }

  /** The members in key order, with those of `fields` put among `acc`. */
  function MeansFields(fields: seq<Field>, acc: seq<Member>): Option<seq<Member>>
    requires GoodFields(fields)
  {
    if fields == [] then Some(acc)
    else
      assert GoodField(fields[0]) && GoodItem(fields[0].item);
      match Means(fields[0].item.value)
      case None => None
      case Some(v) =>
        match Insert(acc, Member(CharsBytes(fields[0].key), v))
        case None => None
        case Some(acc2) => MeansFields(fields[1..], acc2)
  }

  // Measures.

  function Max(a: nat, b: nat): nat { if a < b then b else a }

  /** How many levels lie below a value. */
  function Levels(sp: Spelling): nat {
    match sp
    case List(_, items) => if items == [] then 0 else 1 + ItemsLevels(items)
    case Table(_, fields) => if fields == [] then 0 else 1 + FieldsLevels(fields)
    case _ => 0
  }
  function ItemsLevels(items: seq<Item>): nat {
    if items == [] then 0 else Max(Levels(items[0].value), ItemsLevels(items[1..]))
  }
  function FieldsLevels(fields: seq<Field>): nat {
    if fields == [] then 0 else Max(Levels(fields[0].item.value), FieldsLevels(fields[1..]))
  }

  /** The number of values, the outermost included. */
  function Values(sp: Spelling): nat {
    match sp
    case List(_, items) => 1 + ItemsValues(items)
    case Table(_, fields) => 1 + FieldsValues(fields)
    case _ => 1
  }
  function ItemsValues(items: seq<Item>): nat {
    if items == [] then 0 else Values(items[0].value) + ItemsValues(items[1..])
  }
  function FieldsValues(fields: seq<Field>): nat {
    if fields == [] then 0 else Values(fields[0].item.value) + FieldsValues(fields[1..])
  }

  /** A document: an optional byte order mark and one value between white space. */
  datatype Document = Document(mark: bool, item: Item)

  const MARK: Bytes := [0xEF, 0xBB, 0xBF]

  predicate GoodDocument(d: Document) { GoodItem(d.item) }

  function DocumentText(d: Document): Bytes
    requires GoodDocument(d)
  {
    (if d.mark then MARK else []) + SpellItem(d.item)
  }
}
