/** The parser reads every spelling of the grammar as the value it denotes, within both limits. */
module JsonReading {
  import opened Common
  import opened Utf8
  import opened JsonNumber
  import opened Numerals
  import opened JsonText
  import opened JsonGrammar

  // Text at a position.

  ghost predicate At(text: Bytes, pos: nat, s: Bytes) {
    pos + |s| <= |text| && forall i :: 0 <= i < |s| ==> s[i] == text[pos + i]
  }

  lemma AtSplit(text: Bytes, pos: nat, a: Bytes, b: Bytes)
    requires At(text, pos, a + b)
    ensures At(text, pos, a) && At(text, pos + |a|, b)
  {
    var s := a + b;
    forall i | 0 <= i < |a| ensures a[i] == text[pos + i] { assert s[i] == a[i]; }
    forall i | 0 <= i < |b| ensures b[i] == text[pos + |a| + i] { assert s[|a| + i] == b[i]; }
  }

  lemma AtJoin(text: Bytes, pos: nat, a: Bytes, b: Bytes)
    requires At(text, pos, a) && At(text, pos + |a|, b)
    ensures At(text, pos, a + b)
  {
    var s := a + b;
    forall i | 0 <= i < |s| ensures s[i] == text[pos + i] {
      if i < |a| { assert s[i] == a[i]; } else { assert s[i] == b[i - |a|]; }
    }
  }

  /** Text at a position, split where the pieces meet. */
  lemma AtSplit3(text: Bytes, pos: nat, a: Bytes, b: Bytes, c: Bytes)
    requires At(text, pos, a + b + c)
    ensures At(text, pos, a) && At(text, pos + |a|, b) && At(text, pos + |a| + |b|, c) && At(text, pos + |a|, b + c)
  {
    AtSplit(text, pos, a + b, c);
    AtSplit(text, pos, a, b);
    AtJoin(text, pos + |a|, b, c);
  }

  lemma AtByte(text: Bytes, pos: nat, s: Bytes, i: nat)
    requires At(text, pos, s) && i < |s|
    ensures text[pos + i] == s[i]
  {
  }

  lemma AtSlice(text: Bytes, pos: nat, s: Bytes)
    requires At(text, pos, s)
    ensures text[pos..pos + |s|] == s
  {
  }

  lemma ByteAt(text: Bytes, pos: nat, b: Byte)
    requires At(text, pos, [b])
    ensures Is(text, pos, b)
  {
    AtByte(text, pos, [b], 0);
  }

  lemma BracketsAt(text: Bytes, pos: nat, open: Byte, body: Bytes, close: Byte)
    requires At(text, pos, [open] + body + [close])
    ensures Is(text, pos, open) && At(text, pos + 1, body) && Is(text, pos + 1 + |body|, close)
  {
    AtSplit3(text, pos, [open], body, [close]);
    ByteAt(text, pos, open);
    ByteAt(text, pos + 1 + |body|, close);
  }

  // White space.

  lemma {:induction false} BlankSkipped(text: Bytes, pos: nat, s: Bytes)
    requires At(text, pos, s) && Blank(s) && (pos + |s| < |text| ==> !IsSpace(text[pos + |s|]))
    ensures SkipSpace(text, pos) == pos + |s|
    decreases |s|
  {
    if s != [] {
      AtByte(text, pos, s, 0);
      assert s == [s[0]] + s[1..];
      AtSplit(text, pos, [s[0]], s[1..]);
      BlankSkipped(text, pos + 1, s[1..]);
    }
  }

  // Strings.

  /** Four hexadecimal digits, of either case, are read as their number. */
  lemma GroupRead(n: int, upper: seq<bool>, text: Bytes, pos: nat)
    requires 0 <= n <= 0xFFFF && |upper| == 4 && At(text, pos, Group(n, upper))
    ensures Is(text, pos, BACKSLASH) && Is(text, pos + 1, 117) && Hex4(text, pos + 2) == Some(n)
  {
    var s := Group(n, upper);
    AtByte(text, pos, s, 0);
    AtByte(text, pos, s, 1);
    AtByte(text, pos, s, 2);
    AtByte(text, pos, s, 3);
    AtByte(text, pos, s, 4);
    AtByte(text, pos, s, 5);
    HexCharValue(n / 4096, upper[0]);
    HexCharValue(n / 256 % 16, upper[1]);
    HexCharValue(n / 16 % 16, upper[2]);
    HexCharValue(n % 16, upper[3]);
    assert Hex(text, pos + 2, 1) == Some(n / 4096);
    assert Hex(text, pos + 2, 2) == Some(n / 4096 * 16 + n / 256 % 16);
    assert n / 4096 * 16 + n / 256 % 16 == n / 256;
    assert Hex(text, pos + 2, 3) == Some(n / 256 * 16 + n / 16 % 16);
    assert n / 256 * 16 + n / 16 % 16 == n / 16;
    assert Hex(text, pos + 2, 4) == Some(n / 16 * 16 + n % 16);
  }

  /**
  The escape of a code point, as section 7 of RFC 8259 builds it from the code point, is read as that code
  point: one group below U+10000, the surrogate pair of UTF-16 from there on, digits of either case.
  */
  lemma CodedRead(cp: int, upper: seq<bool>, text: Bytes, pos: nat)
    requires GoodChar(Coded(cp, upper)) && At(text, pos, CodedText(cp, upper))
    ensures Is(text, pos, BACKSLASH) && Is(text, pos + 1, 117)
    ensures UnicodeEscape(text, pos + 2) == Some((cp, pos + |CodedText(cp, upper)|))
  {
    hide At, Hex4, Group;
    if cp < 0x10000 {
      GroupRead(cp, upper, text, pos);
    } else {
      var high, low := 0xD800 + (cp - 0x10000) / 0x400, 0xDC00 + (cp - 0x10000) % 0x400;
      AtSplit(text, pos, Group(high, upper[..4]), Group(low, upper[4..]));
      GroupRead(high, upper[..4], text, pos);
      GroupRead(low, upper[4..], text, pos + 6);
    }
  }

  lemma CharRead(c: Char, text: Bytes, pos: nat, acc: Bytes)
    requires GoodChar(c) && At(text, pos, CharText(c))
    ensures ParseChars(text, pos, acc) == ParseChars(text, pos + |CharText(c)|, acc + CharBytes(c))
  {
    match c
    case Raw(b) => AtByte(text, pos, CharText(c), 0);
    case Named(letter, b) =>
      AtByte(text, pos, CharText(c), 0);
      AtByte(text, pos, CharText(c), 1);
    case Coded(cp, upper) =>
      CodedRead(cp, upper, text, pos);
      hide UnicodeEscape, CodedText;
  }

  lemma StringEnds(text: Bytes, pos: nat, acc: Bytes)
    requires At(text, pos, [QUOTE])
    ensures ParseChars(text, pos, acc) == Some((acc, pos + 1))
  {
    AtByte(text, pos, [QUOTE], 0);
  }

  lemma {:induction false} CharsRead(cs: seq<Char>, text: Bytes, pos: nat, acc: Bytes)
    requires GoodChars(cs) && At(text, pos, CharsText(cs) + [QUOTE])
    ensures ParseChars(text, pos, acc) == Some((acc + CharsBytes(cs), pos + |CharsText(cs)| + 1))
    decreases |cs|
  {
    hide ParseChars, CharText, CharBytes, At;
    if cs == [] {
      assert CharsText(cs) + [QUOTE] == [QUOTE];
      StringEnds(text, pos, acc);
      assert acc + CharsBytes(cs) == acc;
    } else {
      var head, tail := CharText(cs[0]), CharsText(cs[1..]);
      AtSplit3(text, pos, head, tail, [QUOTE]);
      CharRead(cs[0], text, pos, acc);
      CharsRead(cs[1..], text, pos + |head|, acc + CharBytes(cs[0]));
      assert acc + CharBytes(cs[0]) + CharsBytes(cs[1..]) == acc + CharsBytes(cs);
    }
  }

  /** Every spelling of a string is read as the bytes it denotes. */
  lemma StringRead(cs: seq<Char>, text: Bytes, pos: nat)
    requires GoodChars(cs) && At(text, pos, StringText(cs))
    ensures ParseString(text, pos) == Some((CharsBytes(cs), pos + |StringText(cs)|))
  {
    AtSplit3(text, pos, [QUOTE], CharsText(cs), [QUOTE]);
    AtByte(text, pos, [QUOTE], 0);
    CharsRead(cs, text, pos + 1, []);
    assert [] + CharsBytes(cs) == CharsBytes(cs);
  }

  // Numbers.

  /** Nothing that continues a number follows. */
  predicate Stop(text: Bytes, pos: nat) {
    pos == |text| || (pos < |text| && (IsSpace(text[pos]) || text[pos] in {COMMA, CLOSE_ARRAY, CLOSE_OBJECT}))
  }

  lemma {:induction false} DigitsRead(text: Bytes, pos: nat, s: Bytes)
    requires At(text, pos, s) && Digits(s) && (pos + |s| < |text| ==> !IsDigit(text[pos + |s|]))
    ensures DigitsEnd(text, pos) == pos + |s|
    decreases |s|
  {
    if s != [] {
      AtByte(text, pos, s, 0);
      assert s == [s[0]] + s[1..];
      AtSplit(text, pos, [s[0]], s[1..]);
      DigitsRead(text, pos + 1, s[1..]);
    }
  }

  /** No digit follows, and no sign of a fraction or an exponent that was not spelled. */
  predicate Clear(text: Bytes, pos: nat) { pos == |text| || (pos < |text| && !IsDigit(text[pos])) }

  lemma WholeRead(text: Bytes, pos: nat, s: Bytes)
    requires At(text, pos, s) && Numeral(s) && (s[0] == ZERO ==> |s| == 1) && Clear(text, pos + |s|)
    ensures WholeEnd(text, pos) == Some(pos + |s|)
  {
    AtByte(text, pos, s, 0);
    DigitsRead(text, pos, s);
  }

  lemma FractionRead(text: Bytes, pos: nat, f: Option<Bytes>)
    requires At(text, pos, FractionText(f)) && (f.Some? ==> Numeral(f.value)) && Clear(text, pos + |FractionText(f)|)
    requires pos + |FractionText(f)| < |text| ==> text[pos + |FractionText(f)|] != DOT
    ensures FractionEnd(text, pos) == Some(pos + |FractionText(f)|)
  {
    if f.Some? {
      AtByte(text, pos, FractionText(f), 0);
      AtSplit(text, pos, [DOT], f.value);
      AtByte(text, pos + 1, f.value, 0);
      DigitsRead(text, pos + 1, f.value);
    }
  }

  lemma PowerRead(text: Bytes, pos: nat, p: Option<Power>)
    requires At(text, pos, PowerText(p)) && Stop(text, pos + |PowerText(p)|)
    requires p.Some? ==>
      p.value.mark in {LOWER_E, UPPER_E} && p.value.sign in {[], [PLUS], [MINUS]} && Numeral(p.value.digits)
    ensures ExponentEnd(text, pos) == Some(pos + |PowerText(p)|)
  {
    if p.Some? {
      var mark, sign, digits := p.value.mark, p.value.sign, p.value.digits;
      AtSplit3(text, pos, [mark], sign, digits);
      AtByte(text, pos, [mark], 0);
      AtByte(text, pos + 1 + |sign|, digits, 0);
      if sign != [] { AtByte(text, pos + 1, sign, 0); }
      DigitsRead(text, pos + 1 + |sign|, digits);
    }
  }

  /** The parts of a token and where they meet. */
  lemma TokenParts(t: Token, text: Bytes, pos: nat)
    requires GoodToken(t) && At(text, pos, TokenText(t)) && Stop(text, pos + |TokenText(t)|)
    ensures var p0, p1 := pos + (if t.minus then 1 else 0), pos + |WholeText(t)|;
      var p2 := p1 + |FractionText(t.fraction)|;
      && pos < |text| && (text[pos] == MINUS <==> t.minus) && p1 == p0 + |t.whole| && (t.minus || IsDigit(text[pos]))
      && At(text, p0, t.whole) && At(text, p1, FractionText(t.fraction)) && At(text, p2, PowerText(t.power))
      && p2 + |PowerText(t.power)| == pos + |TokenText(t)|
      && Clear(text, p1) && Clear(text, p2) && (p2 < |text| ==> text[p2] != DOT)
  {
    var p1, p2 := pos + |WholeText(t)|, pos + |WholeText(t)| + |FractionText(t.fraction)|;
    AtSplit(text, pos, WholeText(t), FractionText(t.fraction) + PowerText(t.power));
    AtSplit(text, p1, FractionText(t.fraction), PowerText(t.power));
    AtSplit(text, pos, if t.minus then [MINUS] else [], t.whole);
    if t.minus { ByteAt(text, pos, MINUS); }
    AtByte(text, pos + (if t.minus then 1 else 0), t.whole, 0);
    if t.power.Some? { AtByte(text, p2, PowerText(t.power), 0); }
    if t.fraction.Some? { AtByte(text, p1, FractionText(t.fraction), 0); }
  }

  lemma IntegerRead(t: Token)
    requires GoodToken(t) && t.fraction.None? && t.power.None?
    ensures var s := TokenText(t);
      && s != [] && (s[0] == MINUS <==> t.minus) && Digits(if s[0] == MINUS then s[1..] else s)
      && Integer(s) == TokenValue(t)
  {
    var s := TokenText(t);
    assert s == WholeText(t);
    if t.minus { assert s[1..] == t.whole; } else { assert s == t.whole; }
  }

  lemma TokenEnds(t: Token, text: Bytes, pos: nat)
    requires GoodToken(t) && At(text, pos, TokenText(t)) && Stop(text, pos + |TokenText(t)|)
    ensures pos < |text| && (text[pos] == MINUS || IsDigit(text[pos]))
    ensures text[pos..pos + |TokenText(t)|] == TokenText(t)
    ensures var p1 := pos + |WholeText(t)|;
      var p2 := p1 + |FractionText(t.fraction)|;
      && WholeEnd(text, if text[pos] == MINUS then pos + 1 else pos) == Some(p1) && FractionEnd(text, p1) == Some(p2)
      && ExponentEnd(text, p2) == Some(pos + |TokenText(t)|)
  {
    hide At, WholeEnd, FractionEnd, ExponentEnd, TokenText, Stop, Clear, FractionText, PowerText, Numeral;
    var p1 := pos + |WholeText(t)|;
    TokenParts(t, text, pos);
    WholeRead(text, pos + (if t.minus then 1 else 0), t.whole);
    FractionRead(text, p1, t.fraction);
    PowerRead(text, p1 + |FractionText(t.fraction)|, t.power);
    AtSlice(text, pos, TokenText(t));
  }

  lemma TokenLong(t: Token)
    ensures |TokenText(t)| >= |WholeText(t)|
    ensures |TokenText(t)| == |WholeText(t)| <==> FractionText(t.fraction) == [] && PowerText(t.power) == []
  {
  }

  /** Every number token is read whole, as the number it denotes. */
  lemma NumberRead(t: Token, text: Bytes, pos: nat, left: nat)
    requires GoodToken(t) && At(text, pos, TokenText(t)) && Stop(text, pos + |TokenText(t)|)
    ensures pos < |text| && (text[pos] == MINUS || IsDigit(text[pos]))
    ensures ParseNumber(text, pos, left) ==
      match TokenValue(t) case None => Fail(InvalidFormat) case Some(v) => Got(v, pos + |TokenText(t)|, left)
  {
    hide At, Stop, WholeEnd, FractionEnd, ExponentEnd, Integer, TokenText;
    TokenEnds(t, text, pos);
    TokenLong(t);
    if t.fraction.None? && t.power.None? { IntegerRead(t); }
  }

  // Values.

  /** The outcome for a text of `count` values, `height` levels deep, that denotes `value` and ends at `end`. */
  function Want(value: Json, height: nat, count: nat, end: nat, left: nat, depth: nat): Outcome<Json> {
    if depth + height > MAX_DEPTH then Fail(InvalidFormat) else if left < count then Fail(TooLarge)
    else Got(value, end, left - count)
  }

  /** Which limit is met first is left open only where both are exceeded. */
  ghost predicate Meets(r: Outcome<Json>, value: Json, height: nat, count: nat, end: nat, left: nat, depth: nat) {
    r == Want(value, height, count, end, left, depth) || (r.Fail? && depth + height > MAX_DEPTH && left < count)
  }

  lemma WordRead(w: Json, text: Bytes, pos: nat, left: nat, depth: nat)
    requires (w.Null? || w.Bool?) && At(text, pos, WordText(w)) && depth <= MAX_DEPTH && left > 0
    ensures ParseValue(text, pos, left, depth) == Got(w, pos + |WordText(w)|, left - 1)
  {
    AtByte(text, pos, WordText(w), 0);
    AtSlice(text, pos, WordText(w));
  }

  lemma TextRead(cs: seq<Char>, text: Bytes, pos: nat, left: nat, depth: nat)
    requires GoodChars(cs) && At(text, pos, StringText(cs)) && depth <= MAX_DEPTH && left > 0
    ensures ParseValue(text, pos, left, depth) == Got(Str(CharsBytes(cs)), pos + |StringText(cs)|, left - 1)
  {
    AtByte(text, pos, StringText(cs), 0);
    StringRead(cs, text, pos);
  }

  lemma NumRead(t: Token, text: Bytes, pos: nat, left: nat, depth: nat)
    requires GoodToken(t) && At(text, pos, TokenText(t)) && Stop(text, pos + |TokenText(t)|) && depth <= MAX_DEPTH
    requires left > 0
    ensures ParseValue(text, pos, left, depth) ==
      match TokenValue(t) case None => Fail(InvalidFormat) case Some(v) => Got(v, pos + |TokenText(t)|, left - 1)
  {
    hide ParseNumber;
    NumberRead(t, text, pos, left - 1);
    assert ParseKind(text, pos, left - 1, depth) == ParseScalar(text, pos, left - 1);
  }

  /** No spelling is empty, and none starts with white space or a closing bracket. */
  lemma SpellStart(sp: Spelling)
    requires Good(sp)
    ensures var s := Spell(sp); s != [] && !IsSpace(s[0]) && s[0] != CLOSE_ARRAY && s[0] != CLOSE_OBJECT && s[0] < 0x80
  {
    match sp
    case Num(t) => assert TokenText(t)[0] == WholeText(t)[0];
    case Word(w) =>
    case Text(cs) => assert StringText(cs)[0] == QUOTE;
    case List(blank, items) => assert Spell(sp)[0] == OPEN_ARRAY;
    case Table(blank, fields) => assert Spell(sp)[0] == OPEN_OBJECT;
  }

  // Elements.

  /** An item, followed by a comma or a closing bracket: where its value lies, and what is skipped around it. */
  lemma ItemPlaces(x: Item, text: Bytes, pos: nat)
    requires GoodItem(x) && At(text, pos, SpellItem(x))
    requires var q := pos + |SpellItem(x)|; q < |text| && text[q] in {COMMA, CLOSE_ARRAY, CLOSE_OBJECT}
    ensures var p := pos + |x.before|;
      && At(text, p, Spell(x.value)) && Stop(text, p + |Spell(x.value)|)
      && SkipSpace(text, pos) == p && SkipSpace(text, p + |Spell(x.value)|) == pos + |SpellItem(x)|
  {
    hide Spell, Good;
    var p := pos + |x.before|;
    var e := p + |Spell(x.value)|;
    AtSplit(text, pos, x.before, Spell(x.value) + x.after);
    AtSplit(text, p, Spell(x.value), x.after);
    SpellStart(x.value);
    AtByte(text, p, Spell(x.value), 0);
    BlankSkipped(text, pos, x.before);
    BlankSkipped(text, e, x.after);
    if x.after != [] { AtByte(text, e, x.after, 0); }
  }

  ghost predicate ItemsMeet(items: seq<Item>, acc: seq<Json>, r: Outcome<Json>, end: nat, left: nat, depth: nat)
    requires GoodItems(items)
  {
    MeansItems(items).Some? ==>
      Meets(r, Arr(acc + MeansItems(items).value), ItemsLevels(items), ItemsValues(items), end, left, depth)
  }

  ghost predicate ValueMeets(sp: Spelling, r: Outcome<Json>, end: nat, left: nat, depth: nat)
    requires Good(sp)
  {
    Means(sp).Some? ==> Meets(r, Means(sp).value, Levels(sp), Values(sp), end, left, depth)
  }

  /** One element read, and the rest of the list. */
  lemma ItemsCompose(items: seq<Item>, acc: seq<Json>, first: Outcome<Json>, r: Outcome<Json>, end1: nat, end: nat,
      left: nat,
      depth: nat)
    requires GoodItems(items) && items != [] && GoodItem(items[0]) && GoodItems(items[1..])
    requires ValueMeets(items[0].value, first, end1, left, depth)
    requires first.Fail? ==> r == Fail(first.error)
    requires first.Got? && |items| == 1 ==> r == Got(Arr(acc + [first.value]), end, first.left)
    requires first.Got? && |items| > 1 ==> ItemsMeet(items[1..], acc + [first.value], r, end, first.left, depth)
    ensures ItemsMeet(items, acc, r, end, left, depth)
  {
    if MeansItems(items).Some? {
      var v, vs := Means(items[0].value).value, MeansItems(items[1..]).value;
      assert MeansItems(items).value == [v] + vs;
      assert acc + [v] + vs == acc + ([v] + vs);
      if |items| == 1 { assert items[1..] == [] && vs == [] && acc + ([v] + vs) == acc + [v]; }
      hide Means, Levels, Values, MeansItems;
    }
  }

  lemma ItemFirst(text: Bytes, pos: nat, left: nat, depth: nat, acc: seq<Json>)
    ensures var first, r := ParseValue(text, pos, left, depth), ParseItems(text, pos, left, depth, acc);
      && (first.Fail? ==> r == Fail(first.error))
      && (first.Got? ==> r == AfterItem(text, first.pos, first.left, depth, acc + [first.value]))
  {
  }

  lemma ItemAfter(text: Bytes, pos: nat, q: nat, left: nat, depth: nat, acc: seq<Json>)
    requires SkipSpace(text, pos) == q
    ensures Is(text, q, CLOSE_ARRAY) ==> AfterItem(text, pos, left, depth, acc) == Got(Arr(acc), q + 1, left)
    ensures Is(text, q, COMMA) ==>
      AfterItem(text, pos, left, depth, acc) == ParseItems(text, SkipSpace(text, q + 1), left, depth, acc)
  {
  }

  /** A value that was accepted fits both limits. */
  lemma Accepted(sp: Spelling, r: Outcome<Json>, end: nat, left: nat, depth: nat)
    requires Good(sp) && Means(sp).Some? && ValueMeets(sp, r, end, left, depth) && r.Got?
    ensures r.value == Means(sp).value && r.pos == end && left == r.left + Values(sp) && depth + Levels(sp) <= MAX_DEPTH
  {
  }

  /** How a list of elements is laid out. */
  lemma ItemsPlaces(items: seq<Item>, text: Bytes, pos: nat)
    requires items != [] && GoodItems(items) && At(text, pos, SpellItems(items))
    requires Is(text, pos + |SpellItems(items)|, CLOSE_ARRAY)
    ensures GoodItem(items[0]) && Good(items[0].value) && GoodItems(items[1..])
    ensures var q := pos + |SpellItem(items[0])|;
      && At(text, pos, SpellItem(items[0]))
      && (|items| == 1 ==> Is(text, q, CLOSE_ARRAY) && pos + |SpellItems(items)| == q)
      && (|items| > 1 ==>
            && Is(text, q, COMMA) && At(text, q + 1, SpellItems(items[1..]))
            && Is(text, q + 1 + |SpellItems(items[1..])|, CLOSE_ARRAY)
            && pos + |SpellItems(items)| == q + 1 + |SpellItems(items[1..])|)
  {
    hide At, SpellItem, Is;
    if |items| > 1 {
      var head, rest := SpellItem(items[0]), SpellItems(items[1..]);
      AtSplit(text, pos, head, [COMMA] + rest);
      AtSplit(text, pos + |head|, [COMMA], rest);
      ByteAt(text, pos + |head|, COMMA);
    }
  }

  lemma MeansFirst(items: seq<Item>)
    requires items != [] && GoodItems(items) && GoodItem(items[0]) && GoodItems(items[1..]) && MeansItems(items).Some?
    ensures Means(items[0].value).Some? && MeansItems(items[1..]).Some?
  {
  }

  /** Where the elements behind the first begin. */
  lemma NextItem(items: seq<Item>, text: Bytes, q: nat)
    requires |items| > 1 && GoodItems(items) && GoodItems(items[1..]) && GoodItem(items[1..][0])
    requires At(text, q + 1, SpellItems(items[1..])) && Is(text, q + 1 + |SpellItems(items[1..])|, CLOSE_ARRAY)
    ensures SkipSpace(text, q + 1) == q + 1 + |items[1..][0].before|
  {
    ItemsPlaces(items[1..], text, q + 1);
    ItemPlaces(items[1..][0], text, q + 1);
  }

  lemma {:induction false} ItemsRead(items: seq<Item>, text: Bytes, pos: nat, left: nat, depth: nat, acc: seq<Json>)
    requires items != [] && GoodItems(items) && At(text, pos, SpellItems(items))
    requires Is(text, pos + |SpellItems(items)|, CLOSE_ARRAY)
    ensures ItemsMeet(items, acc, ParseItems(text, pos + |items[0].before|, left, depth, acc), pos + |SpellItems(items)| + 1, left, depth)
    decreases items, 0
  {
    hide ParseValue, ParseItems, AfterItem, At, Is, Spell, SpellItems, SpellItem, Good, GoodItem, Means, Levels, Values,
         ItemsLevels, ItemsValues, ValueMeets, MeansItems, SkipSpace, Stop, ItemsMeet;
    ItemsPlaces(items, text, pos);
    IsAt(text, pos + |SpellItem(items[0])|);
    ItemPlaces(items[0], text, pos);
    var p, q := pos + |items[0].before|, pos + |SpellItem(items[0])|;
    var e := p + |Spell(items[0].value)|;
    var first, r := ParseValue(text, p, left, depth), ParseItems(text, p, left, depth, acc);
    if MeansItems(items).Some? {
      MeansFirst(items);
      ValueRead(items[0].value, text, p, left, depth);
      ItemFirst(text, p, left, depth, acc);
      if first.Got? {
        Accepted(items[0].value, first, e, left, depth);
        ItemAfter(text, e, q, first.left, depth, acc + [first.value]);
        if |items| > 1 {
          ItemsPlaces(items[1..], text, q + 1);
          NextItem(items, text, q);
          ItemsRead(items[1..], text, q + 1, first.left, depth, acc + [first.value]);
        }
      }
      ItemsCompose(items, acc, first, r, e, pos + |SpellItems(items)| + 1, left, depth);
    } else {
      ItemsVacuous(items, acc, r, pos + |SpellItems(items)| + 1, left, depth);
    }
  }

  lemma IsAt(text: Bytes, q: nat)
    ensures Is(text, q, COMMA) || Is(text, q, CLOSE_ARRAY) || Is(text, q, CLOSE_OBJECT) ==>
      q < |text| && text[q] in {COMMA, CLOSE_ARRAY, CLOSE_OBJECT}
  {
  }

  lemma ItemsVacuous(items: seq<Item>, acc: seq<Json>, r: Outcome<Json>, end: nat, left: nat, depth: nat)
    requires GoodItems(items) && MeansItems(items).None?
    ensures ItemsMeet(items, acc, r, end, left, depth)
  {
  }

  lemma ListOpens(text: Bytes, pos: nat, left: nat, depth: nat)
    requires Is(text, pos, OPEN_ARRAY) && depth <= MAX_DEPTH && left > 0
    ensures var p := SkipSpace(text, pos + 1);
      ParseValue(text, pos, left, depth) ==
        if Is(text, p, CLOSE_ARRAY) then Got(Arr([]), p + 1, left - 1) else ParseItems(text, p, left - 1, depth + 1, [])
  {
    assert ParseKind(text, pos, left - 1, depth) == ParseArray(text, pos + 1, left - 1, depth + 1);
  }

  lemma ListMeets(blank: Bytes, items: seq<Item>, r: Outcome<Json>, end: nat, left: nat, depth: nat)
    requires Good(List(blank, items)) && GoodItems(items) && items != [] && depth <= MAX_DEPTH && left > 0
    requires ItemsMeet(items, [], r, end, left - 1, depth + 1)
    ensures ValueMeets(List(blank, items), r, end, left, depth)
  {
    if MeansItems(items).Some? { assert [] + MeansItems(items).value == MeansItems(items).value; }
  }

  lemma EmptyListMeets(blank: Bytes, end: nat, left: nat, depth: nat)
    requires Good(List(blank, [])) && depth <= MAX_DEPTH && left > 0
    ensures ValueMeets(List(blank, []), Got(Arr([]), end, left - 1), end, left, depth)
  {
  }

  lemma ListIs(blank: Bytes, items: seq<Item>)
    requires Good(List(blank, items))
    ensures GoodItems(items) && Blank(blank)
    ensures Spell(List(blank, items)) == [OPEN_ARRAY] + (if items == [] then blank else SpellItems(items)) + [CLOSE_ARRAY]
  {
  }

  lemma CloseIsNoSpace(text: Bytes, pos: nat)
    ensures Is(text, pos, CLOSE_ARRAY) || Is(text, pos, CLOSE_OBJECT) ==> pos < |text| && !IsSpace(text[pos])
  {
  }

  /** Where a list's first element, or its closing bracket, stands. */
  lemma ListPlaces(blank: Bytes, items: seq<Item>, text: Bytes, pos: nat)
    requires Good(List(blank, items)) && At(text, pos, Spell(List(blank, items)))
    ensures GoodItems(items) && Is(text, pos, OPEN_ARRAY)
    ensures items == [] ==>
      && SkipSpace(text, pos + 1) == pos + 1 + |blank| && Is(text, pos + 1 + |blank|, CLOSE_ARRAY)
      && |Spell(List(blank, items))| == |blank| + 2
    ensures items != [] ==>
      && At(text, pos + 1, SpellItems(items)) && Is(text, pos + 1 + |SpellItems(items)|, CLOSE_ARRAY)
      && SkipSpace(text, pos + 1) == pos + 1 + |items[0].before| && !Is(text, pos + 1 + |items[0].before|, CLOSE_ARRAY)
      && |Spell(List(blank, items))| == |SpellItems(items)| + 2
  {
    hide At, Is, SpellItem, SpellItems, SkipSpace, Spell, GoodItem;
    ListIs(blank, items);
    BracketsAt(text, pos, OPEN_ARRAY, if items == [] then blank else SpellItems(items), CLOSE_ARRAY);
    CloseIsNoSpace(text, pos + 1 + |blank|);
    if items == [] {
      BlankSkipped(text, pos + 1, blank);
    } else {
      FirstPlaces(items, text, pos + 1);
    }
  }

  lemma FirstPlaces(items: seq<Item>, text: Bytes, pos: nat)
    requires items != [] && GoodItems(items) && At(text, pos, SpellItems(items))
    requires Is(text, pos + |SpellItems(items)|, CLOSE_ARRAY)
    ensures SkipSpace(text, pos) == pos + |items[0].before| && !Is(text, pos + |items[0].before|, CLOSE_ARRAY)
  {
    hide Spell, SpellItems, SpellItem, At, Good, SkipSpace;
    ItemsPlaces(items, text, pos);
    ItemPlaces(items[0], text, pos);
    SpellStart(items[0].value);
    AtByte(text, pos + |items[0].before|, Spell(items[0].value), 0);
  }

  lemma ListRead(blank: Bytes, items: seq<Item>, text: Bytes, pos: nat, left: nat, depth: nat)
    requires Good(List(blank, items)) && At(text, pos, Spell(List(blank, items))) && depth <= MAX_DEPTH && left > 0
    ensures ValueMeets(List(blank, items), ParseValue(text, pos, left, depth), pos + |Spell(List(blank, items))|, left, depth)
    decreases items, 1
  {
    hide ParseValue, ParseItems, At, Is, Spell, SpellItems, Good, GoodItem, Means, Levels, Values, ValueMeets, SkipSpace, ItemsMeet;
    ListPlaces(blank, items, text, pos);
    ListOpens(text, pos, left, depth);
    if items == [] {
      EmptyListMeets(blank, pos + |blank| + 2, left, depth);
    } else {
      ItemsRead(items, text, pos + 1, left - 1, depth + 1, []);
      ListMeets(blank, items, ParseValue(text, pos, left, depth), pos + |SpellItems(items)| + 2, left, depth);
    }
  }

  lemma ScalarRead(sp: Spelling, text: Bytes, pos: nat, left: nat, depth: nat)
    requires Good(sp) && !sp.List? && !sp.Table? && At(text, pos, Spell(sp)) && Stop(text, pos + |Spell(sp)|)
    requires depth <= MAX_DEPTH && left > 0
    ensures ValueMeets(sp, ParseValue(text, pos, left, depth), pos + |Spell(sp)|, left, depth)
  {
    hide ParseValue, TokenText, StringText;
    match sp
    case Word(w) => WordRead(w, text, pos, left, depth);
    case Num(t) => NumRead(t, text, pos, left, depth);
    case Text(cs) => TextRead(cs, text, pos, left, depth);
  }

  /** Beyond a limit nothing is read. */
  lemma LimitMet(sp: Spelling, text: Bytes, pos: nat, end: nat, left: nat, depth: nat)
    requires Good(sp) && pos < |text| && (depth > MAX_DEPTH || left == 0)
    ensures ValueMeets(sp, ParseValue(text, pos, left, depth), end, left, depth)
  {
    assert Values(sp) > 0;
  }

  lemma ValueRead(sp: Spelling, text: Bytes, pos: nat, left: nat, depth: nat)
    requires Good(sp) && At(text, pos, Spell(sp)) && Stop(text, pos + |Spell(sp)|)
    ensures ValueMeets(sp, ParseValue(text, pos, left, depth), pos + |Spell(sp)|, left, depth)
    decreases sp, 2
  {
    hide ParseValue, Spell, Good, Means, Levels, Values, ValueMeets, Stop;
    if depth > MAX_DEPTH || left == 0 {
      SpellStart(sp);
      LimitMet(sp, text, pos, pos + |Spell(sp)|, left, depth);
    } else {
      match sp
      case List(blank, items) => ListRead(blank, items, text, pos, left, depth);
      case Table(blank, fields) => TableRead(blank, fields, text, pos, left, depth);
      case _ => ScalarRead(sp, text, pos, left, depth);
    }
  }

  // Members.

  /** Where the parts of a member stand. */
  ghost predicate Placed(x: Field, text: Bytes, pos: nat, colon: nat)
    requires GoodField(x) && GoodItem(x.item) && GoodChars(x.key)
  {
    && At(text, pos, x.before) && At(text, pos + |x.before|, StringText(x.key))
    && colon == pos + |x.before| + |StringText(x.key)| + |x.after| && At(text, colon - |x.after|, x.after)
    && Is(text, colon, COLON) && At(text, colon + 1, SpellItem(x.item))
    && |SpellField(x)| == colon + 1 + |SpellItem(x.item)| - pos
  }

  lemma FieldPlaced(x: Field, text: Bytes, pos: nat) returns (colon: nat)
    requires GoodField(x) && At(text, pos, SpellField(x))
    ensures GoodItem(x.item) && GoodChars(x.key) && Placed(x, text, pos, colon)
  {
    hide At, StringText, SpellItem;
    var key, tail := StringText(x.key), [COLON] + SpellItem(x.item);
    colon := pos + |x.before| + |key| + |x.after|;
    AtSplit(text, pos, x.before, key + (x.after + tail));
    AtSplit(text, pos + |x.before|, key, x.after + tail);
    AtSplit(text, pos + |x.before| + |key|, x.after, tail);
    AtSplit(text, colon, [COLON], SpellItem(x.item));
    ByteAt(text, colon, COLON);
  }

  /** What is skipped on the way to a member's value. */
  lemma FieldSkips(x: Field, text: Bytes, pos: nat, colon: nat)
    requires GoodField(x) && GoodItem(x.item) && GoodChars(x.key) && Placed(x, text, pos, colon)
    ensures SkipSpace(text, pos) == pos + |x.before| && Is(text, pos + |x.before|, QUOTE)
    ensures SkipSpace(text, colon - |x.after|) == colon
    ensures ParseString(text, pos + |x.before|) == Some((CharsBytes(x.key), colon - |x.after|))
  {
    hide SkipSpace, ParseString, At, StringText, CharsBytes, SpellItem, SpellField;
    StringRead(x.key, text, pos + |x.before|);
    QuoteFirst(x.key, text, pos + |x.before|);
    BlankSkipped(text, colon - |x.after|, x.after);
    BlankSkipped(text, pos, x.before);
  }

  lemma QuoteFirst(cs: seq<Char>, text: Bytes, pos: nat)
    requires GoodChars(cs) && At(text, pos, StringText(cs))
    ensures Is(text, pos, QUOTE)
  {
    AtByte(text, pos, StringText(cs), 0);
  }

  lemma KeyRead(text: Bytes, pos: nat, left: nat, depth: nat, acc: seq<Member>, key: Bytes, next: nat, colon: nat)
    requires ParseString(text, pos) == Some((key, next)) && SkipSpace(text, next) == colon && Is(text, colon, COLON)
    ensures ParseMembers(text, pos, left, depth, acc) == ParseMember(text, SkipSpace(text, colon + 1), left, depth, acc, key)
  {
  }

  lemma MemberFirst(text: Bytes, pos: nat, left: nat, depth: nat, acc: seq<Member>, key: Bytes)
    ensures var first, r := ParseValue(text, pos, left, depth), ParseMember(text, pos, left, depth, acc, key);
      && (first.Fail? ==> r == Fail(first.error))
      && (first.Got? && Insert(acc, Member(key, first.value)).Some? ==>
            r == AfterMember(text, first.pos, first.left, depth, Insert(acc, Member(key, first.value)).value))
  {
  }

  lemma MemberAfter(text: Bytes, pos: nat, q: nat, left: nat, depth: nat, acc: seq<Member>)
    requires SkipSpace(text, pos) == q
    ensures Is(text, q, CLOSE_OBJECT) ==> AfterMember(text, pos, left, depth, acc) == Got(Obj(acc), q + 1, left)
    ensures Is(text, q, COMMA) ==>
      AfterMember(text, pos, left, depth, acc) == ParseMembers(text, SkipSpace(text, q + 1), left, depth, acc)
  {
  }

  lemma FieldsPlaces(fields: seq<Field>, text: Bytes, pos: nat)
    requires fields != [] && GoodFields(fields) && At(text, pos, SpellFields(fields))
    requires Is(text, pos + |SpellFields(fields)|, CLOSE_OBJECT)
    ensures GoodField(fields[0]) && GoodFields(fields[1..])
    ensures var q := pos + |SpellField(fields[0])|;
      && At(text, pos, SpellField(fields[0]))
      && (|fields| == 1 ==> Is(text, q, CLOSE_OBJECT) && pos + |SpellFields(fields)| == q)
      && (|fields| > 1 ==>
            && Is(text, q, COMMA) && At(text, q + 1, SpellFields(fields[1..]))
            && Is(text, q + 1 + |SpellFields(fields[1..])|, CLOSE_OBJECT)
            && pos + |SpellFields(fields)| == q + 1 + |SpellFields(fields[1..])|)
  {
    hide At, SpellField, Is;
    if |fields| > 1 {
      var head, rest := SpellField(fields[0]), SpellFields(fields[1..]);
      AtSplit(text, pos, head, [COMMA] + rest);
      AtSplit(text, pos + |head|, [COMMA], rest);
      ByteAt(text, pos + |head|, COMMA);
    }
  }

  ghost predicate FieldsMeet(fields: seq<Field>, acc: seq<Member>, r: Outcome<Json>, end: nat, left: nat, depth: nat)
    requires GoodFields(fields)
  {
    MeansFields(fields, acc).Some? ==>
      Meets(r, Obj(MeansFields(fields, acc).value), FieldsLevels(fields), FieldsValues(fields), end, left, depth)
  }

  lemma MeansField(fields: seq<Field>, acc: seq<Member>)
    requires fields != [] && GoodFields(fields) && MeansFields(fields, acc).Some?
    ensures GoodField(fields[0]) && GoodItem(fields[0].item) && GoodFields(fields[1..])
    ensures Means(fields[0].item.value).Some?
    ensures var m := Member(CharsBytes(fields[0].key), Means(fields[0].item.value).value);
      Insert(acc, m).Some? && MeansFields(fields, acc) == MeansFields(fields[1..], Insert(acc, m).value)
  {
  }

  /** A member before others. */
  lemma {:induction false} FieldsAdd(x: Field, rest: seq<Field>, acc: seq<Member>, acc2: seq<Member>)
    requires GoodField(x) && GoodItem(x.item) && GoodFields(rest) && GoodFields([x] + rest) && Means(x.item.value).Some?
    requires Insert(acc, Member(CharsBytes(x.key), Means(x.item.value).value)) == Some(acc2)
    ensures MeansFields([x] + rest, acc) == MeansFields(rest, acc2)
    ensures FieldsValues([x] + rest) == Values(x.item.value) + FieldsValues(rest)
    ensures FieldsLevels([x] + rest) == Max(Levels(x.item.value), FieldsLevels(rest))
  {
    hide GoodItem, Means, Levels, Values, Insert;
    assert ([x] + rest)[1..] == rest;
  }

  /** One member read and stored, and the rest of the object. */
  lemma FieldsCompose(fields: seq<Field>, acc: seq<Member>, acc2: seq<Member>, first: Outcome<Json>, r: Outcome<Json>,
      end1: nat, end: nat, left: nat, depth: nat)
    requires fields != [] && GoodFields(fields) && GoodFields(fields[1..]) && GoodItem(fields[0].item)
    requires Good(fields[0].item.value)
    requires MeansFields(fields, acc).Some? && MeansFields(fields, acc) == MeansFields(fields[1..], acc2)
    requires Means(fields[0].item.value).Some? && ValueMeets(fields[0].item.value, first, end1, left, depth)
    requires first.Fail? ==> r == Fail(first.error)
    requires first.Got? && |fields| == 1 ==> r == Got(Obj(acc2), end, first.left)
    requires first.Got? && |fields| > 1 ==> FieldsMeet(fields[1..], acc2, r, end, first.left, depth)
    ensures FieldsMeet(fields, acc, r, end, left, depth)
  {
    hide Means, Levels, Values, Good, Insert;
    if |fields| == 1 { assert fields[1..] == []; }
    hide MeansFields;
  }

  /** Up to the value of the first member. */
  lemma FieldOpens(x: Field, text: Bytes, pos: nat, left: nat, depth: nat, acc: seq<Member>) returns (p: nat)
    requires GoodField(x) && At(text, pos, SpellField(x))
    requires var q := pos + |SpellField(x)|; q < |text| && text[q] in {COMMA, CLOSE_OBJECT}
    ensures GoodItem(x.item) && Good(x.item.value) && GoodChars(x.key)
    ensures At(text, p, Spell(x.item.value)) && Stop(text, p + |Spell(x.item.value)|)
    ensures SkipSpace(text, p + |Spell(x.item.value)|) == pos + |SpellField(x)|
    ensures SkipSpace(text, pos) == pos + |x.before| && Is(text, pos + |x.before|, QUOTE)
    ensures ParseMembers(text, pos + |x.before|, left, depth, acc) == ParseMember(text, p, left, depth, acc, CharsBytes(x.key))
  {
    hide Spell, SpellItem, SpellField, Good, SkipSpace, ParseString, ParseMembers, ParseMember, StringText, At;
    var colon := FieldPlaced(x, text, pos);
    FieldSkips(x, text, pos, colon);
    ItemPlaces(x.item, text, colon + 1);
    p := colon + 1 + |x.item.before|;
    KeyRead(text, pos + |x.before|, left, depth, acc, CharsBytes(x.key), colon - |x.after|, colon);
  }

  lemma {:induction false} FieldsRead(fields: seq<Field>, text: Bytes, pos: nat, left: nat, depth: nat,
      acc: seq<Member>)
    requires fields != [] && GoodFields(fields) && At(text, pos, SpellFields(fields))
    requires Is(text, pos + |SpellFields(fields)|, CLOSE_OBJECT)
    ensures FieldsMeet(fields, acc, ParseMembers(text, pos + |fields[0].before|, left, depth, acc), pos + |SpellFields(fields)| + 1, left, depth)
    decreases fields, 0
  {
    hide ParseValue, ParseMembers, ParseMember, AfterMember, At, Is, Spell, SpellFields, SpellField, Good, GoodItem, GoodField,
         Means, Levels, Values, ValueMeets, MeansFields, SkipSpace, Stop, FieldsMeet, Insert, StringText, CharsBytes;
    if MeansFields(fields, acc).Some? {
      FieldsPlaces(fields, text, pos);
      var x, q := fields[0], pos + |SpellField(fields[0])|;
      IsAt(text, q);
      IsMember(text, q);
      MeansField(fields, acc);
      var p := FieldOpens(x, text, pos, left, depth, acc);
      var e, first := p + |Spell(x.item.value)|, ParseValue(text, p, left, depth);
      var m := Member(CharsBytes(x.key), Means(x.item.value).value);
      var acc2 := Insert(acc, m).value;
      ValueRead(x.item.value, text, p, left, depth);
      MemberFirst(text, p, left, depth, acc, CharsBytes(x.key));
      if first.Got? {
        Accepted(x.item.value, first, e, left, depth);
        MemberAfter(text, e, q, first.left, depth, acc2);
        if |fields| > 1 {
          FieldsPlaces(fields[1..], text, q + 1);
          NextField(fields[1..], text, q + 1);
          FieldsRead(fields[1..], text, q + 1, first.left, depth, acc2);
        }
      }
      FieldsCompose(fields, acc, acc2, first, ParseMembers(text, pos + |x.before|, left, depth, acc), e,
                    pos + |SpellFields(fields)| + 1, left, depth);
    } else {
      FieldsVacuous(fields, acc, ParseMembers(text, pos + |fields[0].before|, left, depth, acc), pos + |SpellFields(fields)| + 1, left, depth);
    }
  }

  lemma IsMember(text: Bytes, q: nat)
    ensures Is(text, q, COMMA) || Is(text, q, CLOSE_OBJECT) ==> q < |text| && text[q] in {COMMA, CLOSE_OBJECT}
  {
  }

  lemma FieldsVacuous(fields: seq<Field>, acc: seq<Member>, r: Outcome<Json>, end: nat, left: nat, depth: nat)
    requires GoodFields(fields) && MeansFields(fields, acc).None?
    ensures FieldsMeet(fields, acc, r, end, left, depth)
  {
  }

  lemma NextField(fields: seq<Field>, text: Bytes, pos: nat)
    requires fields != [] && GoodFields(fields) && GoodField(fields[0]) && At(text, pos, SpellField(fields[0]))
    ensures SkipSpace(text, pos) == pos + |fields[0].before| && Is(text, pos + |fields[0].before|, QUOTE)
  {
    var colon := FieldPlaced(fields[0], text, pos);
    FieldSkips(fields[0], text, pos, colon);
  }

  lemma TableOpens(text: Bytes, pos: nat, left: nat, depth: nat)
    requires Is(text, pos, OPEN_OBJECT) && depth <= MAX_DEPTH && left > 0
    ensures var p := SkipSpace(text, pos + 1);
      ParseValue(text, pos, left, depth) ==
        if Is(text, p, CLOSE_OBJECT) then Got(Obj([]), p + 1, left - 1)
        else ParseMembers(text, p, left - 1, depth + 1, [])
  {
    assert ParseKind(text, pos, left - 1, depth) == ParseObject(text, pos + 1, left - 1, depth + 1);
  }

  lemma TableMeets(blank: Bytes, fields: seq<Field>, r: Outcome<Json>, end: nat, left: nat, depth: nat)
    requires Good(Table(blank, fields)) && GoodFields(fields) && fields != [] && depth <= MAX_DEPTH && left > 0
    requires FieldsMeet(fields, [], r, end, left - 1, depth + 1)
    ensures ValueMeets(Table(blank, fields), r, end, left, depth)
  {
  }

  lemma EmptyTableMeets(blank: Bytes, end: nat, left: nat, depth: nat)
    requires Good(Table(blank, [])) && depth <= MAX_DEPTH && left > 0
    ensures ValueMeets(Table(blank, []), Got(Obj([]), end, left - 1), end, left, depth)
  {
  }

  lemma TableIs(blank: Bytes, fields: seq<Field>)
    requires Good(Table(blank, fields))
    ensures GoodFields(fields) && Blank(blank)
    ensures Spell(Table(blank, fields)) == [OPEN_OBJECT] + (if fields == [] then blank else SpellFields(fields)) + [CLOSE_OBJECT]
  {
  }

  /** Where an object's first member, or its closing bracket, stands. */
  lemma TablePlaces(blank: Bytes, fields: seq<Field>, text: Bytes, pos: nat)
    requires Good(Table(blank, fields)) && At(text, pos, Spell(Table(blank, fields)))
    ensures GoodFields(fields) && Is(text, pos, OPEN_OBJECT)
    ensures fields == [] ==>
      && SkipSpace(text, pos + 1) == pos + 1 + |blank| && Is(text, pos + 1 + |blank|, CLOSE_OBJECT)
      && |Spell(Table(blank, fields))| == |blank| + 2
    ensures fields != [] ==>
      && At(text, pos + 1, SpellFields(fields)) && Is(text, pos + 1 + |SpellFields(fields)|, CLOSE_OBJECT)
      && SkipSpace(text, pos + 1) == pos + 1 + |fields[0].before| && Is(text, pos + 1 + |fields[0].before|, QUOTE)
      && |Spell(Table(blank, fields))| == |SpellFields(fields)| + 2
  {
    hide At, Is, SpellField, SpellFields, SkipSpace, Spell, GoodField;
    TableIs(blank, fields);
    BracketsAt(text, pos, OPEN_OBJECT, if fields == [] then blank else SpellFields(fields), CLOSE_OBJECT);
    CloseIsNoSpace(text, pos + 1 + |blank|);
    if fields == [] {
      BlankSkipped(text, pos + 1, blank);
    } else {
      FieldsPlaces(fields, text, pos + 1);
      NextField(fields, text, pos + 1);
    }
  }

  lemma QuoteIsNoClose(text: Bytes, pos: nat)
    requires Is(text, pos, QUOTE)
    ensures !Is(text, pos, CLOSE_OBJECT)
  {
  }

  lemma TableRead(blank: Bytes, fields: seq<Field>, text: Bytes, pos: nat, left: nat, depth: nat)
    requires Good(Table(blank, fields)) && At(text, pos, Spell(Table(blank, fields))) && depth <= MAX_DEPTH && left > 0
    ensures ValueMeets(Table(blank, fields), ParseValue(text, pos, left, depth), pos + |Spell(Table(blank, fields))|, left, depth)
    decreases fields, 1
  {
    hide ParseValue, ParseMembers, At, Is, Spell, SpellFields, Good, GoodField, Means, Levels, Values, ValueMeets, SkipSpace, FieldsMeet;
    TablePlaces(blank, fields, text, pos);
    TableOpens(text, pos, left, depth);
    if fields == [] {
      EmptyTableMeets(blank, pos + |blank| + 2, left, depth);
    } else {
      QuoteIsNoClose(text, pos + 1 + |fields[0].before|);
      FieldsRead(fields, text, pos + 1, left - 1, depth + 1, []);
      TableMeets(blank, fields, ParseValue(text, pos, left, depth), pos + |SpellFields(fields)| + 2, left, depth);
    }
  }

  // Documents.

  /** An item at the end of the text. */
  lemma LastPlaces(x: Item, text: Bytes, pos: nat)
    requires GoodItem(x) && At(text, pos, SpellItem(x)) && pos + |SpellItem(x)| == |text|
    ensures var p := pos + |x.before|;
      && Good(x.value) && At(text, p, Spell(x.value)) && Stop(text, p + |Spell(x.value)|)
      && SkipSpace(text, pos) == p && SkipSpace(text, p + |Spell(x.value)|) == |text|
  {
    hide Spell, Good;
    var p := pos + |x.before|;
    var e := p + |Spell(x.value)|;
    AtSplit(text, pos, x.before, Spell(x.value) + x.after);
    AtSplit(text, p, Spell(x.value), x.after);
    SpellStart(x.value);
    AtByte(text, p, Spell(x.value), 0);
    BlankSkipped(text, pos, x.before);
    BlankSkipped(text, e, x.after);
    if x.after != [] { AtByte(text, e, x.after, 0); }
  }

  lemma DocumentPlaces(d: Document, text: Bytes)
    requires GoodDocument(d) && text == DocumentText(d)
    ensures var pos := AfterMark(text); At(text, pos, SpellItem(d.item)) && pos + |SpellItem(d.item)| == |text|
  {
    hide SpellItem, GoodItem, AfterMark;
    MarkRead(d, text);
    AtSplit(text, 0, if d.mark then MARK else [], SpellItem(d.item));
  }

  lemma MarkRead(d: Document, text: Bytes)
    requires GoodDocument(d) && text == DocumentText(d)
    ensures AfterMark(text) == if d.mark then 3 else 0
  {
    if !d.mark {
      SpellStart(d.item.value);
      var s := SpellItem(d.item);
      assert text == s;
      if d.item.before == [] { assert s[0] == Spell(d.item.value)[0]; } else { assert s[0] == d.item.before[0]; }
    }
  }

  /**
  Every document of the grammar whose text is UTF-8 is read as the value it denotes, provided it denotes one
  and keeps to both limits; beyond a limit the parser says which.
  */
  lemma DocumentRead(d: Document, n: nat)
    requires GoodDocument(d) && GoodItem(d.item) && Decode(DocumentText(d)).Some? && Means(d.item.value).Some?
    ensures Meets(ParseDocument(DocumentText(d), n), Means(d.item.value).value, Levels(d.item.value), Values(d.item.value),
                  |DocumentText(d)|, n, 0)
  {
    hide Spell, SpellItem, Good, GoodItem, SkipSpace, ParseValue, Decode, Stop, At, AfterMark, DocumentText, Means, Levels, Values,
         ValueMeets, ParseDocument;
    var text := DocumentText(d);
    var p := AfterMark(text) + |d.item.before|;
    DocumentPlaces(d, text);
    LastPlaces(d.item, text, AfterMark(text));
    ValueRead(d.item.value, text, p, n, 0);
    MeetsWhole(d.item.value, text, p, n);
  }

  lemma MeetsWhole(sp: Spelling, text: Bytes, p: nat, n: nat)
    requires Good(sp) && Means(sp).Some? && Decode(text).Some? && p == SkipSpace(text, AfterMark(text))
    requires ValueMeets(sp, ParseValue(text, p, n, 0), p + |Spell(sp)|, n, 0)
    requires SkipSpace(text, p + |Spell(sp)|) == |text|
    ensures Meets(ParseDocument(text, n), Means(sp).value, Levels(sp), Values(sp), |text|, n, 0)
  {
    hide Spell, Good, SkipSpace, ParseValue, Decode, AfterMark, Means, Levels, Values;
  }
}
