/** Whatever the parser accepts is spelled by the grammar, and the result is the value that spelling denotes. */
module JsonSpelling {
  import opened Common
  import opened Utf8
  import opened JsonNumber
  import opened Numerals
  import opened JsonText
  import opened JsonOrder
  import opened JsonGrammar
  import opened JsonReading

  // White space.

  lemma {:induction false} BlankSpelled(text: Bytes, pos: nat)
    requires pos <= |text|
    ensures pos <= SkipSpace(text, pos) <= |text| && Blank(text[pos..SkipSpace(text, pos)])
    ensures At(text, pos, text[pos..SkipSpace(text, pos)])
    decreases |text| - pos
  {
    if pos < |text| && IsSpace(text[pos]) { BlankSpelled(text, pos + 1); }
  }

  // Strings.

  lemma HexStep(text: Bytes, pos: nat, n: nat)
    requires n >= 1 && Hex(text, pos, n).Some?
    ensures Hex(text, pos, n - 1).Some? && HexValue(text[pos + n - 1]).Some?
    ensures Hex(text, pos, n).value == Hex(text, pos, n - 1).value * 16 + HexValue(text[pos + n - 1]).value
    ensures n == 1 ==> Hex(text, pos, n).value == HexValue(text[pos]).value
  {
  }

  lemma Hex4Is(text: Bytes, pos: nat)
    requires Hex4(text, pos).Some?
    ensures pos + 4 <= |text| && HexValue(text[pos]).Some? && HexValue(text[pos + 1]).Some?
    ensures HexValue(text[pos + 2]).Some? && HexValue(text[pos + 3]).Some?
    ensures Hex4(text, pos).value == ((HexValue(text[pos]).value * 16 + HexValue(text[pos + 1]).value) * 16
                                      + HexValue(text[pos + 2]).value) * 16 + HexValue(text[pos + 3]).value
  {
    hide Hex, HexValue;
    HexStep(text, pos, 4);
    HexStep(text, pos, 3);
    HexStep(text, pos, 2);
    HexStep(text, pos, 1);
  }

  lemma GroupSpelled(text: Bytes, pos: nat) returns (upper: seq<bool>)
    requires Is(text, pos, BACKSLASH) && Is(text, pos + 1, 117) && Hex4(text, pos + 2).Some?
    ensures |upper| == 4 && At(text, pos, Group(Hex4(text, pos + 2).value, upper))
  {
    hide Hex4, HexValue, HexChar, Capital;
    Hex4Is(text, pos + 2);
    var a, b, c, d := text[pos + 2], text[pos + 3], text[pos + 4], text[pos + 5];
    upper := [Capital(a), Capital(b), Capital(c), Capital(d)];
    HexSpelled(a);
    HexSpelled(b);
    HexSpelled(c);
    HexSpelled(d);
    Quarters(HexValue(a).value, HexValue(b).value, HexValue(c).value, HexValue(d).value);
    assert Group(Hex4(text, pos + 2).value, upper) == [BACKSLASH, 117, a, b, c, d];
  }

  lemma Quarters(w: int, x: int, y: int, z: int)
    requires 0 <= w < 16 && 0 <= x < 16 && 0 <= y < 16 && 0 <= z < 16
    ensures var n := ((w * 16 + x) * 16 + y) * 16 + z;
      0 <= n <= 0xFFFF && n / 4096 == w && n / 256 % 16 == x && n / 16 % 16 == y && n % 16 == z
  {
  }

  lemma CodedSpelled(text: Bytes, pos: nat) returns (upper: seq<bool>)
    requires Is(text, pos, BACKSLASH) && Is(text, pos + 1, 117) && UnicodeEscape(text, pos + 2).Some?
    ensures var (cp, next) := UnicodeEscape(text, pos + 2).value;
      GoodChar(Coded(cp, upper)) && At(text, pos, CodedText(cp, upper)) && next == pos + |CodedText(cp, upper)|
  {
    hide At, Group, Hex4;
    upper := GroupSpelled(text, pos);
    var high := Hex4(text, pos + 2).value;
    if 0xD800 <= high <= 0xDBFF {
      var lower := GroupSpelled(text, pos + 6);
      var low := Hex4(text, pos + 8).value;
      AtJoin(text, pos, Group(high, upper), Group(low, lower));
      assert (upper + lower)[..4] == upper && (upper + lower)[4..] == lower;
      upper := upper + lower;
    }
  }

  /** The first character of the rest of a string, and what is left. */
  lemma CharSpelled(text: Bytes, pos: nat, acc: Bytes) returns (c: Char)
    requires ParseChars(text, pos, acc).Some? && text[pos] != QUOTE
    ensures GoodChar(c) && At(text, pos, CharText(c)) && CharText(c) != []
    ensures ParseChars(text, pos, acc) == ParseChars(text, pos + |CharText(c)|, acc + CharBytes(c))
  {
    if text[pos] != BACKSLASH {
      c := Raw(text[pos]);
    } else if SimpleEscape(text[pos + 1]).Some? {
      c := Named(text[pos + 1], SimpleEscape(text[pos + 1]).value);
    } else {
      var upper := CodedSpelled(text, pos);
      c := Coded(UnicodeEscape(text, pos + 2).value.0, upper);
      hide UnicodeEscape, At, CodedText;
    }
  }

  lemma {:induction false} CharsSpelled(text: Bytes, pos: nat, acc: Bytes) returns (cs: seq<Char>)
    requires ParseChars(text, pos, acc).Some?
    ensures GoodChars(cs) && At(text, pos, CharsText(cs) + [QUOTE])
    ensures ParseChars(text, pos, acc) == Some((acc + CharsBytes(cs), pos + |CharsText(cs)| + 1))
    decreases |text| - pos
  {
    hide ParseChars, CharText, CharBytes, At;
    InText(text, pos, acc);
    if text[pos] == QUOTE {
      cs := [];
      assert CharsText(cs) + [QUOTE] == [QUOTE] && acc + CharsBytes(cs) == acc;
      QuoteAt(text, pos);
      StringEnds(text, pos, acc);
    } else {
      var c := CharSpelled(text, pos, acc);
      AtBounds(text, pos, CharText(c));
      var rest := CharsSpelled(text, pos + |CharText(c)|, acc + CharBytes(c));
      cs := [c] + rest;
      assert cs[1..] == rest;
      AtJoin(text, pos, CharText(c), CharsText(rest) + [QUOTE]);
      assert CharText(c) + (CharsText(rest) + [QUOTE]) == CharsText(cs) + [QUOTE];
      assert acc + CharBytes(c) + CharsBytes(rest) == acc + CharsBytes(cs);
    }
  }

  lemma InText(text: Bytes, pos: nat, acc: Bytes)
    requires ParseChars(text, pos, acc).Some?
    ensures pos < |text|
  {
  }

  lemma QuoteAt(text: Bytes, pos: nat)
    requires Is(text, pos, QUOTE)
    ensures At(text, pos, [QUOTE])
  {
  }

  lemma AtBounds(text: Bytes, pos: nat, s: Bytes)
    requires At(text, pos, s)
    ensures pos + |s| <= |text|
  {
  }

  lemma StringSpelled(text: Bytes, pos: nat) returns (cs: seq<Char>)
    requires ParseString(text, pos).Some?
    ensures GoodChars(cs) && At(text, pos, StringText(cs))
    ensures ParseString(text, pos) == Some((CharsBytes(cs), pos + |StringText(cs)|))
  {
    cs := CharsSpelled(text, pos + 1, []);
    AtJoin(text, pos, [QUOTE], CharsText(cs) + [QUOTE]);
    assert [QUOTE] + (CharsText(cs) + [QUOTE]) == StringText(cs);
    assert [] + CharsBytes(cs) == CharsBytes(cs);
  }

  // Numbers.

  lemma FractionSpelled(text: Bytes, pos: nat) returns (f: Option<Bytes>)
    requires pos <= |text| && FractionEnd(text, pos).Some?
    ensures (f.Some? ==> Numeral(f.value)) && At(text, pos, FractionText(f))
    ensures FractionEnd(text, pos).value == pos + |FractionText(f)|
  {
    if Is(text, pos, DOT) {
      f := Some(text[pos + 1..DigitsEnd(text, pos + 1)]);
    } else {
      f := None;
    }
  }

  lemma PowerSpelled(text: Bytes, pos: nat) returns (p: Option<Power>)
    requires pos <= |text| && ExponentEnd(text, pos).Some?
    ensures p.Some? ==>
      p.value.mark in {LOWER_E, UPPER_E} && p.value.sign in {[], [PLUS], [MINUS]} && Numeral(p.value.digits)
    ensures At(text, pos, PowerText(p)) && ExponentEnd(text, pos).value == pos + |PowerText(p)|
  {
    if Is(text, pos, LOWER_E) || Is(text, pos, UPPER_E) {
      var signed := Is(text, pos + 1, PLUS) || Is(text, pos + 1, MINUS);
      var start := if signed then pos + 2 else pos + 1;
      var sign := if signed then [text[pos + 1]] else [];
      p := Some(Power(text[pos], sign, text[start..DigitsEnd(text, start)]));
      assert sign in {[], [PLUS], [MINUS]};
      assert At(text, pos, [text[pos]] + sign);
      AtJoin(text, pos, [text[pos]] + sign, p.value.digits);
    } else {
      p := None;
    }
  }

  lemma WholeSpelled(text: Bytes, pos: nat)
    requires WholeEnd(text, pos).Some?
    ensures var s := text[pos..WholeEnd(text, pos).value]; Numeral(s) && (s[0] == ZERO ==> |s| == 1) && At(text, pos, s)
  {
  }

  /** The parts of an accepted number are those of a token. */
  lemma TokenSpelled(text: Bytes, pos: nat, p1: nat, p2: nat, p3: nat) returns (t: Token)
    requires pos < |text| && WholeEnd(text, if text[pos] == MINUS then pos + 1 else pos) == Some(p1)
    requires FractionEnd(text, p1) == Some(p2) && ExponentEnd(text, p2) == Some(p3)
    ensures GoodToken(t) && At(text, pos, TokenText(t)) && p3 == pos + |TokenText(t)| && p1 == pos + |WholeText(t)|
  {
    hide At, WholeEnd, FractionEnd, ExponentEnd, TokenText;
    var minus := text[pos] == MINUS;
    var start := if minus then pos + 1 else pos;
    WholeSpelled(text, start);
    var f := FractionSpelled(text, p1);
    var p := PowerSpelled(text, p2);
    t := Token(minus, text[start..p1], f, p);
    SignAt(text, pos);
    AtJoin(text, pos, if minus then [MINUS] else [], t.whole);
    AtJoin(text, p1, FractionText(f), PowerText(p));
    AtJoin(text, pos, WholeText(t), FractionText(f) + PowerText(p));
    TokenIs(t);
  }

  lemma TokenIs(t: Token)
    ensures TokenText(t) == WholeText(t) + (FractionText(t.fraction) + PowerText(t.power))
  {
  }

  lemma NumberSpelled(text: Bytes, pos: nat, left: nat) returns (t: Token)
    requires pos < |text| && ParseNumber(text, pos, left).Got?
    ensures GoodToken(t) && At(text, pos, TokenText(t)) && TokenValue(t).Some?
    ensures ParseNumber(text, pos, left) == Got(TokenValue(t).value, pos + |TokenText(t)|, left)
  {
    hide At, Integer, WholeEnd, FractionEnd, ExponentEnd, TokenText;
    var p1 := WholeEnd(text, if text[pos] == MINUS then pos + 1 else pos).value;
    var p2 := FractionEnd(text, p1).value;
    t := TokenSpelled(text, pos, p1, p2, ExponentEnd(text, p2).value);
    AtSlice(text, pos, TokenText(t));
    TokenLong(t);
    if t.fraction.None? && t.power.None? { IntegerRead(t); }
  }

  lemma SignAt(text: Bytes, pos: nat)
    requires pos < |text|
    ensures At(text, pos, if text[pos] == MINUS then [MINUS] else [])
  {
  }

  // Values.

  /** `r` is the reading of `sp`, which stands at `pos`, within the limits. */
  ghost predicate Reads(sp: Spelling, text: Bytes, pos: nat, r: Outcome<Json>, left: nat, depth: nat) {
    && Good(sp) && At(text, pos, Spell(sp)) && Means(sp).Some?
    && r.Got? && r == Got(Means(sp).value, pos + |Spell(sp)|, r.left) && left == r.left + Values(sp)
    && depth + Levels(sp) <= MAX_DEPTH
  }

  lemma ScalarSpelled(text: Bytes, pos: nat, left: nat, depth: nat) returns (sp: Spelling)
    requires pos < |text| && ParseScalar(text, pos, left).Got? && depth <= MAX_DEPTH
    ensures Reads(sp, text, pos, ParseScalar(text, pos, left), left + 1, depth)
  {
    hide ParseNumber, ParseString, TokenText, StringText;
    if text[pos] == 110 {
      sp := Word(Null);
    } else if text[pos] == 116 {
      sp := Word(Bool(true));
    } else if text[pos] == 102 {
      sp := Word(Bool(false));
    } else if text[pos] == QUOTE {
      var cs := StringSpelled(text, pos);
      sp := Text(cs);
    } else {
      var t := NumberSpelled(text, pos, left);
      sp := Num(t);
    }
  }

  /** `r` is the reading of `items`, which stand at `pos`, behind the elements `acc`. */
  ghost predicate ReadsItems(items: seq<Item>, text: Bytes, pos: nat, r: Outcome<Json>, acc: seq<Json>, left: nat,
      depth: nat) {
    && items != [] && GoodItems(items) && At(text, pos, SpellItems(items))
    && Is(text, pos + |SpellItems(items)|, CLOSE_ARRAY)
    && MeansItems(items).Some? && r.Got?
    && r == Got(Arr(acc + MeansItems(items).value), pos + |SpellItems(items)| + 1, r.left)
    && left == r.left + ItemsValues(items) && depth + ItemsLevels(items) <= MAX_DEPTH
  }

  lemma ItemStands(before: Bytes, sp: Spelling, after: Bytes, text: Bytes, pos: nat)
    requires Blank(before) && Good(sp) && Blank(after) && At(text, pos, before) && At(text, pos + |before|, Spell(sp))
    requires At(text, pos + |before| + |Spell(sp)|, after)
    ensures GoodItem(Item(before, sp, after)) && At(text, pos, SpellItem(Item(before, sp, after)))
    ensures |SpellItem(Item(before, sp, after))| == |before| + |Spell(sp)| + |after|
  {
    hide At, Spell, Good;
    AtJoin(text, pos + |before|, Spell(sp), after);
    AtJoin(text, pos, before, Spell(sp) + after);
  }

  /** The last element. */
  lemma {:induction false} OneItemReads(x: Item, text: Bytes, pos: nat, first: Outcome<Json>, acc: seq<Json>, left: nat,
      depth: nat)
    requires GoodItem(x) && At(text, pos, SpellItem(x)) && Is(text, pos + |SpellItem(x)|, CLOSE_ARRAY)
    requires Reads(x.value, text, pos + |x.before|, first, left, depth)
    ensures ReadsItems([x], text, pos, Got(Arr(acc + [first.value]), pos + |SpellItem(x)| + 1, first.left), acc, left, depth)
  {
    var items := [x];
    hide At, Spell, SpellItem, Good, Means, Levels, Values;
    assert items[1..] == [] && SpellItems(items) == SpellItem(x);
    assert MeansItems([]) == Some([]);
    assert MeansItems(items) == Some([first.value] + []);
    assert [first.value] + [] == [first.value];
    assert ItemsValues(items) == Values(x.value) && ItemsLevels(items) == Levels(x.value);
  }

  lemma {:induction false} ItemsJoin(x: Item, rest: seq<Item>, text: Bytes, pos: nat)
    requires GoodItem(x) && At(text, pos, SpellItem(x)) && Is(text, pos + |SpellItem(x)|, COMMA)
    requires rest != [] && GoodItems(rest) && At(text, pos + |SpellItem(x)| + 1, SpellItems(rest))
    ensures GoodItems([x] + rest) && At(text, pos, SpellItems([x] + rest))
    ensures |SpellItems([x] + rest)| == |SpellItem(x)| + 1 + |SpellItems(rest)|
  {
    var items := [x] + rest;
    var q := pos + |SpellItem(x)|;
    assert At(text, q, [COMMA]);
    hide At, SpellItem, GoodItem;
    assert items[1..] == rest && items[0] == x;
    AtJoin(text, q, [COMMA], SpellItems(rest));
    AtJoin(text, pos, SpellItem(x), [COMMA] + SpellItems(rest));
  }

  lemma {:induction false} ItemsAdd(x: Item, rest: seq<Item>, acc: seq<Json>)
    requires GoodItem(x) && GoodItems(rest) && GoodItems([x] + rest) && Means(x.value).Some? && MeansItems(rest).Some?
    ensures MeansItems([x] + rest).Some?
    ensures acc + MeansItems([x] + rest).value == acc + [Means(x.value).value] + MeansItems(rest).value
    ensures ItemsValues([x] + rest) == Values(x.value) + ItemsValues(rest)
    ensures ItemsLevels([x] + rest) == Max(Levels(x.value), ItemsLevels(rest))
  {
    hide Good, Means, Levels, Values;
    assert ([x] + rest)[1..] == rest;
  }

  lemma {:induction false} MoreItemsRead(x: Item, rest: seq<Item>, text: Bytes, pos: nat, first: Outcome<Json>,
      r: Outcome<Json>, acc: seq<Json>, left: nat, depth: nat)
    requires GoodItem(x) && At(text, pos, SpellItem(x)) && Is(text, pos + |SpellItem(x)|, COMMA)
    requires Reads(x.value, text, pos + |x.before|, first, left, depth)
    requires ReadsItems(rest, text, pos + |SpellItem(x)| + 1, r, acc + [first.value], first.left, depth)
    ensures ReadsItems([x] + rest, text, pos, r, acc, left, depth)
  {
    hide At, Is, Spell, SpellItem, SpellItems, GoodItem, GoodItems, Means, MeansItems, Levels, Values, ItemsValues, ItemsLevels;
    ItemsJoin(x, rest, text, pos);
    ItemsAdd(x, rest, acc);
  }

  lemma ReadsEnd(sp: Spelling, text: Bytes, pos: nat, r: Outcome<Json>, left: nat, depth: nat)
    requires Reads(sp, text, pos, r, left, depth)
    ensures Good(sp) && At(text, pos, Spell(sp)) && r.Got? && r.pos == pos + |Spell(sp)| <= |text|
  {
  }

  lemma AfterItemIs(text: Bytes, pos: nat, left: nat, depth: nat, acc: seq<Json>)
    requires AfterItem(text, pos, left, depth, acc).Got?
    ensures var p, r := SkipSpace(text, pos), AfterItem(text, pos, left, depth, acc);
      && (Is(text, p, CLOSE_ARRAY) || Is(text, p, COMMA))
      && (Is(text, p, CLOSE_ARRAY) ==> r == Got(Arr(acc), p + 1, left))
      && (!Is(text, p, CLOSE_ARRAY) ==> r == ParseItems(text, SkipSpace(text, p + 1), left, depth, acc))
  {
  }

  /** The elements from the one at `pos`, which white space `before` leads to. */
  lemma {:induction false} ItemsSpelled(text: Bytes, before: Bytes, pos: nat, left: nat, depth: nat, acc: seq<Json>)
      returns (items: seq<Item>)
    requires Blank(before) && |before| <= pos <= |text| && At(text, pos - |before|, before)
    requires ParseItems(text, pos, left, depth, acc).Got?
    ensures ReadsItems(items, text, pos - |before|, ParseItems(text, pos, left, depth, acc), acc, left, depth)
    decreases |text| - pos, 2
  {
    hide ParseValue, ParseItems, AfterItem, At, Is, Spell, SpellItem, SkipSpace, Reads, ReadsItems, Good, GoodItem, Blank;
    var first := ParseValue(text, pos, left, depth);
    ItemFirst(text, pos, left, depth, acc);
    var sp := ValueSpelled(text, pos, left, depth);
    ReadsEnd(sp, text, pos, first, left, depth);
    var e := first.pos;
    BlankSpelled(text, e);
    var q := SkipSpace(text, e);
    var x, start := Item(before, sp, text[e..q]), pos - |before|;
    ItemStands(before, sp, text[e..q], text, start);
    AfterItemIs(text, e, first.left, depth, acc + [first.value]);
    if Is(text, q, CLOSE_ARRAY) {
      OneItemReads(x, text, start, first, acc, left, depth);
      items := [x];
    } else {
      IsAt(text, q);
      BlankSpelled(text, q + 1);
      var p := SkipSpace(text, q + 1);
      var rest := ItemsSpelled(text, text[q + 1..p], p, first.left, depth, acc + [first.value]);
      MoreItemsRead(x, rest, text, start, first, ParseItems(text, pos, left, depth, acc), acc, left, depth);
      items := [x] + rest;
    }
  }

  lemma ListReads(items: seq<Item>, text: Bytes, pos: nat, r: Outcome<Json>, left: nat, depth: nat)
    requires Is(text, pos, OPEN_ARRAY) && ReadsItems(items, text, pos + 1, r, [], left, depth + 1)
    ensures Reads(List([], items), text, pos, r, left + 1, depth)
  {
    assert At(text, pos, [OPEN_ARRAY]);
    assert At(text, pos + 1 + |SpellItems(items)|, [CLOSE_ARRAY]);
    hide At, SpellItems, MeansItems, ItemsLevels, ItemsValues, GoodItem;
    AtJoin(text, pos, [OPEN_ARRAY], SpellItems(items));
    AtJoin(text, pos, [OPEN_ARRAY] + SpellItems(items), [CLOSE_ARRAY]);
    assert [] + MeansItems(items).value == MeansItems(items).value;
  }

  lemma EmptyListReads(blank: Bytes, text: Bytes, pos: nat, left: nat, depth: nat)
    requires Is(text, pos, OPEN_ARRAY) && At(text, pos + 1, blank) && Blank(blank)
    requires Is(text, pos + 1 + |blank|, CLOSE_ARRAY)
    requires depth <= MAX_DEPTH
    ensures Reads(List(blank, []), text, pos, Got(Arr([]), pos + |blank| + 2, left), left + 1, depth)
  {
    assert At(text, pos, [OPEN_ARRAY]);
    assert At(text, pos + 1 + |blank|, [CLOSE_ARRAY]);
    AtJoin(text, pos, [OPEN_ARRAY], blank);
    AtJoin(text, pos, [OPEN_ARRAY] + blank, [CLOSE_ARRAY]);
  }

  lemma ListSpelled(text: Bytes, pos: nat, left: nat, depth: nat) returns (sp: Spelling)
    requires Is(text, pos, OPEN_ARRAY) && depth <= MAX_DEPTH && left > 0 && ParseValue(text, pos, left, depth).Got?
    ensures Reads(sp, text, pos, ParseValue(text, pos, left, depth), left, depth)
    decreases |text| - pos, 0
  {
    hide ParseValue, ParseItems, At, SkipSpace, Reads, ReadsItems, Blank;
    ListOpens(text, pos, left, depth);
    BlankSpelled(text, pos + 1);
    var p := SkipSpace(text, pos + 1);
    if Is(text, p, CLOSE_ARRAY) {
      sp := List(text[pos + 1..p], []);
      EmptyListReads(text[pos + 1..p], text, pos, left - 1, depth);
    } else {
      var items := ItemsSpelled(text, text[pos + 1..p], p, left - 1, depth + 1, []);
      sp := List([], items);
      ListReads(items, text, pos, ParseValue(text, pos, left, depth), left - 1, depth);
    }
  }

  /** Whatever is accepted at `pos` is a spelling that stands there. */
  lemma ValueSpelled(text: Bytes, pos: nat, left: nat, depth: nat) returns (sp: Spelling)
    requires ParseValue(text, pos, left, depth).Got?
    ensures Reads(sp, text, pos, ParseValue(text, pos, left, depth), left, depth)
    decreases |text| - pos, 1
  {
    hide ParseArray, ParseObject, ParseScalar, Reads;
    if text[pos] == OPEN_ARRAY {
      sp := ListSpelled(text, pos, left, depth);
    } else if text[pos] == OPEN_OBJECT {
      sp := TableSpelled(text, pos, left, depth);
    } else {
      sp := ScalarSpelled(text, pos, left - 1, depth);
    }
  }

  // Members.

  ghost predicate ReadsFields(fields: seq<Field>, text: Bytes, pos: nat, r: Outcome<Json>, acc: seq<Member>, left: nat,
      depth: nat) {
    && fields != [] && GoodFields(fields) && At(text, pos, SpellFields(fields))
    && Is(text, pos + |SpellFields(fields)|, CLOSE_OBJECT)
    && MeansFields(fields, acc).Some? && r.Got?
    && r == Got(Obj(MeansFields(fields, acc).value), pos + |SpellFields(fields)| + 1, r.left)
    && left == r.left + FieldsValues(fields) && depth + FieldsLevels(fields) <= MAX_DEPTH
  }

  lemma FieldStands(x: Field, text: Bytes, pos: nat, key: nat, colon: nat)
    requires Blank(x.before) && GoodChars(x.key) && Blank(x.after) && GoodItem(x.item)
    requires At(text, pos, x.before) && key == pos + |x.before| && At(text, key, StringText(x.key))
    requires colon == key + |StringText(x.key)| + |x.after| && At(text, key + |StringText(x.key)|, x.after)
    requires Is(text, colon, COLON) && At(text, colon + 1, SpellItem(x.item))
    ensures GoodField(x) && At(text, pos, SpellField(x)) && pos + |SpellField(x)| == colon + 1 + |SpellItem(x.item)|
  {
    assert At(text, colon, [COLON]);
    hide At, StringText, SpellItem, GoodItem;
    AtJoin(text, colon, [COLON], SpellItem(x.item));
    AtJoin(text, key + |StringText(x.key)|, x.after, [COLON] + SpellItem(x.item));
    AtJoin(text, key, StringText(x.key), x.after + ([COLON] + SpellItem(x.item)));
    AtJoin(text, pos, x.before, StringText(x.key) + (x.after + ([COLON] + SpellItem(x.item))));
  }

  lemma {:induction false} OneFieldReads(x: Field, text: Bytes, pos: nat, p: nat, first: Outcome<Json>,
      acc: seq<Member>, acc2: seq<Member>,
      left: nat, depth: nat)
    requires GoodField(x) && GoodItem(x.item) && At(text, pos, SpellField(x))
    requires Is(text, pos + |SpellField(x)|, CLOSE_OBJECT)
    requires Reads(x.item.value, text, p, first, left, depth)
    requires Insert(acc, Member(CharsBytes(x.key), first.value)) == Some(acc2)
    ensures ReadsFields([x], text, pos, Got(Obj(acc2), pos + |SpellField(x)| + 1, first.left), acc, left, depth)
  {
    var fields := [x];
    hide At, Spell, SpellItem, SpellField, Good, GoodItem, Means, Levels, Values, Insert;
    assert fields[1..] == [] && SpellFields(fields) == SpellField(x);
    assert MeansFields([], acc2) == Some(acc2);
    assert MeansFields(fields, acc) == MeansFields(fields[1..], acc2);
    assert FieldsValues(fields) == Values(x.item.value) && FieldsLevels(fields) == Levels(x.item.value);
  }

  lemma {:induction false} FieldsJoin(x: Field, rest: seq<Field>, text: Bytes, pos: nat)
    requires GoodField(x) && At(text, pos, SpellField(x)) && Is(text, pos + |SpellField(x)|, COMMA)
    requires rest != [] && GoodFields(rest) && At(text, pos + |SpellField(x)| + 1, SpellFields(rest))
    ensures GoodFields([x] + rest) && At(text, pos, SpellFields([x] + rest))
    ensures |SpellFields([x] + rest)| == |SpellField(x)| + 1 + |SpellFields(rest)|
  {
    var fields := [x] + rest;
    var q := pos + |SpellField(x)|;
    assert At(text, q, [COMMA]);
    hide At, SpellField, GoodField;
    assert fields[1..] == rest && fields[0] == x;
    AtJoin(text, q, [COMMA], SpellFields(rest));
    AtJoin(text, pos, SpellField(x), [COMMA] + SpellFields(rest));
  }

  lemma {:induction false} MoreFieldsRead(x: Field, rest: seq<Field>, text: Bytes, pos: nat, p: nat,
      first: Outcome<Json>,
      r: Outcome<Json>, acc: seq<Member>, acc2: seq<Member>, left: nat, depth: nat)
    requires GoodField(x) && GoodItem(x.item) && At(text, pos, SpellField(x)) && Is(text, pos + |SpellField(x)|, COMMA)
    requires Reads(x.item.value, text, p, first, left, depth)
    requires Insert(acc, Member(CharsBytes(x.key), first.value)) == Some(acc2)
    requires ReadsFields(rest, text, pos + |SpellField(x)| + 1, r, acc2, first.left, depth)
    ensures ReadsFields([x] + rest, text, pos, r, acc, left, depth)
  {
    hide At, Is, Spell, SpellField, SpellFields, GoodItem, GoodField, GoodFields, Means, MeansFields, Levels, Values, FieldsValues,
         FieldsLevels, Insert;
    FieldsJoin(x, rest, text, pos);
    FieldsAdd(x, rest, acc, acc2);
  }

  lemma AfterMemberIs(text: Bytes, pos: nat, left: nat, depth: nat, acc: seq<Member>)
    requires AfterMember(text, pos, left, depth, acc).Got?
    ensures var p, r := SkipSpace(text, pos), AfterMember(text, pos, left, depth, acc);
      && (Is(text, p, CLOSE_OBJECT) || Is(text, p, COMMA))
      && (Is(text, p, CLOSE_OBJECT) ==> r == Got(Obj(acc), p + 1, left))
      && (!Is(text, p, CLOSE_OBJECT) ==> r == ParseMembers(text, SkipSpace(text, p + 1), left, depth, acc))
  {
  }

  /** An accepted member has a key, a colon, a value, and a key that is new. */
  lemma MemberIs(text: Bytes, pos: nat, left: nat, depth: nat, acc: seq<Member>)
    requires ParseMembers(text, pos, left, depth, acc).Got?
    ensures ParseString(text, pos).Some?
    ensures var (key, next) := ParseString(text, pos).value;
      var colon := SkipSpace(text, next);
      var p := SkipSpace(text, colon + 1);
      var first := ParseValue(text, p, left, depth);
      && Is(text, colon, COLON) && first.Got? && Insert(acc, Member(key, first.value)).Some?
      && ParseMembers(text, pos, left, depth, acc) ==
           AfterMember(text, first.pos, first.left, depth, Insert(acc, Member(key, first.value)).value)
  {
    hide ParseValue, AfterMember, Insert, ParseString, SkipSpace;
  }

  /** The members from the one at `pos`, which white space `before` leads to. */
  lemma {:induction false} FieldsSpelled(text: Bytes, before: Bytes, pos: nat, left: nat, depth: nat, acc: seq<Member>)
      returns (fields: seq<Field>)
    requires Blank(before) && |before| <= pos <= |text| && At(text, pos - |before|, before)
    requires ParseMembers(text, pos, left, depth, acc).Got?
    ensures ReadsFields(fields, text, pos - |before|, ParseMembers(text, pos, left, depth, acc), acc, left, depth)
    decreases |text| - pos, 2
  {
    hide ParseValue, ParseMembers, AfterMember, At, Is, Spell, SpellItem, SpellField, SkipSpace, Reads, ReadsFields, Good, GoodItem,
         GoodField, Blank, ParseString, StringText, Insert, GoodChars, CharsBytes;
    MemberIs(text, pos, left, depth, acc);
    var cs := StringSpelled(text, pos);
    var next := pos + |StringText(cs)|;
    AtBounds(text, pos, StringText(cs));
    BlankSpelled(text, next);
    var colon := SkipSpace(text, next);
    ColonInside(text, colon);
    BlankSpelled(text, colon + 1);
    var p := SkipSpace(text, colon + 1);
    var first := ParseValue(text, p, left, depth);
    var sp := ValueSpelled(text, p, left, depth);
    ReadsEnd(sp, text, p, first, left, depth);
    var e := first.pos;
    BlankSpelled(text, e);
    var q := SkipSpace(text, e);
    ItemStands(text[colon + 1..p], sp, text[e..q], text, colon + 1);
    var x, start := Field(before, cs, text[next..colon], Item(text[colon + 1..p], sp, text[e..q])), pos - |before|;
    FieldStands(x, text, start, pos, colon);
    var acc2 := Insert(acc, Member(CharsBytes(cs), first.value)).value;
    AfterMemberIs(text, e, first.left, depth, acc2);
    if Is(text, q, CLOSE_OBJECT) {
      OneFieldReads(x, text, start, p, first, acc, acc2, left, depth);
      fields := [x];
    } else {
      IsAt(text, q);
      BlankSpelled(text, q + 1);
      var p2 := SkipSpace(text, q + 1);
      var rest := FieldsSpelled(text, text[q + 1..p2], p2, first.left, depth, acc2);
      MoreFieldsRead(x, rest, text, start, p, first, ParseMembers(text, pos, left, depth, acc), acc, acc2, left, depth);
      fields := [x] + rest;
    }
  }

  lemma ColonInside(text: Bytes, pos: nat)
    requires Is(text, pos, COLON)
    ensures pos < |text|
  {
  }

  lemma TableReads(fields: seq<Field>, text: Bytes, pos: nat, r: Outcome<Json>, left: nat, depth: nat)
    requires Is(text, pos, OPEN_OBJECT) && ReadsFields(fields, text, pos + 1, r, [], left, depth + 1)
    ensures Reads(Table([], fields), text, pos, r, left + 1, depth)
  {
    assert At(text, pos, [OPEN_OBJECT]);
    assert At(text, pos + 1 + |SpellFields(fields)|, [CLOSE_OBJECT]);
    hide At, SpellFields, MeansFields, FieldsLevels, FieldsValues, GoodField;
    AtJoin(text, pos, [OPEN_OBJECT], SpellFields(fields));
    AtJoin(text, pos, [OPEN_OBJECT] + SpellFields(fields), [CLOSE_OBJECT]);
  }

  lemma EmptyTableReads(blank: Bytes, text: Bytes, pos: nat, left: nat, depth: nat)
    requires Is(text, pos, OPEN_OBJECT) && At(text, pos + 1, blank) && Blank(blank)
    requires Is(text, pos + 1 + |blank|, CLOSE_OBJECT)
    requires depth <= MAX_DEPTH
    ensures Reads(Table(blank, []), text, pos, Got(Obj([]), pos + |blank| + 2, left), left + 1, depth)
  {
    assert At(text, pos, [OPEN_OBJECT]);
    assert At(text, pos + 1 + |blank|, [CLOSE_OBJECT]);
    AtJoin(text, pos, [OPEN_OBJECT], blank);
    AtJoin(text, pos, [OPEN_OBJECT] + blank, [CLOSE_OBJECT]);
  }

  lemma TableSpelled(text: Bytes, pos: nat, left: nat, depth: nat) returns (sp: Spelling)
    requires Is(text, pos, OPEN_OBJECT) && depth <= MAX_DEPTH && left > 0 && ParseValue(text, pos, left, depth).Got?
    ensures Reads(sp, text, pos, ParseValue(text, pos, left, depth), left, depth)
    decreases |text| - pos, 0
  {
    hide ParseValue, ParseMembers, At, SkipSpace, Reads, ReadsFields, Blank;
    TableOpens(text, pos, left, depth);
    BlankSpelled(text, pos + 1);
    var p := SkipSpace(text, pos + 1);
    if Is(text, p, CLOSE_OBJECT) {
      sp := Table(text[pos + 1..p], []);
      EmptyTableReads(text[pos + 1..p], text, pos, left - 1, depth);
    } else {
      var fields := FieldsSpelled(text, text[pos + 1..p], p, left - 1, depth + 1, []);
      sp := Table([], fields);
      TableReads(fields, text, pos, ParseValue(text, pos, left, depth), left - 1, depth);
    }
  }

  // Documents.

  /** `d` is a derivation of `text` whose value keeps to both limits. */
  ghost predicate Derives(d: Document, text: Bytes, n: nat) {
    && GoodDocument(d) && GoodItem(d.item) && Good(d.item.value) && DocumentText(d) == text
    && Means(d.item.value).Some? && Levels(d.item.value) <= MAX_DEPTH && Values(d.item.value) <= n
  }

  lemma MarkIs(text: Bytes)
    ensures AfterMark(text) <= |text| && text[..AfterMark(text)] == if AfterMark(text) == 3 then MARK else []
    ensures AfterMark(text) == 3 || AfterMark(text) == 0
  {
  }

  lemma TextInParts(before: Bytes, sp: Spelling, text: Bytes, start: nat, p: nat, e: nat)
    requires start <= p <= e <= |text| && Blank(before) && before == text[start..p] && Good(sp)
    requires At(text, p, Spell(sp))
    requires e == p + |Spell(sp)| && Blank(text[e..])
    requires text[..start] == (if start == 3 then MARK else [])
    ensures var d := Document(start == 3, Item(before, sp, text[e..])); GoodDocument(d) && DocumentText(d) == text
  {
    hide At, Spell, Good, Blank;
    AtSlice(text, p, Spell(sp));
    FourParts(text, start, p, e);
  }

  lemma FourParts(text: Bytes, start: nat, p: nat, e: nat)
    requires start <= p <= e <= |text|
    ensures text == text[..start] + (text[start..p] + (text[p..e] + text[e..]))
  {
    assert text[start..] == text[start..p] + text[p..] && text[p..] == text[p..e] + text[e..];
  }

  lemma DocumentIs(text: Bytes, n: nat)
    requires ParseDocument(text, n).Got?
    ensures Decode(text).Some?
    ensures var start := AfterMark(text);
      var first := ParseValue(text, SkipSpace(text, start), n, 0);
      && first.Got? && SkipSpace(text, first.pos) == |text|
      && ParseDocument(text, n) == Got(first.value, |text|, first.left)
  {
    hide Decode, ParseValue, SkipSpace, AfterMark;
  }

  /** Whatever document is accepted has a derivation, and the result is what it denotes. */
  lemma DocumentSpelled(text: Bytes, n: nat) returns (d: Document)
    requires ParseDocument(text, n).Got?
    ensures Derives(d, text, n)
    ensures ParseDocument(text, n) == Got(Means(d.item.value).value, |text|, n - Values(d.item.value))
  {
    hide Decode, ParseValue, ParseDocument, SkipSpace, AfterMark, Spell, Good, At, Means, Levels, Values, Blank;
    DocumentIs(text, n);
    MarkIs(text);
    var start := AfterMark(text);
    BlankSpelled(text, start);
    var p := SkipSpace(text, start);
    var first := ParseValue(text, p, n, 0);
    var sp := ValueSpelled(text, p, n, 0);
    ReadsEnd(sp, text, p, first, n, 0);
    BlankSpelled(text, first.pos);
    assert text[first.pos..|text|] == text[first.pos..];
    TextInParts(text[start..p], sp, text, start, p, first.pos);
    d := Document(start == 3, Item(text[start..p], sp, text[first.pos..]));
    assert GoodItem(d.item);
  }

  /**
  The parser is the grammar.  A text is accepted within `n` values if and only if it is UTF-8 and has a derivation
  that denotes a value of at most `n` values and the permitted depth; and then the result is that value, whichever
  derivation is taken.
  */
  lemma AcceptsTheGrammar(text: Bytes, n: nat)
    ensures ParseDocument(text, n).Got? <==> WellFormed(text) && exists d :: Derives(d, text, n)
    ensures WellFormed(text) ==> forall d :: Derives(d, text, n) ==>
      ParseDocument(text, n) == Got(Means(d.item.value).value, |text|, n - Values(d.item.value))
  {
    hide Decode, ParseDocument, WellFormed, Good, GoodItem, Means, Levels, Values, DocumentText;
    DecodeIffWellFormed(text);
    if ParseDocument(text, n).Got? {
      var d := DocumentSpelled(text, n);
      AcceptedIsText(text, n);
    }
    if WellFormed(text) {
      forall d | Derives(d, text, n)
        ensures ParseDocument(text, n) == Got(Means(d.item.value).value, |text|, n - Values(d.item.value))
      {
        DocumentRead(d, n);
      }
    }
  }

  lemma AcceptedIsText(text: Bytes, n: nat)
    requires ParseDocument(text, n).Got?
    ensures Decode(text).Some?
  {
  }

  // What an object denotes.

  predicate Denoted(fields: seq<Field>)
    requires GoodFields(fields)
  {
    forall i :: 0 <= i < |fields| ==> FieldGood(fields, i) && Means(fields[i].item.value).Some?
  }

  predicate FieldGood(fields: seq<Field>, i: nat)
    requires i < |fields|
  {
    GoodField(fields[i]) && GoodItem(fields[i].item) && Good(fields[i].item.value) && GoodChars(fields[i].key)
  }

  function KeyAt(fields: seq<Field>, i: nat): Bytes
    requires i < |fields| && FieldGood(fields, i)
  {
    CharsBytes(fields[i].key)
  }

  lemma {:induction false} AllGood(fields: seq<Field>)
    requires GoodFields(fields)
    ensures forall i :: 0 <= i < |fields| ==> FieldGood(fields, i)
  {
    forall i | 0 <= i < |fields|
      ensures FieldGood(fields, i)
    {
      assert GoodField(fields[i]) && GoodItem(fields[i].item);
    }
  }

  /** No two fields have the same key, and none has a key of `acc`. */
  predicate NewKeys(fields: seq<Field>, acc: seq<Member>)
    requires forall i :: 0 <= i < |fields| ==> FieldGood(fields, i)
  {
    && (forall i, j :: 0 <= i < |fields| && 0 <= j < |acc| ==> KeyAt(fields, i) != acc[j].key)
    && (forall i, j :: 0 <= i < j < |fields| ==> KeyAt(fields, i) != KeyAt(fields, j))
  }

  function MemberAt(fields: seq<Field>, i: nat): Member
    requires i < |fields| && FieldGood(fields, i) && Means(fields[i].item.value).Some?
  {
    Member(KeyAt(fields, i), Means(fields[i].item.value).value)
  }

  lemma RestAt(fields: seq<Field>, i: nat)
    requires fields != [] && i < |fields| - 1 && FieldGood(fields, i + 1)
    ensures FieldGood(fields[1..], i) && KeyAt(fields[1..], i) == KeyAt(fields, i + 1)
  {
  }

  /** Storing the first field leaves its key among the old ones. */
  lemma NewKeysStep(fields: seq<Field>, acc: seq<Member>, acc2: seq<Member>, m: Member)
    requires fields != [] && (forall i :: 0 <= i < |fields| ==> FieldGood(fields, i)) && m.key == KeyAt(fields, 0)
    requires (forall i :: 0 <= i < |fields[1..]| ==> FieldGood(fields[1..], i)) && Insert(acc, m) == Some(acc2)
    requires Ordered(acc)
    ensures NewKeys(fields, acc) <==> NewKeys(fields[1..], acc2)
  {
    var rest := fields[1..];
    hide CharsBytes, Insert, Less, GoodField, GoodItem, Good;
    InsertIff(acc, m);
    forall i | 0 <= i < |rest| ensures KeyAt(rest, i) == KeyAt(fields, i + 1) { RestAt(fields, i); }
    forall x ensures x in acc2 <==> x in acc || x == m { InsertMembers(acc, m, x); }
    if NewKeys(fields, acc) {
      forall i, j | 0 <= i < |rest| && 0 <= j < |acc2| ensures KeyAt(rest, i) != acc2[j].key { assert acc2[j] in acc2; }
    }
    if NewKeys(rest, acc2) {
      forall i, j | 0 <= i < |fields| && 0 <= j < |acc| ensures KeyAt(fields, i) != acc[j].key {
        if i > 0 {
          assert acc[j] in acc2;
          assert KeyAt(rest, i - 1) == KeyAt(fields, i);
        }
      }
      forall i, j | 0 <= i < j < |fields| ensures KeyAt(fields, i) != KeyAt(fields, j) {
        assert m in acc2;
        assert KeyAt(rest, j - 1) == KeyAt(fields, j);
        if i > 0 { assert KeyAt(rest, i - 1) == KeyAt(fields, i); }
      }
    }
  }

  lemma {:induction false} FieldsMeaning(fields: seq<Field>, acc: seq<Member>)
    requires GoodFields(fields) && Ordered(acc) && forall i :: 0 <= i < |fields| ==> FieldGood(fields, i)
    ensures MeansFields(fields, acc).Some? <==> Denoted(fields) && NewKeys(fields, acc)
    ensures MeansFields(fields, acc).Some? ==>
      var ms := MeansFields(fields, acc).value;
      && Ordered(ms) && |ms| == |acc| + |fields| && (forall x :: x in acc ==> x in ms)
      && forall i :: 0 <= i < |fields| ==> MemberAt(fields, i) in ms
    decreases |fields|
  {
    hide Good, GoodField, GoodItem, Means, CharsBytes, Insert, Less;
    if fields != [] {
      var rest := fields[1..];
      forall i | 0 <= i < |rest| ensures FieldGood(rest, i) { RestAt(fields, i); }
      assert FieldGood(fields, 0);
      if Means(fields[0].item.value).Some? {
        var m := Member(KeyAt(fields, 0), Means(fields[0].item.value).value);
        InsertIff(acc, m);
        if Insert(acc, m).Some? {
          var acc2 := Insert(acc, m).value;
          InsertOrdered(acc, m);
          InsertLength(acc, m);
          forall x ensures x in acc2 <==> x in acc || x == m { InsertMembers(acc, m, x); }
          NewKeysStep(fields, acc, acc2, m);
          FieldsMeaning(rest, acc2);
          DenotedStep(fields);
          if MeansFields(fields, acc).Some? {
            forall i | 0 <= i < |fields| ensures MemberAt(fields, i) in MeansFields(fields, acc).value {
              if i > 0 { RestAt(fields, i - 1); assert MemberAt(fields, i) == MemberAt(rest, i - 1); } else { assert m in acc2; }
            }
          }
        } else {
          var j :| 0 <= j < |acc| && acc[j].key == m.key;
          assert KeyAt(fields, 0) == acc[j].key;
        }
      }
    }
  }

  lemma DenotedStep(fields: seq<Field>)
    requires fields != [] && GoodFields(fields) && GoodFields(fields[1..])
    requires (forall i :: 0 <= i < |fields| ==> FieldGood(fields, i))
    ensures FieldGood(fields, 0)
    ensures Denoted(fields) <==> Means(fields[0].item.value).Some? && Denoted(fields[1..])
  {
    hide Means, Good, GoodItem, GoodField;
    if Denoted(fields) {
      forall i | 0 <= i < |fields[1..]| ensures FieldGood(fields[1..], i) && Means(fields[1..][i].item.value).Some? {
        assert FieldGood(fields, i + 1) && fields[1..][i] == fields[i + 1];
      }
    }
    if Denoted(fields[1..]) {
      forall i | 1 <= i < |fields| ensures Means(fields[i].item.value).Some? {
        assert FieldGood(fields[1..], i - 1) && fields[1..][i - 1] == fields[i];
      }
    }
  }

  /**
  An object denotes something if and only if all its values do and no key occurs twice; then it has one member for
  each field, and they stand in the order of their keys.
  */
  lemma ObjectMeaning(blank: Bytes, fields: seq<Field>)
    requires Good(Table(blank, fields))
    ensures GoodFields(fields) && forall i :: 0 <= i < |fields| ==> FieldGood(fields, i)
    ensures Means(Table(blank, fields)).Some? <==> Denoted(fields) && NewKeys(fields, [])
    ensures Means(Table(blank, fields)).Some? ==>
      var v := Means(Table(blank, fields)).value;
      && v.Obj? && Ordered(v.members) && |v.members| == |fields|
      && forall i :: 0 <= i < |fields| ==> MemberAt(fields, i) in v.members
  {
    AllGood(fields);
    hide MeansFields, Good, GoodField, GoodItem, NewKeys, Denoted, CharsBytes, FieldGood;
    FieldsMeaning(fields, []);
  }
}
