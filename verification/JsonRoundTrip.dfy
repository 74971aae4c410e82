/** Parsing what the printer wrote gives the value back; both directions share one nesting limit. */
module JsonRoundTrip {
  import opened Common
  import opened Utf8
  import opened JsonNumber
  import opened Numerals
  import opened JsonText
  import opened JsonOrder
  import opened JsonGrammar
  import opened JsonReading

  // The values the law is about.

  /** 64-bit integers, strictly ordered keys and no doubles; with `utf8`, also well-formed strings and keys. */
  ghost predicate Lawful(v: Json, utf8: bool) {
    match v
    case Int64(i) => -0x8000_0000_0000_0000 <= i <= 0x7FFF_FFFF_FFFF_FFFF
    case UInt64(u) => u <= 0xFFFF_FFFF_FFFF_FFFF
    case Double(_) => false
    case Str(s) => utf8 ==> WellFormed(s)
    case Arr(items) => forall i :: 0 <= i < |items| ==> Lawful(items[i], utf8)
    case Obj(members) =>
      Ordered(members) && forall i :: 0 <= i < |members| ==>
          (utf8 ==> WellFormed(members[i].key)) && Lawful(members[i].value, utf8)
    case _ => true
  }

  /** What the C++ types guarantee of a tree without doubles. */
  ghost predicate Typed(v: Json) { Lawful(v, false) }

  /** The trees the round trip is about. */
  ghost predicate Exact(v: Json) { Lawful(v, true) }

  /** The same tree with non-negative signed integers made unsigned. */
  function Norm(v: Json): Json {
    match v
    case Int64(i) => if i >= 0 then UInt64(i) else v
    case Arr(items) => Arr(NormItems(items))
    case Obj(members) => Obj(NormMembers(members))
    case _ => v
  }

  function NormItems(items: seq<Json>): (r: seq<Json>)
    ensures |r| == |items|
  {
    if items == [] then [] else [Norm(items[0])] + NormItems(items[1..])
  }

  function NormMembers(members: seq<Member>): (r: seq<Member>)
    ensures |r| == |members| && forall i :: 0 <= i < |r| ==> r[i].key == members[i].key
  {
    if members == [] then [] else [Member(members[0].key, Norm(members[0].value))] + NormMembers(members[1..])
  }

  /** How many levels lie below a value. */
  function Height(v: Json): nat {
    match v
    case Arr(items) => if items == [] then 0 else 1 + ItemsHeight(items)
    case Obj(members) => if members == [] then 0 else 1 + MembersHeight(members)
    case _ => 0
  }

  function ItemsHeight(items: seq<Json>): nat {
    if items == [] then 0 else Max(Height(items[0]), ItemsHeight(items[1..]))
  }
  function MembersHeight(members: seq<Member>): nat {
    if members == [] then 0 else Max(Height(members[0].value), MembersHeight(members[1..]))
  }

  /** The number of values in a tree, itself included. */
  function Count(v: Json): nat {
    match v
    case Arr(items) => 1 + ItemsCount(items)
    case Obj(members) => 1 + MembersCount(members)
    case _ => 1
  }

  function ItemsCount(items: seq<Json>): nat { if items == [] then 0 else Count(items[0]) + ItemsCount(items[1..]) }
  function MembersCount(members: seq<Member>): nat {
    if members == [] then 0 else Count(members[0].value) + MembersCount(members[1..])
  }

  // The printer's spelling of a value.

  /** How the printer writes a byte of a string. */
  function PlainChar(b: Byte): (c: Char)
    ensures GoodChar(c) && CharText(c) == EscapeByte(b) && CharBytes(c) == [b]
  {
    if b in {QUOTE, BACKSLASH, 8, 12, 10, 13, 9} then Named(EscapeByte(b)[1], b)
    else if b < 32 then Coded(b as int, [false, false, false, false]) else Raw(b)
  }

  function PlainChars(s: Bytes): (cs: seq<Char>)
    ensures GoodChars(cs) && CharsText(cs) == Escape(s) && CharsBytes(cs) == s
  {
    if s == [] then [] else
      var cs := [PlainChar(s[0])] + PlainChars(s[1..]);
      assert cs[1..] == PlainChars(s[1..]);
      cs
  }

  function Integral(i: int): Token { Token(i < 0, Decimal(if i < 0 then -i else i), None, None) }

  /** A comma and a space between elements, a colon and a space behind keys. */
  function Plain(v: Json): Spelling {
    match v
    case Int64(i) => Num(Integral(i))
    case UInt64(u) => Num(Integral(u))
    case Str(s) => Text(PlainChars(s))
    case Arr(items) => List([], PlainItems(items, []))
    case Obj(members) => Table([], PlainFields(members, []))
    case _ => Word(v)
  }

  function PlainItems(items: seq<Json>, lead: Bytes): (r: seq<Item>)
    ensures |r| == |items|
  {
    if items == [] then [] else [Item(lead, Plain(items[0]), [])] + PlainItems(items[1..], [SPACE])
  }

  function PlainFields(members: seq<Member>, lead: Bytes): (r: seq<Field>)
    ensures |r| == |members|
  {
    if members == [] then []
    else [PlainField(members[0], lead)] + PlainFields(members[1..], [SPACE])
  }

  /** Every byte string survives quoting. */
  lemma QuotedString(s: Bytes, text: Bytes, pos: nat)
    requires At(text, pos, Quoted(s))
    ensures ParseString(text, pos) == Some((s, pos + |Quoted(s)|))
  {
    hide ParseString, Escape, At, CharsText, CharsBytes;
    StringRead(PlainChars(s), text, pos);
  }

  lemma IntegralPlain(i: int)
    requires -0x8000_0000_0000_0000 <= i <= 0xFFFF_FFFF_FFFF_FFFF
    ensures GoodToken(Integral(i)) && TokenText(Integral(i)) == if i < 0 then [MINUS] + Decimal(-i) else Decimal(i)
    ensures TokenValue(Integral(i)) == Some(if i < 0 then Int64(i) else UInt64(i))
  {
    DecimalValue(if i < 0 then -i else i);
  }

  /** The spelling `sp` is the printer's text of `v` and denotes it. */
  ghost predicate Printed(v: Json, sp: Spelling) {
    && Good(sp) && Spell(sp) == Render(v) && Means(sp) == Some(Norm(v)) && Levels(sp) == Height(v)
    && Values(sp) == Count(v)
  }

  lemma {:induction false} PlainPrints(v: Json)
    requires Exact(v)
    ensures Printed(v, Plain(v))
    decreases v, 1
  {
    hide Less, WellFormed, Printed;
    match v
    case Int64(i) => IntegerPrints(v, i);
    case UInt64(u) => IntegerPrints(v, u);
    case Str(s) => StringPrints(s);
    case Arr(items) => PlainItemsPrint(items, []); ListPrints(items);
    case Obj(members) => PlainFieldsPrint(members, [], []); TablePrints(members);
    case _ => WordPrints(v);
  }

  lemma IntegerPrints(v: Json, i: int)
    requires Exact(v) && (v == Int64(i) || (i >= 0 && v == UInt64(i)))
    ensures Printed(v, Num(Integral(i)))
  {
    hide Decimal, Integral, TokenText, TokenValue;
    IntegralPlain(i);
  }

  lemma StringPrints(s: Bytes)
    ensures Printed(Str(s), Text(PlainChars(s)))
  {
    hide Escape, CharsText, CharsBytes;
  }

  lemma WordPrints(w: Json)
    requires w.Null? || w.Bool?
    ensures Printed(w, Word(w))
  {
  }

  lemma ListPrints(items: seq<Json>)
    requires ItemsPrinted(items, [], PlainItems(items, []))
    ensures Printed(Arr(items), List([], PlainItems(items, [])))
  {
    assert [] + RenderItems(items) == RenderItems(items);
  }

  ghost predicate ItemsPrinted(items: seq<Json>, lead: Bytes, xs: seq<Item>) {
    && |xs| == |items| && GoodItems(xs) && SpellItems(xs) == (if items == [] then [] else lead + RenderItems(items))
    && MeansItems(xs) == Some(NormItems(items)) && ItemsLevels(xs) == ItemsHeight(items)
    && ItemsValues(xs) == ItemsCount(items)
  }

  lemma {:induction false} PlainItemsPrint(items: seq<Json>, lead: Bytes)
    requires (forall i :: 0 <= i < |items| ==> Exact(items[i])) && Blank(lead)
    ensures ItemsPrinted(items, lead, PlainItems(items, lead))
    decreases items, 0
  {
    if items != [] {
      hide Render, Spell, Good, Means, Levels, Values, Height, Count, Norm, Exact;
      PlainPrints(items[0]);
      PlainItemsPrint(items[1..], [SPACE]);
      MoreItems(items, lead, PlainItems(items[1..], [SPACE]));
    }
  }

  lemma {:induction false} MoreItems(items: seq<Json>, lead: Bytes, rest: seq<Item>)
    requires items != [] && Blank(lead) && Printed(items[0], Plain(items[0])) && ItemsPrinted(items[1..], [SPACE], rest)
    ensures ItemsPrinted(items, lead, [Item(lead, Plain(items[0]), [])] + rest)
  {
    hide Render, Spell, Good, Means, Levels, Values, Height, Count, Norm, Plain;
    var x := Item(lead, Plain(items[0]), []);
    var xs := [x] + rest;
    assert xs[1..] == rest && GoodItem(x);
    assert SpellItem(x) == lead + Render(items[0]) by { assert Render(items[0]) + [] == Render(items[0]); }
    if |items| > 1 {
      var tail := RenderItems(items[1..]);
      assert lead + Render(items[0]) + ([COMMA] + ([SPACE] + tail)) == lead + (Render(items[0]) + SEPARATOR + tail);
    }
  }

  lemma TablePrints(members: seq<Member>)
    requires FieldsPrinted(members, [], [], PlainFields(members, []))
    ensures Printed(Obj(members), Table([], PlainFields(members, [])))
  {
    hide NormMembers, SpellFields, MeansFields, FieldsLevels, FieldsValues, MembersHeight, MembersCount, GoodField, PlainFields;
    assert [] + RenderMembers(members) == RenderMembers(members) && [] + NormMembers(members) == NormMembers(members);
  }

  /** The members behind `acc`, whose keys are all below theirs. */
  ghost predicate FieldsPrinted(members: seq<Member>, acc: seq<Member>, lead: Bytes, xs: seq<Field>) {
    && |xs| == |members| && GoodFields(xs)
    && SpellFields(xs) == (if members == [] then [] else lead + RenderMembers(members))
    && MeansFields(xs, acc) == Some(acc + NormMembers(members)) && FieldsLevels(xs) == MembersHeight(members)
    && FieldsValues(xs) == MembersCount(members)
  }

  lemma {:induction false} PlainFieldsPrint(members: seq<Member>, acc: seq<Member>, lead: Bytes)
    requires Ordered(members) && (forall i :: 0 <= i < |members| ==> Exact(members[i].value)) && Blank(lead)
    requires forall i, j :: 0 <= i < |acc| && 0 <= j < |members| ==> Less(acc[i].key, members[j].key)
    ensures FieldsPrinted(members, acc, lead, PlainFields(members, lead))
    decreases members, 0
  {
    if members == [] {
      assert acc + NormMembers(members) == acc;
    } else {
      hide Render, Spell, Good, Means, Levels, Values, Height, Count, Norm, Exact, Less;
      var m := Member(members[0].key, Norm(members[0].value));
      PlainPrints(members[0].value);
      InsertLast(acc, m);
      PlainFieldsPrint(members[1..], acc + [m], [SPACE]);
      MoreFields(members, acc, lead, PlainFields(members[1..], [SPACE]));
    }
  }

  function PlainField(m: Member, lead: Bytes): Field {
    Field(lead, PlainChars(m.key), [], Item([SPACE], Plain(m.value), []))
  }

  lemma FieldPrints(m: Member, lead: Bytes)
    requires Blank(lead) && Printed(m.value, Plain(m.value))
    ensures var x := PlainField(m, lead);
      GoodItem(x.item) && GoodField(x) && SpellField(x) == lead + RenderMember(m) && CharsBytes(x.key) == m.key
  {
    hide Render, Spell, Good, Means, Levels, Values, Height, Count, Norm, Plain, PlainChars, CharsText, CharsBytes, Escape;
    var x, text := PlainField(m, lead), Render(m.value);
    assert GoodItem(x.item);
    assert SpellItem(x.item) == [SPACE] + text by { assert text + [] == text; }
    assert lead + (Quoted(m.key) + ([] + ([COLON] + ([SPACE] + text)))) == lead + (Quoted(m.key) + KEY_SEPARATOR + text);
  }

  lemma {:induction false} FieldsText(members: seq<Member>, lead: Bytes, x: Field, rest: seq<Field>)
    requires members != [] && |rest| == |members| - 1 && GoodField(x) && GoodFields(rest)
    requires SpellField(x) == lead + RenderMember(members[0])
    requires SpellFields(rest) == if |members| == 1 then [] else [SPACE] + RenderMembers(members[1..])
    ensures GoodFields([x] + rest) && SpellFields([x] + rest) == lead + RenderMembers(members)
  {
    hide SpellField, RenderMember, GoodField;
    var xs := [x] + rest;
    assert xs[1..] == rest;
    if |members| > 1 {
      var head, tail := RenderMember(members[0]), RenderMembers(members[1..]);
      assert lead + head + ([COMMA] + ([SPACE] + tail)) == lead + (head + SEPARATOR + tail);
    }
  }

  lemma {:induction false} MoreFields(members: seq<Member>, acc: seq<Member>, lead: Bytes, rest: seq<Field>)
    requires members != [] && Blank(lead) && Printed(members[0].value, Plain(members[0].value))
    requires var m := Member(members[0].key, Norm(members[0].value));
      Insert(acc, m) == Some(acc + [m]) && FieldsPrinted(members[1..], acc + [m], [SPACE], rest)
    ensures FieldsPrinted(members, acc, lead, [PlainField(members[0], lead)] + rest)
  {
    hide Render, RenderMembers, Spell, SpellField, SpellFields, RenderMember, Good, GoodItem, GoodField, GoodFields, Means, Levels,
         Values, Height, Count, Norm, Insert, PlainField, MeansFields, FieldsValues, FieldsLevels, CharsBytes, Blank, NormMembers;
    var m, x := Member(members[0].key, Norm(members[0].value)), PlainField(members[0], lead);
    FieldPrints(members[0], lead);
    FieldParts(members[0], lead);
    FieldsText(members, lead, x, rest);
    FieldsAdd(x, rest, acc, acc + [m]);
    NormFirst(members, acc);
  }

  lemma NormFirst(members: seq<Member>, acc: seq<Member>)
    requires members != []
    ensures acc + [Member(members[0].key, Norm(members[0].value))] + NormMembers(members[1..]) == acc + NormMembers(members)
  {
  }

  lemma FieldParts(m: Member, lead: Bytes)
    ensures PlainField(m, lead).item.value == Plain(m.value)
  {
  }

  // The printer: it succeeds exactly up to the nesting limit, and its text is well formed.

  lemma {:induction false} DumpRenders(v: Json, depth: nat)
    requires Exact(v)
    ensures Dump(v, depth) == if depth + Height(v) <= MAX_DEPTH then Success(Render(v)) else Failure(InvalidArgument)
    decreases v, 1
  {
    hide DumpItems, DumpMembers, RenderItems, RenderMembers, ItemsHeight, MembersHeight, Decode, WellFormed, Less;
    match v
    case Str(s) => DecodeIffWellFormed(s);
    case Arr(items) => DumpItemsRender(items, depth + 1);
    case Obj(members) =>
      forall i | 0 <= i < |members| ensures Decode(members[i].key).Some? { DecodeIffWellFormed(members[i].key); }
      DumpMembersRender(members, depth + 1);
    case _ =>
  }

  lemma {:induction false} DumpItemsRender(items: seq<Json>, depth: nat)
    requires forall i :: 0 <= i < |items| ==> Exact(items[i])
    ensures DumpItems(items, depth) == if items == [] || depth + ItemsHeight(items) <= MAX_DEPTH then Success(RenderItems(items)) else Failure(InvalidArgument)
    decreases items, 0
  {
    if items != [] {
      DumpRenders(items[0], depth);
      DumpItemsRender(items[1..], depth);
    }
  }

  lemma {:induction false} DumpMembersRender(members: seq<Member>, depth: nat)
    requires forall i :: 0 <= i < |members| ==> Exact(members[i].value)
    ensures DumpMembers(members, depth) == if members == [] || depth + MembersHeight(members) <= MAX_DEPTH then Success(RenderMembers(members)) else Failure(InvalidArgument)
    decreases members, 0
  {
    if members != [] {
      DumpRenders(members[0].value, depth);
      DumpMembersRender(members[1..], depth);
    }
  }

  lemma {:induction false} EscapeConcat(a: Bytes, b: Bytes)
    ensures Escape(a + b) == Escape(a) + Escape(b)
  {
    if a == [] {
      assert a + b == b;
    } else {
      assert (a + b)[1..] == a[1..] + b;
      EscapeConcat(a[1..], b);
    }
  }

  /** Bytes of longer encodings pass unchanged. */
  lemma {:induction false} EscapeHigh(a: Bytes)
    requires forall i :: 0 <= i < |a| ==> a[i] >= 0x80
    ensures Escape(a) == a
  {
    if a != [] { EscapeHigh(a[1..]); }
  }

  lemma EscapeCharacter(c: int)
    requires IsScalar(c)
    ensures WellFormed(Escape(Encode(c)))
  {
    var e := Encode(c);
    if c <= 0x7F {
      assert e[1..] == [] && Escape(e) == EscapeByte(e[0]) + Escape([]);
      AsciiWellFormed(Escape(e));
    } else {
      EscapeHigh(e);
      AppendedIsAccepted(c);
    }
  }

  lemma {:induction false} EscapeWellFormed(cs: seq<int>)
    requires Scalars(cs)
    ensures WellFormed(Escape(EncodeAll(cs)))
  {
    if cs == [] {
      AsciiWellFormed([]);
    } else {
      EscapeConcat(Encode(cs[0]), EncodeAll(cs[1..]));
      EscapeCharacter(cs[0]);
      EscapeWellFormed(cs[1..]);
      WellFormedConcat(Escape(Encode(cs[0])), Escape(EncodeAll(cs[1..])));
    }
  }

  lemma QuotedWellFormed(s: Bytes)
    requires WellFormed(s)
    ensures WellFormed(Quoted(s))
  {
    var cs :| Scalars(cs) && s == EncodeAll(cs);
    EscapeWellFormed(cs);
    AsciiWellFormed([QUOTE]);
    WellFormedConcat([QUOTE], Escape(s));
    WellFormedConcat([QUOTE] + Escape(s), [QUOTE]);
  }

  lemma Bracketed(open: Byte, body: Bytes, close: Byte)
    requires open < 0x80 && close < 0x80 && WellFormed(body)
    ensures WellFormed([open] + body + [close])
  {
    AsciiWellFormed([open]);
    AsciiWellFormed([close]);
    WellFormedConcat([open], body);
    WellFormedConcat([open] + body, [close]);
  }

  lemma Joined(a: Bytes, b: Bytes, separator: Bytes)
    requires WellFormed(a) && WellFormed(b) && (forall i :: 0 <= i < |separator| ==> separator[i] < 0x80)
    ensures WellFormed(a + separator + b)
  {
    AsciiWellFormed(separator);
    WellFormedConcat(a, separator);
    WellFormedConcat(a + separator, b);
  }

  lemma {:induction false} RenderWellFormed(v: Json)
    requires Exact(v)
    ensures WellFormed(Render(v))
    decreases v, 1
  {
    match v
    case Null => AsciiWellFormed(Render(v));
    case Bool(_) => AsciiWellFormed(Render(v));
    case Int64(i) => DecimalValue(if i < 0 then -i else i); AsciiWellFormed(Render(v));
    case UInt64(u) => DecimalValue(u); AsciiWellFormed(Render(v));
    case Str(s) => QuotedWellFormed(s);
    case Arr(items) => ItemsWellFormed(items); Bracketed(OPEN_ARRAY, RenderItems(items), CLOSE_ARRAY);
    case Obj(members) => MembersWellFormed(members); Bracketed(OPEN_OBJECT, RenderMembers(members), CLOSE_OBJECT);
  }

  lemma {:induction false} ItemsWellFormed(items: seq<Json>)
    requires forall i :: 0 <= i < |items| ==> Exact(items[i])
    ensures WellFormed(RenderItems(items))
    decreases items, 0
  {
    if items == [] {
      AsciiWellFormed([]);
    } else {
      RenderWellFormed(items[0]);
      if |items| > 1 {
        ItemsWellFormed(items[1..]);
        Joined(Render(items[0]), RenderItems(items[1..]), SEPARATOR);
      }
    }
  }

  lemma MemberWellFormed(m: Member)
    requires WellFormed(m.key) && WellFormed(Render(m.value))
    ensures WellFormed(RenderMember(m))
  {
    QuotedWellFormed(m.key);
    Joined(Quoted(m.key), Render(m.value), KEY_SEPARATOR);
  }

  lemma {:induction false} MembersWellFormed(members: seq<Member>)
    requires forall i :: 0 <= i < |members| ==> WellFormed(members[i].key) && Exact(members[i].value)
    ensures WellFormed(RenderMembers(members))
    decreases members, 0
  {
    if members == [] {
      AsciiWellFormed([]);
    } else {
      RenderWellFormed(members[0].value);
      MemberWellFormed(members[0]);
      if |members| > 1 {
        MembersWellFormed(members[1..]);
        Joined(RenderMember(members[0]), RenderMembers(members[1..]), SEPARATOR);
      }
    }
  }

  /** The printer accepts only well-formed strings and keys. */
  lemma {:induction false} AcceptedIsExact(v: Json, depth: nat)
    requires Typed(v) && Dump(v, depth).Success?
    ensures Exact(v)
    decreases v, 1
  {
    match v
    case Str(s) => DecodeIffWellFormed(s);
    case Arr(items) => AcceptedItems(items, depth + 1);
    case Obj(members) =>
      forall i | 0 <= i < |members| ensures WellFormed(members[i].key) { DecodeIffWellFormed(members[i].key); }
      AcceptedMembers(members, depth + 1);
    case _ =>
  }

  lemma {:induction false} AcceptedItems(items: seq<Json>, depth: nat)
    requires (forall i :: 0 <= i < |items| ==> Typed(items[i])) && DumpItems(items, depth).Success?
    ensures forall i :: 0 <= i < |items| ==> Exact(items[i])
    decreases items, 0
  {
    if items != [] {
      AcceptedIsExact(items[0], depth);
      if |items| > 1 { AcceptedItems(items[1..], depth); }
      forall i | 0 <= i < |items| ensures Exact(items[i]) { if i > 0 { assert items[i] == items[1..][i - 1]; } }
    }
  }

  lemma {:induction false} AcceptedMembers(members: seq<Member>, depth: nat)
    requires (forall i :: 0 <= i < |members| ==> Typed(members[i].value)) && DumpMembers(members, depth).Success?
    ensures forall i :: 0 <= i < |members| ==> Exact(members[i].value)
    decreases members, 0
  {
    if members != [] {
      AcceptedIsExact(members[0].value, depth);
      if |members| > 1 { AcceptedMembers(members[1..], depth); }
      forall i | 0 <= i < |members|
        ensures Exact(members[i].value)
      {
        if i > 0 { assert members[i] == members[1..][i - 1]; }
      }
    }
  }

  // The law.

  lemma DocumentMeets(v: Json, n: nat)
    requires Exact(v)
    ensures Meets(ParseDocument(Render(v), n), Norm(v), Height(v), Count(v), |Render(v)|, n, 0)
  {
    hide ParseDocument, Decode, Norm, Height, Count, Meets, Render, WellFormed, Spell, Good, Means, Levels, Values, Plain;
    PlainPrints(v);
    RenderWellFormed(v);
    DecodeIffWellFormed(Render(v));
    var d := Document(false, Item([], Plain(v), []));
    assert GoodItem(d.item);
    assert DocumentText(d) == Render(v) by { assert [] + ([] + (Render(v) + [])) == Render(v); }
    DocumentRead(d, n);
  }

  /**
    What the printer accepts it prints as well-formed UTF-8 that parses back to the same tree, whenever the value limit
    allows that many values; with a smaller limit the parser says TooLarge.
   */
  lemma RoundTrip(v: Json, n: nat, text: Bytes)
    requires Typed(v) && Dump(v, 0) == Success(text)
    ensures WellFormed(text)
    ensures n >= Count(v) ==> ParseDocument(text, n) == Got(Norm(v), |text|, n - Count(v))
    ensures n < Count(v) ==> ParseDocument(text, n) == Fail(TooLarge)
  {
    AcceptedIsExact(v, 0);
    DumpRenders(v, 0);
    RenderWellFormed(v);
    DocumentMeets(v, n);
  }

  /** The two nesting limits coincide: the printer refuses a tree exactly when the parser refuses its text. */
  lemma NestingLimitsCoincide(v: Json, n: nat)
    requires Exact(v) && n >= Count(v)
    ensures Dump(v, 0).Success? <==> ParseDocument(Render(v), n).Got?
    ensures Dump(v, 0).Success? <==> Height(v) <= MAX_DEPTH
    ensures Dump(v, 0).Failure? ==>
      Dump(v, 0) == Failure(InvalidArgument) && ParseDocument(Render(v), n) == Fail(InvalidFormat)
  {
    DumpRenders(v, 0);
    DocumentMeets(v, n);
  }
}
