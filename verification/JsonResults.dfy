/** What the parser can return, for every text and every limit; and that the printer accepts it. */
module JsonResults {
  import opened Common
  import opened Utf8
  import opened JsonNumber
  import opened Numerals
  import opened JsonText
  import opened JsonOrder
  import opened JsonGrammar
  import opened JsonRoundTrip
  import opened JsonStrings

  /** A parsed tree: signed integers are negative, strings and keys are well-formed, and keys are strictly ordered. */
  ghost predicate Canonical(v: Json) {
    match v
    case Int64(i) => -0x8000_0000_0000_0000 <= i < 0
    case UInt64(u) => u <= 0xFFFF_FFFF_FFFF_FFFF
    case Str(s) => WellFormed(s)
    case Arr(items) => forall i :: 0 <= i < |items| ==> Canonical(items[i])
    case Obj(members) => CanonicalMembers(members)
    case _ => true
  }

  ghost predicate CanonicalMembers(members: seq<Member>) {
    Ordered(members) && forall i :: 0 <= i < |members| ==> WellFormed(members[i].key) && Canonical(members[i].value)
  }

  predicate NoDouble(v: Json) {
    match v
    case Double(_) => false
    case Arr(items) => forall i :: 0 <= i < |items| ==> NoDouble(items[i])
    case Obj(members) => forall i :: 0 <= i < |members| ==> NoDouble(members[i].value)
    case _ => true
  }

  // Growing trees.

  lemma {:induction false} ItemsGrow(items: seq<Json>, v: Json)
    ensures ItemsHeight(items + [v]) == Max(ItemsHeight(items), Height(v))
    ensures ItemsCount(items + [v]) == ItemsCount(items) + Count(v)
  {
    if items == [] {
      assert [v][1..] == [];
      assert items + [v] == [v];
    } else {
      ItemsGrow(items[1..], v);
      assert (items + [v])[1..] == items[1..] + [v];
    }
  }

  lemma {:induction false} InsertGrows(members: seq<Member>, m: Member)
    requires Insert(members, m).Some?
    ensures MembersHeight(Insert(members, m).value) == Max(MembersHeight(members), Height(m.value))
    ensures MembersCount(Insert(members, m).value) == MembersCount(members) + Count(m.value)
  {
    if members == [] {
      assert [m][1..] == [];
    } else if Less(m.key, members[0].key) {
      assert ([m] + members)[1..] == members;
    } else {
      InsertGrows(members[1..], m);
      var rest := Insert(members[1..], m).value;
      assert ([members[0]] + rest)[1..] == rest;
    }
  }

  lemma InsertCanonical(members: seq<Member>, m: Member)
    requires CanonicalMembers(members) && WellFormed(m.key) && Canonical(m.value) && Insert(members, m).Some?
    ensures CanonicalMembers(Insert(members, m).value)
  {
    hide WellFormed, Ordered, Insert;
    var r := Insert(members, m).value;
    InsertOrdered(members, m);
    forall i | 0 <= i < |r| ensures WellFormed(r[i].key) && Canonical(r[i].value) { InsertMembers(members, m, r[i]); }
  }

  // The parser.

  /** A value was returned: it fits below `depth`, and exactly its values were taken from the limit. */
  ghost predicate Yields(r: Outcome<Json>, left: nat, depth: nat) {
    r.Got? ==> Canonical(r.value) && depth + Height(r.value) <= MAX_DEPTH && Count(r.value) + r.left == left
  }

  lemma {:induction false} LeadingDigit(s: Bytes)
    requires s != [] && Digits(s) && s[0] != ZERO
    ensures Value(s) > 0
  {
    if |s| > 1 { LeadingDigit(s[..|s| - 1]); }
  }

  lemma NumberCanonical(text: Bytes, pos: nat, left: nat)
    requires pos < |text| && ParseNumber(text, pos, left).Got?
    ensures var r := ParseNumber(text, pos, left);
      Canonical(r.value) && Height(r.value) == 0 && Count(r.value) == 1 && r.left == left
  {
    var start := if text[pos] == MINUS then pos + 1 else pos;
    var p1 := WholeEnd(text, start).value;
    var p3 := ExponentEnd(text, FractionEnd(text, p1).value).value;
    if p3 == p1 && text[pos] == MINUS {
      var token := text[pos..p3];
      TokenDigits(text, pos, p3);
      if text[start] == ZERO {
        assert token == [MINUS, ZERO];
      } else {
        LeadingDigit(token[1..]);
      }
    }
  }

  lemma ScalarCanonical(text: Bytes, pos: nat, left: nat)
    requires Decode(text).Some? && pos < |text| && ParseScalar(text, pos, left).Got?
    ensures var r := ParseScalar(text, pos, left);
      Canonical(r.value) && Height(r.value) == 0 && Count(r.value) == 1 && r.left == left
  {
    hide WellFormed, ParseString, ParseNumber, HasLiteral;
    if text[pos] == QUOTE {
      StringWellFormed(text, pos);
    } else if text[pos] == MINUS || IsDigit(text[pos]) {
      NumberCanonical(text, pos, left);
    }
  }

  lemma {:induction false} ValueYields(text: Bytes, pos: nat, left: nat, depth: nat)
    requires Decode(text).Some?
    ensures Yields(ParseValue(text, pos, left, depth), left, depth)
    decreases |text| - pos, 1
  {
    hide ParseArray, ParseObject, ParseScalar, Canonical, Decode;
    if depth <= MAX_DEPTH && pos < |text| && left > 0 && ParseKind(text, pos, left - 1, depth).Got? {
      if text[pos] == OPEN_ARRAY {
        ArrayYields(text, pos + 1, left - 1, depth);
      } else if text[pos] == OPEN_OBJECT {
        ObjectYields(text, pos + 1, left - 1, depth);
      } else {
        ScalarCanonical(text, pos, left - 1);
      }
    }
  }

  /** The elements so far, and what they took from the limit. */
  ghost predicate ItemsSoFar(acc: seq<Json>, depth: nat) {
    acc != [] ==> (forall i :: 0 <= i < |acc| ==> Canonical(acc[i])) && depth + ItemsHeight(acc) <= MAX_DEPTH
  }

  ghost predicate ItemsYield(r: Outcome<Json>, acc: seq<Json>, left: nat, depth: nat) {
    r.Got? ==>
      && r.value.Arr? && r.value.items != [] && ItemsSoFar(r.value.items, depth)
      && ItemsCount(r.value.items) + r.left == left + ItemsCount(acc)
  }

  lemma ArrayYields(text: Bytes, pos: nat, left: nat, depth: nat)
    requires Decode(text).Some? && depth <= MAX_DEPTH
    ensures Yields(ParseArray(text, pos, left, depth + 1), left + 1, depth)
    decreases |text| - pos, 3
  {
    hide ParseItems, Decode;
    var p := SkipSpace(text, pos);
    if !Is(text, p, CLOSE_ARRAY) { ItemsParsedYield(text, p, left, depth + 1, []); }
  }

  lemma {:induction false} ItemsParsedYield(text: Bytes, pos: nat, left: nat, depth: nat, acc: seq<Json>)
    requires Decode(text).Some? && ItemsSoFar(acc, depth)
    ensures ItemsYield(ParseItems(text, pos, left, depth, acc), acc, left, depth)
    decreases |text| - pos, 2
  {
    hide ParseValue, Decode, Canonical, Height, Count, ItemsHeight, ItemsCount;
    var first := ParseValue(text, pos, left, depth);
    ValueYields(text, pos, left, depth);
    if first.Got? {
      var acc2 := acc + [first.value];
      ItemsGrow(acc, first.value);
      ItemsEmpty();
      AfterItemYields(text, first.pos, first.left, depth, acc2);
    }
  }

  lemma ItemsEmpty()
    ensures ItemsHeight([]) == 0 && ItemsCount([]) == 0 && MembersHeight([]) == 0 && MembersCount([]) == 0
  {
  }

  lemma AfterItemYields(text: Bytes, pos: nat, left: nat, depth: nat, acc: seq<Json>)
    requires Decode(text).Some? && acc != [] && ItemsSoFar(acc, depth)
    ensures ItemsYield(AfterItem(text, pos, left, depth, acc), acc, left, depth)
    decreases |text| - pos, 2
  {
    hide ParseItems, Decode, Canonical, ItemsSoFar, ItemsHeight, ItemsCount;
    var p := SkipSpace(text, pos);
    if !Is(text, p, CLOSE_ARRAY) && Is(text, p, COMMA) { ItemsParsedYield(text, SkipSpace(text, p + 1), left, depth, acc); }
  }

  ghost predicate MembersSoFar(acc: seq<Member>, depth: nat) {
    acc != [] ==> CanonicalMembers(acc) && depth + MembersHeight(acc) <= MAX_DEPTH
  }

  ghost predicate MembersYield(r: Outcome<Json>, acc: seq<Member>, left: nat, depth: nat) {
    r.Got? ==>
      && r.value.Obj? && r.value.members != [] && MembersSoFar(r.value.members, depth)
      && MembersCount(r.value.members) + r.left == left + MembersCount(acc)
  }

  lemma ObjectYields(text: Bytes, pos: nat, left: nat, depth: nat)
    requires Decode(text).Some? && depth <= MAX_DEPTH
    ensures Yields(ParseObject(text, pos, left, depth + 1), left + 1, depth)
    decreases |text| - pos, 3
  {
    hide ParseMembers, Decode;
    var p := SkipSpace(text, pos);
    if !Is(text, p, CLOSE_OBJECT) { MembersParsedYield(text, p, left, depth + 1, []); }
  }

  lemma {:induction false} MembersParsedYield(text: Bytes, pos: nat, left: nat, depth: nat, acc: seq<Member>)
    requires Decode(text).Some? && MembersSoFar(acc, depth)
    ensures MembersYield(ParseMembers(text, pos, left, depth, acc), acc, left, depth)
    decreases |text| - pos, 2
  {
    hide ParseMember, Decode, WellFormed, MembersSoFar, MembersCount, ParseString;
    if ParseString(text, pos).Some? {
      StringWellFormed(text, pos);
      var (key, next) := ParseString(text, pos).value;
      var p := SkipSpace(text, next);
      if Is(text, p, COLON) { MemberYields(text, SkipSpace(text, p + 1), left, depth, acc, key); }
    }
  }

  lemma MemberYields(text: Bytes, pos: nat, left: nat, depth: nat, acc: seq<Member>, key: Bytes)
    requires Decode(text).Some? && MembersSoFar(acc, depth) && WellFormed(key)
    ensures MembersYield(ParseMember(text, pos, left, depth, acc, key), acc, left, depth)
    decreases |text| - pos, 2
  {
    hide ParseValue, Decode, WellFormed, Canonical, CanonicalMembers, Height, Count, MembersHeight, MembersCount, Insert;
    var first := ParseValue(text, pos, left, depth);
    ValueYields(text, pos, left, depth);
    if first.Got? {
      var m := Member(key, first.value);
      if Insert(acc, m).Some? {
        NoMembers();
        InsertGrows(acc, m);
        InsertCanonical(acc, m);
        InsertNotEmpty(acc, m);
        ItemsEmpty();
        AfterMemberYields(text, first.pos, first.left, depth, Insert(acc, m).value);
      }
    }
  }

  lemma NoMembers()
    ensures CanonicalMembers([])
  {
  }

  lemma InsertNotEmpty(acc: seq<Member>, m: Member)
    requires Insert(acc, m).Some?
    ensures Insert(acc, m).value != []
  {
  }

  lemma AfterMemberYields(text: Bytes, pos: nat, left: nat, depth: nat, acc: seq<Member>)
    requires Decode(text).Some? && acc != [] && MembersSoFar(acc, depth)
    ensures MembersYield(AfterMember(text, pos, left, depth, acc), acc, left, depth)
    decreases |text| - pos, 2
  {
    hide ParseMembers, Decode, MembersSoFar, MembersHeight, MembersCount;
    var p := SkipSpace(text, pos);
    if !Is(text, p, CLOSE_OBJECT) && Is(text, p, COMMA) { MembersParsedYield(text, SkipSpace(text, p + 1), left, depth, acc); }
  }

  // The law.

  lemma {:induction false} CanonicalIsExact(v: Json)
    requires Canonical(v) && NoDouble(v)
    ensures Exact(v) && Norm(v) == v
    decreases v
  {
    match v
    case Arr(items) =>
      forall i | 0 <= i < |items| ensures Exact(items[i]) && Norm(items[i]) == items[i] { CanonicalIsExact(items[i]); }
      ItemsNormal(items);
    case Obj(members) =>
      forall i | 0 <= i < |members| ensures Exact(members[i].value) && Norm(members[i].value) == members[i].value {
        CanonicalIsExact(members[i].value);
      }
      MembersNormal(members);
    case _ =>
  }

  lemma {:induction false} ItemsNormal(items: seq<Json>)
    requires forall i :: 0 <= i < |items| ==> Norm(items[i]) == items[i]
    ensures NormItems(items) == items
  {
    if items != [] { ItemsNormal(items[1..]); }
  }

  lemma {:induction false} MembersNormal(members: seq<Member>)
    requires forall i :: 0 <= i < |members| ==> Norm(members[i].value) == members[i].value
    ensures NormMembers(members) == members
  {
    if members != [] { MembersNormal(members[1..]); }
  }

  /**
    Whatever text is accepted within whatever limit, the tree respects both limits and the order and spelling of its
    strings.
   */
  lemma ParsedIsCanonical(text: Bytes, n: nat)
    requires ParseDocument(text, n).Got?
    ensures var r := ParseDocument(text, n);
      Canonical(r.value) && Height(r.value) <= MAX_DEPTH && Count(r.value) + r.left == n
  {
    hide ParseValue, Decode, Canonical, Height, Count;
    ValueYields(text, SkipSpace(text, AfterMark(text)), n, 0);
  }

  /** A parsed tree without doubles is accepted by the printer, and its text parses to the very same tree. */
  lemma ParsedPrintsAndParses(text: Bytes, n: nat, m: nat)
    requires ParseDocument(text, n).Got? && NoDouble(ParseDocument(text, n).value)
    ensures var v := ParseDocument(text, n).value;
      && Exact(v) && Dump(v, 0) == Success(Render(v)) && WellFormed(Render(v)) && Count(v) <= n
      && (m >= Count(v) ==> ParseDocument(Render(v), m) == Got(v, |Render(v)|, m - Count(v)))
  {
    hide ParseDocument, Canonical, NoDouble, Exact, Dump, Render, Height, Count, WellFormed;
    var v := ParseDocument(text, n).value;
    ParsedIsCanonical(text, n);
    CanonicalIsExact(v);
    DumpRenders(v, 0);
    ExactIsTyped(v);
    RoundTrip(v, m, Render(v));
  }

  lemma {:induction false} ExactIsTyped(v: Json)
    requires Exact(v)
    ensures Typed(v)
    decreases v
  {
    match v
    case Arr(items) => forall i | 0 <= i < |items| ensures Typed(items[i]) { ExactIsTyped(items[i]); }
    case Obj(members) => forall i | 0 <= i < |members| ensures Typed(members[i].value) { ExactIsTyped(members[i].value); }
    case _ =>
  }
}
