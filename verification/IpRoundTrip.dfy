/** Reading what was written gives the address back, for every address and every place of the double colon. */
module IpRoundTrip {
  import opened Common
  import opened Utf8
  import opened Numerals
  import opened IpAddress
  import opened IpPieces
  import opened IpGrammar

  // The form the writer chooses: lower case, no leading zeros.

  function Lower(n: nat): (g: Group)
    ensures GoodDigits(g) && GroupText(g) == HexText(n) && GroupValue(g) == n && g != []
  {
    if n < 16 then
      var g := [Digit(n, false)];
      assert g[..0] == [];
      g
    else
      var g := Lower(n / 16) + [Digit(n % 16, false)];
      assert g[..|g| - 1] == Lower(n / 16);
      g
  }

  lemma LowerShort(n: nat)
    requires n <= 0xFFFF
    ensures GoodGroup(Lower(n))
  {
    if n >= 16 { Under(n / 16, 3); }
  }

  lemma {:induction false} Under(n: nat, k: nat)
    requires 1 <= k <= 3 && n < (if k == 1 then 16 else if k == 2 then 256 else 4096)
    ensures 1 <= |Lower(n)| <= k
  {
    if n >= 16 { Under(n / 16, k - 1); }
  }

  function Written(ws: seq<int>): (s: Side)
    requires AllWords(ws)
    ensures s.tail.None? && |s.groups| == |ws|
  {
    if ws == [] then Side([], None) else Side([Lower(ws[0])] + Written(ws[1..]).groups, None)
  }

  lemma {:induction false} WrittenSide(ws: seq<int>)
    requires AllWords(ws)
    ensures var s := Written(ws); GoodSide(s) && SideText(s) == Join(ws) && SideWords(s) == ws
  {
    hide Lower, HexText, GroupText, GroupValue;
    if ws != [] {
      WrittenSide(ws[1..]);
      LowerShort(ws[0]);
      var s := Written(ws);
      assert s.groups[1..] == Written(ws[1..]).groups && Rest(s) == Written(ws[1..]);
      assert [ws[0]] + ws[1..] == ws;
    }
  }

  lemma {:induction false} JoinPlain(ws: seq<int>)
    requires AllWords(ws)
    ensures Plain(Join(ws)) && |Join(ws)| <= 5 * |ws| && (ws != [] ==> Join(ws) != [])
  {
    hide Plain, HexText, SideText, Lower;
    WrittenSide(ws);
    SidePlain(Written(ws));
    if ws != [] {
      LowerShort(ws[0]);
      JoinPlain(ws[1..]);
    }
  }

  lemma ZoneFacts(scope: nat)
    requires scope <= 0xFFFF_FFFF
    ensures Digits(Decimal(scope)) && Decimal(scope) != [] && Value(Decimal(scope)) == scope && |Decimal(scope)| <= 10
  {
    DecimalValue(scope);
    assert Pow10(2) == 100 && Pow10(4) == 10000 && Pow10(6) == 1000000 && Pow10(8) == 100000000;
    assert Pow10(10) == 10000000000;
    DecimalShort(scope, 10);
  }

  lemma Filled(ws: seq<int>, best: nat, length: nat)
    requires IsRun(ws, best, length) && best < 8
    ensures ws[..best] + Zeros(length) + ws[best + length..] == ws
  {
  }

  // Addresses.

  /** Every version 4 address survives writing and reading. */
  lemma V4RoundTrip(a: Address)
    requires IsV4(a)
    ensures Parse(V4Text(a.bytes)) == Some(a)
  {
    hide V4Text, Parse;
    V4HasNoColon(a.bytes);
    FormRead(Dotted(a.bytes));
  }

  function Zone(scope: nat): Option<Bytes> { if scope == 0 then None else Some(Decimal(scope)) }

  /** The form of a version 6 address with a run of zeros left out, or with none. */
  function V6Form(ws: seq<int>, best: nat, length: nat, scope: nat): Form
    requires AllWords(ws) && best <= |ws| && best + length <= |ws|
  {
    if best == |ws| then Full(Written(ws), Zone(scope))
    else Gapped(Written(ws[..best]), Written(ws[best + length..]), Zone(scope))
  }

  lemma ZoneIs(scope: nat)
    requires scope <= 0xFFFF_FFFF
    ensures GoodZone(Zone(scope)) && Scope(Zone(scope)) == scope && ZoneSuffix(Zone(scope)) == ZoneText(scope)
    ensures |ZoneText(scope)| <= 11
  {
    hide Decimal;
    ZoneFacts(scope);
  }

  lemma FullIs(ws: seq<int>, scope: nat)
    requires AllWords(ws) && |ws| == 8 && scope <= 0xFFFF_FFFF
    ensures var f := Full(Written(ws), Zone(scope));
      && GoodForm(f) && FormText(f) == Join(ws) + ZoneText(scope) && |FormText(f)| <= 64 && FormAddress(f) == V6(ws, scope)
  {
    hide SideText, SideWords, GoodSide, Join, Plain, Written, Zone, ZoneText, ZoneSuffix, GoodZone, Scope;
    ZoneIs(scope);
    WrittenSide(ws);
    JoinPlain(ws);
  }

  lemma GappedIs(ws: seq<int>, best: nat, length: nat, scope: nat)
    requires AllWords(ws) && IsRun(ws, best, length) && best < 8 && scope <= 0xFFFF_FFFF
    ensures var left, right := ws[..best], ws[best + length..];
      var f := Gapped(Written(left), Written(right), Zone(scope));
      && GoodForm(f) && FormText(f) == Join(left) + [COLON, COLON] + Join(right) + ZoneText(scope) && |FormText(f)| <= 64
      && FormAddress(f) == V6(ws, scope)
  {
    hide SideText, SideWords, GoodSide, Join, Plain, Written, Zone, ZoneText, ZoneSuffix, GoodZone, Scope;
    var left, right := ws[..best], ws[best + length..];
    ZoneIs(scope);
    WrittenSide(left);
    WrittenSide(right);
    JoinPlain(left);
    JoinPlain(right);
    Filled(ws, best, length);
  }

  lemma V6FormIs(ws: seq<int>, best: nat, length: nat, scope: nat)
    requires AllWords(ws) && IsRun(ws, best, length) && scope <= 0xFFFF_FFFF
    ensures var f := V6Form(ws, best, length, scope);
      && GoodForm(f) && FormText(f) == V6Text(ws, best, length) + ZoneText(scope) && |FormText(f)| <= 64
      && FormAddress(f) == V6(ws, scope)
  {
    hide GoodForm, FormText, FormAddress, Join, Written, Zone, ZoneText;
    if best == 8 { FullIs(ws, scope); } else { GappedIs(ws, best, length, scope); }
  }

  /** Every version 6 address survives, with any scope and wherever a run of zeros is left out. */
  lemma V6RoundTrip(a: Address, best: nat, length: nat)
    requires IsV6(a) && IsRun(a.words, best, length)
    ensures Parse(V6Text(a.words, best, length) + ZoneText(a.scope)) == Some(a)
  {
    hide V6Text, Parse, ZoneText, FormText, FormAddress, GoodForm, V6Form;
    V6FormIs(a.words, best, length, a.scope);
    FormRead(V6Form(a.words, best, length, a.scope));
  }

  /** The sixteen stored bytes determine the words. */
  lemma {:induction false} BytesInjective(a: seq<int>, b: seq<int>)
    requires AllWords(a) && AllWords(b) && Bytes16(a) == Bytes16(b)
    ensures a == b
  {
    if a == [] {
      assert b != [] ==> |Bytes16(b)| >= 2;
    } else {
      assert |Bytes16(a)| >= 2 && b != [];
      assert Bytes16(a)[0] == a[0] / 256 && Bytes16(a)[1] == a[0] % 256 && Bytes16(b)[0] == b[0] / 256;
      assert Bytes16(b)[1] == b[0] % 256;
      assert Bytes16(a)[2..] == Bytes16(a[1..]) && Bytes16(b)[2..] == Bytes16(b[1..]);
      BytesInjective(a[1..], b[1..]);
    }
  }

  // What is read is an address.

  lemma GroupBounded(g: Group)
    requires GoodGroup(g)
    ensures 0 <= GroupValue(g) <= 0xFFFF
  {
    HexBounded(g, |g|);
    assert Pow16(0) == 1 && Pow16(1) == 16 && Pow16(2) == 256 && Pow16(3) == 4096 && Pow16(4) == 65536;
  }

  function Pow16(n: nat): nat { if n == 0 then 1 else 16 * Pow16(n - 1) }

  lemma {:induction false} HexBounded(g: Group, n: nat)
    requires GoodDigits(g) && n == |g|
    ensures 0 <= GroupValue(g) < Pow16(n)
    decreases n
  {
    if g != [] { HexBounded(g[..|g| - 1], n - 1); }
  }

  lemma {:induction false} SideTyped(s: Side)
    requires GoodSide(s)
    ensures AllWords(SideWords(s))
    decreases |s.groups|
  {
    hide GroupValue;
    if s.groups != [] {
      GroupBounded(s.groups[0]);
      SideTyped(Rest(s));
    }
  }

  /** Whatever text is accepted, the result is an address. */
  lemma ParsedIsAddress(text: Bytes)
    requires Parse(text).Some?
    ensures IsV4(Parse(text).value) || IsV6(Parse(text).value)
  {
    hide Parse, SideText, SideWords, GoodSide, FormText;
    var f := FormSpelled(text);
    match f
    case Dotted(_) =>
    case Full(side, _) => SideTyped(side);
    case Gapped(left, right, _) => SideTyped(left); SideTyped(right);
  }

  /** Reading, writing with any run of zeros left out, and reading again gives what was read the first time. */
  lemma RereadIsSame(text: Bytes, best: nat, length: nat)
    requires Parse(text).Some?
    ensures var a := Parse(text).value;
      && (a.V4? ==> IsV4(a) && Parse(V4Text(a.bytes)) == Some(a))
      && (a.V6? && IsRun(a.words, best, length) ==> IsV6(a) && Parse(V6Text(a.words, best, length) + ZoneText(a.scope)) == Some(a))
  {
    hide Parse;
    ParsedIsAddress(text);
    var a := Parse(text).value;
    if a.V4? { V4RoundTrip(a); } else if IsRun(a.words, best, length) { V6RoundTrip(a, best, length); }
  }
}
