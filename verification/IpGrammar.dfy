/**
The texts of an address, written from their parts: decimal bytes, hexadecimal groups of either case and with
leading zeros, the double colon, an IPv4 tail and a zone, as section 2.2 of RFC 4291 describes them.  The
parser accepts exactly these texts.
*/
module IpGrammar {
  import opened Common
  import opened Utf8
  import opened Numerals
  import opened IpAddress
  import opened IpPieces

  // The forms.

  datatype Digit = Digit(value: int, upper: bool)
  type Group = seq<Digit>

  predicate GoodDigits(g: Group) { forall i :: 0 <= i < |g| ==> 0 <= g[i].value < 16 }
  predicate GoodGroup(g: Group) { 1 <= |g| <= 4 && GoodDigits(g) }

  function GroupText(g: Group): (s: Bytes)
    requires GoodDigits(g)
    ensures |s| == |g|
  {
    if g == [] then [] else GroupText(g[..|g| - 1]) + [HexChar(g[|g| - 1].value, g[|g| - 1].upper)]
  }

  function GroupValue(g: Group): int
    requires GoodDigits(g)
  {
    if g == [] then 0 else GroupValue(g[..|g| - 1]) * 16 + g[|g| - 1].value
  }

  /** One side of the double colon, or the whole: groups, and perhaps the four bytes of an IPv4 address. */
  datatype Side = Side(groups: seq<Group>, tail: Option<seq<int>>)

  predicate Quad(b: seq<int>) { |b| == 4 && forall i :: 0 <= i < 4 ==> 0 <= b[i] <= 255 }
  predicate GoodSide(s: Side) {
    (forall i :: 0 <= i < |s.groups| ==> GoodGroup(s.groups[i])) && (s.tail.Some? ==> Quad(s.tail.value))
  }

  function Rest(s: Side): Side
    requires s.groups != []
  {
    s.(groups := s.groups[1..])
  }

  function SideText(s: Side): Bytes
    requires GoodSide(s)
    decreases |s.groups|
  {
    if s.groups == [] then (if s.tail.Some? then V4Text(s.tail.value) else [])
    else if |s.groups| == 1 && s.tail.None? then GroupText(s.groups[0])
    else GroupText(s.groups[0]) + [COLON] + SideText(Rest(s))
  }

  /** The words of a side: the groups, then the first two and the last two bytes of the IPv4 address. */
  function SideWords(s: Side): seq<int>
    requires GoodSide(s)
    decreases |s.groups|
  {
    if s.groups == [] then
      (if s.tail.Some? then [s.tail.value[0] * 256 + s.tail.value[1], s.tail.value[2] * 256 + s.tail.value[3]] else [])
    else [GroupValue(s.groups[0])] + SideWords(Rest(s))
  }

  datatype Form =
    | Dotted(bytes: seq<int>)
    | Full(side: Side, zone: Option<Bytes>)
    | Gapped(left: Side, right: Side, zone: Option<Bytes>)

  predicate GoodZone(z: Option<Bytes>) { z.Some? ==> z.value != [] && Digits(z.value) && Value(z.value) <= 0xFFFF_FFFF }

  predicate GoodForm(f: Form) {
    match f
    case Dotted(b) => Quad(b)
    case Full(side, zone) => GoodSide(side) && |SideWords(side)| == 8 && GoodZone(zone)
    case Gapped(left, right, zone) =>
      && GoodSide(left) && left.tail.None? && GoodSide(right) && |SideWords(left)| + |SideWords(right)| < 8
      && GoodZone(zone)
  }

  function ZoneSuffix(z: Option<Bytes>): Bytes { if z.None? then [] else [PERCENT] + z.value }
  function Scope(z: Option<Bytes>): nat
    requires GoodZone(z)
  {
    if z.None? then 0 else Value(z.value)
  }

  function WordsText(f: Form): Bytes
    requires GoodForm(f) && !f.Dotted?
  {
    if f.Full? then SideText(f.side) else SideText(f.left) + [COLON, COLON] + SideText(f.right)
  }

  function FormText(f: Form): Bytes
    requires GoodForm(f)
  {
    if f.Dotted? then V4Text(f.bytes) else WordsText(f) + ZoneSuffix(f.zone)
  }

  function FormWords(f: Form): seq<int>
    requires GoodForm(f) && !f.Dotted?
  {
    if f.Full? then SideWords(f.side)
    else var l, r := SideWords(f.left), SideWords(f.right); l + Zeros(8 - |l| - |r|) + r
  }

  function FormAddress(f: Form): Address
    requires GoodForm(f)
  {
    if f.Dotted? then V4(f.bytes) else V6(FormWords(f), Scope(f.zone))
  }

  // Reading the forms.

  /** Digits of either case are read as their number. */
  lemma {:induction false} GroupRead(g: Group)
    requires GoodDigits(g)
    ensures ReadHex(GroupText(g)) == Some(GroupValue(g))
  {
    if g != [] {
      var init, last := g[..|g| - 1], g[|g| - 1];
      GroupRead(init);
      HexCharValue(last.value, last.upper);
      HexSnoc(GroupText(init), HexChar(last.value, last.upper));
      hide HexChar, HexValue, ReadHex;
    }
  }

  lemma HexSnoc(init: Bytes, b: Byte)
    requires ReadHex(init).Some? && HexValue(b).Some?
    ensures ReadHex(init + [b]) == Some(ReadHex(init).value * 16 + HexValue(b).value)
  {
    assert (init + [b])[..|init|] == init;
  }

  predicate HexByte(b: Byte) { 48 <= b <= 57 || 65 <= b <= 70 || 97 <= b <= 102 }

  lemma {:induction false} GroupBytes(g: Group)
    requires GoodDigits(g)
    ensures forall i :: 0 <= i < |g| ==> HexByte(GroupText(g)[i])
  {
    if g != [] { GroupBytes(g[..|g| - 1]); }
  }

  lemma GroupPlain(g: Group)
    requires GoodDigits(g)
    ensures Plain(GroupText(g)) && DOT !in GroupText(g) && COLON !in GroupText(g)
  {
    GroupBytes(g);
    hide GroupText;
  }

  lemma GroupStep(g: Group, rest: Bytes, allowV4: bool, acc: seq<int>)
    requires GoodGroup(g) && |acc| < 8 && rest != []
    ensures ReadWord(GroupText(g) + [COLON] + rest, allowV4, acc) == ReadWord(rest, allowV4, acc + [GroupValue(g)])
  {
    hide ReadHex, GroupText, GroupValue, ReadV4, Plain;
    GroupRead(g);
    GroupPlain(g);
    FindAfter(GroupText(g), COLON, rest);
    Cut(GroupText(g), COLON, rest);
  }

  lemma LastGroup(g: Group, allowV4: bool, acc: seq<int>)
    requires GoodGroup(g) && |acc| < 8
    ensures ReadWord(GroupText(g), allowV4, acc) == Some(acc + [GroupValue(g)])
  {
    hide ReadHex, GroupText, GroupValue, ReadV4, Plain;
    GroupRead(g);
    GroupPlain(g);
    FindAbsent(GroupText(g), COLON);
    assert GroupText(g)[..|GroupText(g)|] == GroupText(g);
  }

  lemma QuadFacts(b: seq<int>)
    requires Quad(b)
    ensures Plain(V4Text(b)) && DOT in V4Text(b) && COLON !in V4Text(b) && PERCENT !in V4Text(b) && V4Text(b) != []
  {
    hide Decimal;
    DecimalValue(b[0]);
    DecimalValue(b[1]);
    DecimalValue(b[2]);
    DecimalValue(b[3]);
    V4HasNoColon(b);
    var s := V4Text(b);
    assert s[|Decimal(b[0])|] == DOT;
    forall i | 0 <= i < |s| ensures s[i] == DOT || IsDigit(s[i]) { }
  }

  /** An embedded IPv4 address stands for two words, and only at the end. */
  lemma TailRead(b: seq<int>, acc: seq<int>)
    requires Quad(b) && |acc| <= 6
    ensures ReadWord(V4Text(b), true, acc) == Some(acc + [b[0] * 256 + b[1], b[2] * 256 + b[3]])
  {
    hide V4Text, ReadV4, Plain;
    QuadFacts(b);
    V4Read(b);
    FindAbsent(V4Text(b), COLON);
    assert V4Text(b)[..|V4Text(b)|] == V4Text(b);
  }

  lemma {:induction false} SideNotEmpty(s: Side)
    requires GoodSide(s)
    ensures SideText(s) != [] <==> s.groups != [] || s.tail.Some?
  {
    hide V4Text;
    if s.groups == [] && s.tail.Some? { QuadFacts(s.tail.value); }
  }

  lemma {:induction false} SideRead(s: Side, allowV4: bool, acc: seq<int>)
    requires GoodSide(s) && SideText(s) != [] && |acc| + |SideWords(s)| <= 8 && (s.tail.Some? ==> allowV4)
    ensures ReadWord(SideText(s), allowV4, acc) == Some(acc + SideWords(s))
    decreases |s.groups|
  {
    hide ReadWord, GroupText, GroupValue, V4Text;
    if s.groups == [] {
      TailRead(s.tail.value, acc);
    } else if |s.groups| == 1 && s.tail.None? {
      assert SideWords(Rest(s)) == [];
      LastGroup(s.groups[0], allowV4, acc);
      assert [GroupValue(s.groups[0])] + [] == [GroupValue(s.groups[0])];
    } else {
      SideNotEmpty(Rest(s));
      GroupStep(s.groups[0], SideText(Rest(s)), allowV4, acc);
      SideRead(Rest(s), allowV4, acc + [GroupValue(s.groups[0])]);
      assert acc + [GroupValue(s.groups[0])] + SideWords(Rest(s)) == acc + SideWords(s);
    }
  }

  lemma SidesRead(s: Side, allowV4: bool)
    requires GoodSide(s) && |SideWords(s)| <= 8 && (s.tail.Some? ==> allowV4)
    ensures ReadWords(SideText(s), allowV4, []) == Some(SideWords(s))
  {
    hide ReadWord, GroupText, V4Text;
    SideNotEmpty(s);
    if SideText(s) != [] {
      SideRead(s, allowV4, []);
      assert [] + SideWords(s) == SideWords(s);
    }
  }

  lemma {:induction false} SidePlain(s: Side)
    requires GoodSide(s)
    ensures Plain(SideText(s))
    ensures |SideWords(s)| > 2 ==> COLON in SideText(s)
    decreases |s.groups|
  {
    hide GroupText, V4Text, Plain, GroupValue;
    SideNotEmpty(s);
    if s.groups == [] {
      if s.tail.Some? { QuadFacts(s.tail.value); } else { EmptyPlain(); }
    } else {
      GroupPlain(s.groups[0]);
      SidePlain(Rest(s));
      SideNotEmpty(Rest(s));
      if !(|s.groups| == 1 && s.tail.None?) {
        PlainPair(GroupText(s.groups[0]), SideText(Rest(s)));
        assert SideText(s)[|GroupText(s.groups[0])|] == COLON;
      }
    }
  }

  lemma WordsTextRead(f: Form)
    requires GoodForm(f) && !f.Dotted?
    ensures ReadV6(WordsText(f)) == Some(FormWords(f)) && COLON in WordsText(f) && PERCENT !in WordsText(f)
    ensures WordsText(f) != []
  {
    hide ReadWords, SideText, SideWords, Plain;
    if f.Full? {
      SidePlain(f.side);
      PlainNoPair(SideText(f.side));
      SidesRead(f.side, true);
    } else {
      SidePlain(f.left);
      SidePlain(f.right);
      OnePair(SideText(f.left), SideText(f.right));
      PlainNoPair(SideText(f.left));
      PlainNoPair(SideText(f.right));
      SidesRead(f.left, false);
      SidesRead(f.right, true);
      assert WordsText(f)[|SideText(f.left)|] == COLON;
    }
  }

  lemma ColonStays(s: Bytes, rest: Bytes)
    requires COLON in s
    ensures COLON in s + rest
  {
    var i :| 0 <= i < |s| && s[i] == COLON;
    assert (s + rest)[i] == COLON;
  }

  lemma ZonedRead(s: Bytes, zone: Option<Bytes>)
    requires COLON in s && PERCENT !in s && s != [] && GoodZone(zone) && |s + ZoneSuffix(zone)| <= 64
    ensures Parse(s + ZoneSuffix(zone)) == match ReadV6(s) case None => None case Some(ws) => Some(V6(ws, Scope(zone)))
  {
    hide ReadV6, ReadV4;
    var text := s + ZoneSuffix(zone);
    ColonStays(s, ZoneSuffix(zone));
    if zone.None? {
      assert text == s && s[..|s|] == s;
      FindAbsent(s, PERCENT);
      assert [ZERO][..0] == [] && Value([ZERO]) == 0;
    } else {
      assert text == s + [PERCENT] + zone.value;
      FindAfter(s, PERCENT, zone.value);
      Cut(s, PERCENT, zone.value);
    }
  }

  lemma DottedRead(b: seq<int>)
    requires Quad(b)
    ensures Parse(V4Text(b)) == Some(V4(b))
  {
    hide ReadV4, V4Text;
    V4HasNoColon(b);
    V4Read(b);
  }

  /** Every form of at most 64 bytes is read as the address it denotes. */
  lemma FormRead(f: Form)
    requires GoodForm(f) && |FormText(f)| <= 64
    ensures Parse(FormText(f)) == Some(FormAddress(f))
  {
    hide ReadV6, ReadV4, V4Text, WordsText, FormWords, Parse, GoodSide, SideWords, Plain;
    if f.Dotted? {
      DottedRead(f.bytes);
    } else {
      WordsTextRead(f);
      ZonedRead(WordsText(f), f.zone);
    }
  }

  // Accepted texts are forms.

  /** A numeral without leading zeros is the decimal text of its value. */
  lemma {:induction false} OwnDecimal(s: Bytes)
    requires s != [] && Digits(s) && (s[0] == ZERO ==> |s| == 1)
    ensures Decimal(Value(s)) == s && (s[0] != ZERO ==> Value(s) > 0)
  {
    if |s| == 1 {
      assert s[..0] == [];
    } else {
      var init := s[..|s| - 1];
      OwnDecimal(init);
      assert Value(s) / 10 == Value(init) && s == init + [s[|s| - 1]];
    }
  }

  function DotText(b: seq<int>): Bytes
    requires AllBytes(b)
  {
    if b == [] then [] else if |b| == 1 then Decimal(b[0]) else Decimal(b[0]) + [DOT] + DotText(b[1..])
  }

  lemma PartSpelled(part: Bytes)
    requires ReadPart(part).Some?
    ensures 0 <= ReadPart(part).value <= 255 && Decimal(ReadPart(part).value) == part
  {
    OwnDecimal(part);
  }

  /** What an accepted dotted text starts with. */
  lemma V4Is(text: Bytes, acc: seq<int>)
    requires |acc| <= 3 && ReadV4(text, acc).Some?
    ensures var dot := Find(text, DOT);
      && ReadPart(text[..dot]).Some?
      && (|acc| == 3 ==> dot == |text| && ReadV4(text, acc).value == acc + [ReadPart(text[..dot]).value])
      && (|acc| < 3 ==> dot < |text| && ReadV4(text, acc) == ReadV4(text[dot + 1..], acc + [ReadPart(text[..dot]).value]))
  {
    hide ReadPart;
  }

  lemma DotTextMore(v: int, rest: seq<int>)
    requires 0 <= v <= 255 && AllBytes(rest) && rest != []
    ensures AllBytes([v] + rest) && DotText([v] + rest) == Decimal(v) + [DOT] + DotText(rest)
  {
    hide Decimal;
    assert ([v] + rest)[1..] == rest;
  }

  lemma {:induction false} V4Spelled(text: Bytes, acc: seq<int>) returns (b: seq<int>)
    requires |acc| <= 3 && ReadV4(text, acc).Some?
    ensures AllBytes(b) && b != [] && DotText(b) == text && ReadV4(text, acc).value == acc + b && |acc| + |b| == 4
    decreases |text|
  {
    hide ReadPart, Decimal, ReadV4;
    V4Is(text, acc);
    var dot := Find(text, DOT);
    PartSpelled(text[..dot]);
    var v := ReadPart(text[..dot]).value;
    if |acc| == 3 {
      b := [v];
      assert text[..dot] == text;
    } else {
      var rest := V4Spelled(text[dot + 1..], acc + [v]);
      DotTextMore(v, rest);
      b := [v] + rest;
      hide DotText;
      assert text == text[..dot] + [DOT] + text[dot + 1..];
      assert acc + [v] + rest == acc + b;
    }
  }

  lemma QuadText(b: seq<int>)
    requires Quad(b)
    ensures AllBytes(b) && DotText(b) == V4Text(b)
  {
    hide Decimal;
    V4Grouped(Decimal(b[0]), Decimal(b[1]), Decimal(b[2]), Decimal(b[3]));
    assert b[1..][1..] == b[2..] && b[2..][1..] == b[3..];
    assert DotText(b[3..]) == Decimal(b[3]);
    assert DotText(b[2..]) == Decimal(b[2]) + [DOT] + DotText(b[3..]);
    assert DotText(b[1..]) == Decimal(b[1]) + [DOT] + DotText(b[2..]);
  }

  lemma {:induction false} GroupSpelled(part: Bytes) returns (g: Group)
    requires ReadHex(part).Some?
    ensures GoodDigits(g) && |g| == |part| && GroupText(g) == part && GroupValue(g) == ReadHex(part).value
  {
    if part == [] {
      g := [];
    } else {
      var init, last := part[..|part| - 1], part[|part| - 1];
      var h := GroupSpelled(init);
      HexSpelled(last);
      g := h + [Digit(HexValue(last).value, Capital(last))];
      assert g[..|g| - 1] == h;
      assert part == init + [last];
    }
  }

  /** Behind a first group. */
  lemma SideGrows(g: Group, s: Side)
    requires GoodGroup(g) && GoodSide(s) && SideText(s) != []
    ensures var s2 := s.(groups := [g] + s.groups);
      && GoodSide(s2) && SideText(s2) == GroupText(g) + [COLON] + SideText(s)
      && SideWords(s2) == [GroupValue(g)] + SideWords(s)
  {
    var s2 := s.(groups := [g] + s.groups);
    hide GroupText, GroupValue, V4Text;
    assert s2.groups[1..] == s.groups && Rest(s2) == s;
    SideNotEmpty(s);
  }

  lemma LoneGroup(g: Group)
    requires GoodGroup(g)
    ensures var s := Side([g], None); GoodSide(s) && SideText(s) == GroupText(g) && SideWords(s) == [GroupValue(g)]
  {
    assert Rest(Side([g], None)) == Side([], None);
    assert [GroupValue(g)] + [] == [GroupValue(g)];
  }

  /** What an accepted list of words starts with. */
  lemma WordIs(text: Bytes, allowV4: bool, acc: seq<int>)
    requires text != [] && ReadWord(text, allowV4, acc).Some?
    ensures var colon := Find(text, COLON);
      var part := text[..colon];
      && part != []
      && (DOT in part ==>
            && allowV4 && colon == |text| && ReadV4(part, []).Some? && |ReadV4(part, []).value| == 4
            && var b := ReadV4(part, []).value; ReadWord(text, allowV4, acc).value == acc + [b[0] * 256 + b[1], b[2] * 256 + b[3]])
      && (DOT !in part ==>
            && |part| <= 4 && ReadHex(part).Some?
            && (colon == |text| ==> ReadWord(text, allowV4, acc).value == acc + [ReadHex(part).value])
            && (colon < |text| ==>
                  && colon + 1 < |text|
                  && ReadWord(text, allowV4, acc) == ReadWord(text[colon + 1..], allowV4, acc + [ReadHex(part).value])))
  {
    hide ReadHex, ReadV4;
  }

  lemma {:induction false} SideSpelled(text: Bytes, allowV4: bool, acc: seq<int>) returns (s: Side)
    requires text != [] && ReadWord(text, allowV4, acc).Some?
    ensures GoodSide(s) && SideText(s) == text && ReadWord(text, allowV4, acc).value == acc + SideWords(s)
    ensures s.tail.Some? ==> allowV4
    decreases |text|
  {
    hide GroupText, GroupValue, V4Text, ReadHex, ReadV4, SideText, SideWords, GoodSide, ReadWord;
    WordIs(text, allowV4, acc);
    var colon := Find(text, COLON);
    var part := text[..colon];
    if DOT in part {
      var b := V4Spelled(part, []);
      assert [] + b == b;
      QuadText(b);
      assert part == text;
      s := Side([], Some(b));
      LoneTail(b);
    } else {
      var g := GroupSpelled(part);
      if colon == |text| {
        assert part == text;
        LoneGroup(g);
        s := Side([g], None);
      } else {
        var t := SideSpelled(text[colon + 1..], allowV4, acc + [GroupValue(g)]);
        SideGrows(g, t);
        s := t.(groups := [g] + t.groups);
        assert text == part + [COLON] + text[colon + 1..];
        assert acc + [GroupValue(g)] + SideWords(t) == acc + ([GroupValue(g)] + SideWords(t));
      }
    }
  }

  lemma LoneTail(b: seq<int>)
    requires Quad(b)
    ensures var s := Side([], Some(b));
      GoodSide(s) && SideText(s) == V4Text(b) && SideWords(s) == [b[0] * 256 + b[1], b[2] * 256 + b[3]]
  {
  }

  lemma SidesSpelled(text: Bytes, allowV4: bool) returns (s: Side)
    requires ReadWords(text, allowV4, []).Some?
    ensures GoodSide(s) && SideText(s) == text && ReadWords(text, allowV4, []).value == SideWords(s)
    ensures (s.tail.Some? ==> allowV4)
  {
    if text == [] {
      s := Side([], None);
    } else {
      s := SideSpelled(text, allowV4, []);
      assert [] + SideWords(s) == SideWords(s);
    }
  }

  lemma WordsSpelled(text: Bytes, zone: Option<Bytes>) returns (f: Form)
    requires ReadV6(text).Some? && GoodZone(zone)
    ensures GoodForm(f) && !f.Dotted? && f.zone == zone && WordsText(f) == text && ReadV6(text).value == FormWords(f)
  {
    hide ReadWords, SideText, SideWords, GoodSide;
    var at := FindPair(text, 0);
    if at == |text| {
      var s := SidesSpelled(text, true);
      f := Full(s, zone);
    } else {
      var l := SidesSpelled(text[..at], false);
      var r := SidesSpelled(text[at + 2..], true);
      f := Gapped(l, r, zone);
      assert text == text[..at] + [COLON, COLON] + text[at + 2..];
    }
  }

  /** Whatever text is accepted has a form, and the result is the address it denotes. */
  lemma FormSpelled(text: Bytes) returns (f: Form)
    requires Parse(text).Some?
    ensures GoodForm(f) && FormText(f) == text && FormAddress(f) == Parse(text).value
  {
    hide ReadV6, ReadV4, WordsText, FormWords, SideText, SideWords, GoodSide, V4Text;
    if COLON !in text {
      var b := V4Spelled(text, []);
      assert [] + b == b;
      QuadText(b);
      f := Dotted(b);
    } else {
      var zone := Find(text, PERCENT);
      if zone == |text| {
        assert text[..zone] == text;
        f := WordsSpelled(text, None);
        assert text + [] == text && [ZERO][..0] == [] && Value([ZERO]) == 0;
      } else {
        f := WordsSpelled(text[..zone], Some(text[zone + 1..]));
        assert text == text[..zone] + ([PERCENT] + text[zone + 1..]);
      }
    }
  }

  ghost predicate Spells(f: Form, text: Bytes) { GoodForm(f) && FormText(f) == text }

  /**
  A text of at most 64 bytes is accepted if and only if it has a form, and the result is the address that form
  denotes, whichever is taken.  A longer text is never accepted.
  */
  lemma AcceptsTheForms(text: Bytes)
    ensures Parse(text).Some? <==> |text| <= 64 && exists f :: Spells(f, text)
    ensures |text| <= 64 ==> forall f :: Spells(f, text) ==> Parse(text) == Some(FormAddress(f))
  {
    if Parse(text).Some? {
      var f := FormSpelled(text);
      assert Spells(f, text);
    }
    if |text| <= 64 {
      forall f | Spells(f, text) ensures Parse(text) == Some(FormAddress(f)) { FormRead(f); }
    }
  }
}
