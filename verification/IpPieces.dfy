/** Finding separators, the double colon between plain texts, and dotted decimals. */
module IpPieces {
  import opened Common
  import opened Utf8
  import opened Numerals
  import opened IpAddress

  lemma {:induction false} FindAbsent(a: Bytes, b: Byte)
    requires b !in a
    ensures Find(a, b) == |a|
  {
    if a != [] { FindAbsent(a[1..], b); }
  }

  lemma {:induction false} FindAfter(a: Bytes, b: Byte, rest: Bytes)
    requires b !in a
    ensures Find(a + [b] + rest, b) == |a|
  {
    var text := a + [b] + rest;
    if a == [] {
      assert text[0] == b;
    } else {
      assert text[0] == a[0] && text[1..] == a[1..] + [b] + rest;
      FindAfter(a[1..], b, rest);
    }
  }

  lemma Cut(a: Bytes, b: Byte, rest: Bytes)
    ensures var text := a + [b] + rest; |text| == |a| + 1 + |rest| && text[..|a|] == a && text[|a| + 1..] == rest
  {
  }

  lemma {:induction false} DecimalShort(n: nat, k: nat)
    requires 1 <= k && n < Pow10(k)
    ensures |Decimal(n)| <= k
    decreases n
  {
    assert Pow10(1) == 10;
    if n >= 10 {
      DecimalShort(n / 10, k - 1);
    }
  }

  lemma DigitsOnly(s: Bytes, b: Byte)
    requires Digits(s) && !IsDigit(b)
    ensures b !in s
  {
  }

  lemma PartRead(v: int)
    requires 0 <= v <= 255
    ensures ReadPart(Decimal(v)) == Some(v) && DOT !in Decimal(v) && COLON !in Decimal(v)
  {
    DecimalValue(v);
    assert Pow10(1) == 10 && Pow10(2) == 100 && Pow10(3) == 1000;
    DecimalShort(v, 3);
    DigitsOnly(Decimal(v), DOT);
    DigitsOnly(Decimal(v), COLON);
  }

  /** One part and the point behind it. */
  lemma PartStep(v: int, rest: Bytes, acc: seq<int>)
    requires 0 <= v <= 255 && |acc| < 3
    ensures ReadV4(Decimal(v) + [DOT] + rest, acc) == ReadV4(rest, acc + [v])
  {
    hide ReadPart, Decimal;
    PartRead(v);
    FindAfter(Decimal(v), DOT, rest);
    Cut(Decimal(v), DOT, rest);
  }

  lemma LastPart(v: int, acc: seq<int>)
    requires 0 <= v <= 255 && |acc| == 3
    ensures ReadV4(Decimal(v), acc) == Some(acc + [v])
  {
    hide ReadPart, Decimal;
    PartRead(v);
    FindAbsent(Decimal(v), DOT);
    assert Decimal(v)[..|Decimal(v)|] == Decimal(v);
  }

  lemma V4Grouped(a: Bytes, b: Bytes, c: Bytes, d: Bytes)
    ensures a + [DOT] + b + [DOT] + c + [DOT] + d == a + [DOT] + (b + [DOT] + (c + [DOT] + d))
  {
  }

  lemma V4Read(b: seq<int>)
    requires |b| == 4 && forall i :: 0 <= i < 4 ==> 0 <= b[i] <= 255
    ensures ReadV4(V4Text(b), []) == Some(b)
  {
    hide ReadV4, Decimal;
    V4Grouped(Decimal(b[0]), Decimal(b[1]), Decimal(b[2]), Decimal(b[3]));
    PartStep(b[0], Decimal(b[1]) + [DOT] + (Decimal(b[2]) + [DOT] + Decimal(b[3])), []);
    PartStep(b[1], Decimal(b[2]) + [DOT] + Decimal(b[3]), [b[0]]);
    PartStep(b[2], Decimal(b[3]), [b[0], b[1]]);
    LastPart(b[3], [b[0], b[1], b[2]]);
    assert [] + [b[0]] == [b[0]] && [b[0]] + [b[1]] == [b[0], b[1]] && [b[0], b[1]] + [b[2]] == [b[0], b[1], b[2]];
    assert [b[0], b[1], b[2]] + [b[3]] == b;
  }

  /** Hexadecimal digits of either case, points and colons. */
  predicate WordByte(b: Byte) { b == COLON || b == DOT || 48 <= b <= 57 || 65 <= b <= 70 || 97 <= b <= 102 }

  /** No double colon, no colon at either end, and nothing that is not part of a word. */
  ghost predicate Plain(s: Bytes) {
    && (forall i :: 0 <= i < |s| ==> WordByte(s[i]))
    && (forall i :: 0 <= i < |s| - 1 ==> !(s[i] == COLON && s[i + 1] == COLON))
    && (s != [] ==> s[0] != COLON && s[|s| - 1] != COLON)
  }

  lemma PlainPair(a: Bytes, b: Bytes)
    requires Plain(a) && Plain(b) && a != [] && b != []
    ensures Plain(a + [COLON] + b)
  {
    var s := a + [COLON] + b;
    forall i | 0 <= i < |s| ensures WordByte(s[i]) {
      if i < |a| { assert s[i] == a[i]; } else if i > |a| { assert s[i] == b[i - |a| - 1]; }
    }
    forall i | 0 <= i < |s| - 1 ensures !(s[i] == COLON && s[i + 1] == COLON) {
      if i < |a| - 1 {
        assert s[i] == a[i] && s[i + 1] == a[i + 1];
      } else if i == |a| - 1 {
        assert s[i] == a[i];
      } else if i == |a| {
        assert s[i + 1] == b[0];
      } else {
        assert s[i] == b[i - |a| - 1] && s[i + 1] == b[i - |a|];
      }
    }
  }

  lemma EmptyPlain()
    ensures Plain([])
  {
  }

  lemma {:induction false} NoPairFrom(text: Bytes, start: nat)
    requires start <= |text| && forall i :: start <= i < |text| ==> !IsPair(text, i)
    ensures FindPair(text, start) == |text|
    decreases |text| - start
  {
    if start < |text| { NoPairFrom(text, start + 1); }
  }

  lemma {:induction false} PairAt(text: Bytes, start: nat, at: nat)
    requires start <= at && IsPair(text, at) && forall i :: start <= i < at ==> !IsPair(text, i)
    ensures FindPair(text, start) == at
    decreases at - start
  {
    if start < at { PairAt(text, start + 1, at); }
  }

  lemma NoPairBefore(a: Bytes, b: Bytes, i: nat)
    requires Plain(a) && i < |a|
    ensures !IsPair(a + [COLON, COLON] + b, i)
  {
    var text := a + [COLON, COLON] + b;
    assert text[i] == a[i];
    if i < |a| - 1 { assert text[i + 1] == a[i + 1]; }
  }

  lemma NoPairAfter(a: Bytes, b: Bytes, i: nat)
    requires Plain(b) && |a| + 2 <= i < |a| + 2 + |b|
    ensures !IsPair(a + [COLON, COLON] + b, i)
  {
    var text := a + [COLON, COLON] + b;
    var j := i - |a| - 2;
    assert text[i] == b[j];
    if j + 1 < |b| { assert text[i + 1] == b[j + 1]; }
  }

  lemma PairHere(a: Bytes, b: Bytes)
    ensures var text := a + [COLON, COLON] + b;
      IsPair(text, |a|) && |text| == |a| + 2 + |b| && text[..|a|] == a && text[|a| + 2..] == b
  {
    var text := a + [COLON, COLON] + b;
    assert text[|a|] == COLON && text[|a| + 1] == COLON;
  }

  /** Between plain texts the double colon is found where it is, and only there. */
  lemma OnePair(a: Bytes, b: Bytes)
    requires Plain(a) && Plain(b)
    ensures var text := a + [COLON, COLON] + b;
      FindPair(text, 0) == |a| && FindPair(text, |a| + 2) == |text| && text[..|a|] == a && text[|a| + 2..] == b
  {
    hide Plain, IsPair, FindPair;
    var text := a + [COLON, COLON] + b;
    PairHere(a, b);
    forall i | 0 <= i < |a| ensures !IsPair(text, i) { NoPairBefore(a, b, i); }
    PairAt(text, 0, |a|);
    forall i | |a| + 2 <= i < |text| ensures !IsPair(text, i) { NoPairAfter(a, b, i); }
    NoPairFrom(text, |a| + 2);
  }

  lemma PlainNoPair(s: Bytes)
    requires Plain(s)
    ensures FindPair(s, 0) == |s| && PERCENT !in s
  {
    NoPairFrom(s, 0);
  }

  lemma V4HasNoColon(b: seq<int>)
    requires |b| == 4 && forall i :: 0 <= i < 4 ==> 0 <= b[i] <= 255
    ensures COLON !in V4Text(b) && 1 <= |V4Text(b)| <= 64
  {
    hide ReadPart, Decimal;
    PartRead(b[0]);
    PartRead(b[1]);
    PartRead(b[2]);
    PartRead(b[3]);
    PartShort(b[0]);
    PartShort(b[1]);
    PartShort(b[2]);
    PartShort(b[3]);
  }

  lemma PartShort(v: int)
    requires 0 <= v <= 255
    ensures 1 <= |Decimal(v)| <= 3
  {
    DecimalValue(v);
    assert Pow10(1) == 10 && Pow10(2) == 100 && Pow10(3) == 1000;
    DecimalShort(v, 3);
  }

  predicate AllBytes(b: seq<int>) { forall i :: 0 <= i < |b| ==> 0 <= b[i] <= 255 }
}
