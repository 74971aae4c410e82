/** The order of object keys, and insertion into members kept in that order. */
module JsonOrder {
  import opened Common
  import opened Utf8
  import opened JsonText

  ghost predicate Ordered(members: seq<Member>) {
    forall i, j :: 0 <= i < j < |members| ==> Less(members[i].key, members[j].key)
  }

  lemma {:induction false} LessIsStrict(a: Bytes, b: Bytes)
    requires Less(a, b)
    ensures a != b && !Less(b, a)
  {
    if a != [] && a[0] == b[0] { LessIsStrict(a[1..], b[1..]); }
  }

  lemma {:induction false} LessTotal(a: Bytes, b: Bytes)
    ensures a == b || Less(a, b) || Less(b, a)
  {
    if a != [] && b != [] && a[0] == b[0] {
      LessTotal(a[1..], b[1..]);
      assert a[1..] == b[1..] ==> a == [a[0]] + a[1..] == b;
    }
  }

  lemma {:induction false} LessTransitive(a: Bytes, b: Bytes, c: Bytes)
    requires Less(a, b) && Less(b, c)
    ensures Less(a, c)
  {
    if a != [] && a[0] == b[0] == c[0] { LessTransitive(a[1..], b[1..], c[1..]); }
  }

  /** A key above all others is inserted at the end. */
  lemma {:induction false} InsertLast(acc: seq<Member>, m: Member)
    requires forall i :: 0 <= i < |acc| ==> Less(acc[i].key, m.key)
    ensures Insert(acc, m) == Some(acc + [m])
  {
    if acc == [] {
      assert acc + [m] == [m];
    } else {
      LessIsStrict(acc[0].key, m.key);
      InsertLast(acc[1..], m);
      assert [acc[0]] + (acc[1..] + [m]) == acc + [m];
    }
  }

  /** The members of an insertion are the old ones and the new one. */
  lemma {:induction false} InsertMembers(members: seq<Member>, m: Member, x: Member)
    requires Insert(members, m).Some?
    ensures x in Insert(members, m).value <==> x in members || x == m
  {
    if members != [] && !Less(m.key, members[0].key) {
      InsertMembers(members[1..], m, x);
      assert members == [members[0]] + members[1..];
    }
  }

  lemma {:induction false} InsertOrdered(members: seq<Member>, m: Member)
    requires Ordered(members) && Insert(members, m).Some?
    ensures Ordered(Insert(members, m).value)
  {
    if members != [] {
      var r := Insert(members, m).value;
      if Less(m.key, members[0].key) {
        forall j | 1 <= j < |r| ensures Less(r[0].key, r[j].key) {
          if j > 1 { LessTransitive(m.key, members[0].key, members[j - 1].key); }
        }
      } else {
        InsertOrdered(members[1..], m);
        LessTotal(m.key, members[0].key);
        forall j | 1 <= j < |r| ensures Less(r[0].key, r[j].key) {
          var x := Insert(members[1..], m).value[j - 1];
          assert r[j] == x;
          InsertMembers(members[1..], m, x);
        }
      }
    }
  }

  /** A key is refused exactly when it is there already. */
  lemma {:induction false} InsertIff(members: seq<Member>, m: Member)
    requires Ordered(members)
    ensures Insert(members, m).Some? <==> forall i :: 0 <= i < |members| ==> members[i].key != m.key
  {
    if members != [] && members[0].key != m.key {
      if Less(m.key, members[0].key) {
        forall i | 0 <= i < |members| ensures members[i].key != m.key {
          if i > 0 { LessTransitive(m.key, members[0].key, members[i].key); }
          LessIsStrict(m.key, members[i].key);
        }
      } else {
        InsertIff(members[1..], m);
        assert forall i :: 1 <= i < |members| ==> members[i] == members[1..][i - 1];
        assert forall i :: 0 <= i < |members[1..]| ==> members[1..][i] == members[i + 1];
      }
    }
  }

  lemma {:induction false} InsertLength(members: seq<Member>, m: Member)
    requires Insert(members, m).Some?
    ensures |Insert(members, m).value| == |members| + 1
  {
    if members != [] && !Less(m.key, members[0].key) { InsertLength(members[1..], m); }
  }
}
