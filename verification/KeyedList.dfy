/** The intrusive ready list: keys are heap nodes that carry the list's links. */
module KeyedList {
  import opened Common
  import opened KeyedExecutor
  import opened KeyedSafety

  /** What a key's node holds besides its place in the list; `holder` is history. */
  datatype Record = Record(queued: seq<Id>, outstanding: int, bytes: int, busy: bool, holder: Option<Id>)

  class KeyNode {
    ghost const name: Key
    var record: Record
    var ready: bool
    var previous: KeyNode?
    var next: KeyNode?

    constructor (ghost k: Key)
      ensures name == k && record == Record([], 0, 0, false, None) && !ready
    {
      name, record, ready, previous, next := k, Record([], 0, 0, false, None), false, null, null;
    }

    ghost function Contents(): Slot
      reads this`record, this`ready
    {
      Slot(record.queued, record.outstanding, record.bytes, record.busy, ready, record.holder)
    }
  }

  ghost function Names(order: seq<KeyNode>): (r: seq<Key>)
    ensures |r| == |order| && forall i :: 0 <= i < |r| ==> r[i] == order[i].name
  {
    seq(|order|, i requires 0 <= i < |order| => order[i].name)
  }

  /** `order` is the list the links stand for, `nodes` its elements. */
  class ReadyList {
    var readyHead: KeyNode?
    var readyTail: KeyNode?
    ghost var order: seq<KeyNode>
    ghost var nodes: set<KeyNode>

    constructor ()
      ensures Valid() && order == [] && nodes == {}
    {
      readyHead, readyTail, order, nodes := null, null, [], {};
    }

    ghost predicate Linked(i: nat)
      requires i < |order|
      reads this, nodes`ready, nodes`previous, nodes`next
    {
      && order[i] in nodes && order[i].ready
      && order[i].previous == (if i == 0 then null else order[i - 1])
      && order[i].next == (if i == |order| - 1 then null else order[i + 1])
    }

    /** Each node is linked to its neighbours both ways, and no node occurs twice. */
    ghost predicate Valid()
      reads this, nodes`ready, nodes`previous, nodes`next
    {
      && (forall i :: 0 <= i < |order| ==> Linked(i))
      && (forall n :: n in nodes ==> n in order)
      && (forall i, j :: 0 <= i < j < |order| ==> order[i] != order[j])
      && readyHead == (if order == [] then null else order[0])
      && readyTail == (if order == [] then null else order[|order| - 1])
    }

    /** A key is appended exactly when it is idle, unlisted and has work. */
    method Enqueue(key: KeyNode)
      requires Valid() && (key.ready <==> key in nodes)
      modifies this, key`ready, key`previous, key`next, nodes`next
      ensures Valid()
      ensures var added := !old(key.ready) && !key.record.busy && key.record.queued != [];
        && key.ready == (old(key.ready) || added)
        && order == old(order) + (if added then [key] else [])
        && nodes == old(nodes) + (if added then {key} else {})
    {
      if key.ready || key.record.busy || key.record.queued == [] { return; }
      assert order != [] ==> Linked(|order| - 1);
      forall j | 0 <= j < |order| ensures order[j] != key { assert Linked(j); }
      key.ready := true;
      key.previous := readyTail;
      key.next := null;
      if readyTail != null {
        readyTail.next := key;
      } else {
        readyHead := key;
      }
      readyTail := key;
      order := order + [key];
      nodes := nodes + {key};
      forall j | 0 <= j < |order| - 1 ensures Linked(j) { assert old(Linked(j)); }
      assert Linked(|order| - 1);
    }

    /** A listed key is unlinked, and the others keep their order. */
    method RemoveReady(key: KeyNode)
      requires Valid() && (key.ready <==> key in nodes)
      modifies this, key`ready, nodes`previous, nodes`next
      ensures Valid() && !key.ready && nodes == old(nodes) - {key}
      ensures !old(key.ready) ==> order == old(order)
      ensures old(key.ready) ==>
        exists i :: 0 <= i < |old(order)| && old(order)[i] == key && order == old(order)[..i] + old(order)[i + 1..]
    {
      if !key.ready { return; }
      ghost var i :| 0 <= i < |order| && order[i] == key;
      assert Linked(i) && (0 < i ==> Linked(i - 1)) && (i < |order| - 1 ==> Linked(i + 1));
      Unlink(key, i);
    }

    method Unlink(key: KeyNode, ghost i: nat)
      requires Valid() && i < |order| && order[i] == key
      requires Linked(i) && (0 < i ==> Linked(i - 1)) && (i < |order| - 1 ==> Linked(i + 1))
      modifies this, key`ready, nodes`previous, nodes`next
      ensures Valid() && !key.ready && nodes == old(nodes) - {key}
      ensures order == old(order)[..i] + old(order)[i + 1..]
    {
      if key.previous != null {
        key.previous.next := key.next;
      } else {
        readyHead := key.next;
      }
      if key.next != null {
        key.next.previous := key.previous;
      } else {
        readyTail := key.previous;
      }
      key.previous, key.next := null, null;
      key.ready := false;
      order := order[..i] + order[i + 1..];
      nodes := nodes - {key};
      forall j | 0 <= j < |order| ensures Linked(j) { assert old(Linked(if j < i then j else j + 1)); }
    }
  }

  /** Unlinking one node is removing its key from the list. */
  lemma {:induction false} WithoutAt(s: seq<nat>, i: nat)
    requires Distinct(s) && i < |s|
    ensures Without(s, s[i]) == s[..i] + s[i + 1..]
  {
    var init, last := s[..|s| - 1], s[|s| - 1];
    if i == |s| - 1 {
      WithoutAbsent(init, last);
    } else {
      WithoutAt(init, i);
      assert init[..i] == s[..i] && init[i + 1..] + [last] == s[i + 1..];
    }
  }

  lemma {:induction false} WithoutAbsent(s: seq<nat>, x: nat)
    requires x !in s
    ensures Without(s, x) == s
  {
    if s != [] {
      WithoutAbsent(s[..|s| - 1], x);
    }
  }
}
