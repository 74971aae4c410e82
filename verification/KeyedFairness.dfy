/** Keys are served in the order in which they became ready. */
module KeyedFairness {
  import opened Common
  import opened KeyedExecutor
  import opened KeyedSafety
  import opened KeyedRuns
  import opened KeyedDrain

  ghost predicate At(s: seq<Key>, i: int, x: Key) { 0 <= i < |s| && s[i] == x }

  ghost predicate Ahead(s: seq<Key>, x: Key, y: Key) {
    exists i, j :: At(s, i, x) && At(s, j, y) && i < j
  }

  /** Nobody gets ahead of a key that stays. */
  ghost predicate KeepsOrder(s: seq<Key>, s2: seq<Key>) {
    forall x, y :: Ahead(s2, x, y) && y in s ==> Ahead(s, x, y)
  }

  lemma {:induction false} WithoutAhead(s: seq<Key>, k: Key, x: Key, y: Key)
    requires Ahead(Without(s, k), x, y)
    ensures Ahead(s, x, y)
  {
    var r := Without(s, k);
    var i, j :| At(r, i, x) && At(r, j, y) && i < j;
    var init := s[..|s| - 1];
    var rest := Without(init, k);
    if j < |rest| {
      assert At(rest, i, x) && At(rest, j, y);
      WithoutAhead(init, k, x, y);
      var a, b :| At(init, a, x) && At(init, b, y) && a < b;
      assert At(s, a, x) && At(s, b, y);
    } else {
      assert rest[i] == x && x in rest && x in init;
      var a :| 0 <= a < |init| && init[a] == x;
      assert At(s, a, x) && At(s, |s| - 1, y);
    }
  }

  lemma WithoutKeepsOrder(s: seq<Key>, k: Key)
    ensures KeepsOrder(s, Without(s, k))
  {
    forall x, y | Ahead(Without(s, k), x, y) && y in s ensures Ahead(s, x, y) { WithoutAhead(s, k, x, y); }
  }

  lemma AppendKeepsOrder(s: seq<Key>, k: Key)
    requires k !in s
    ensures KeepsOrder(s, s + [k])
  {
    forall x, y | Ahead(s + [k], x, y) && y in s ensures Ahead(s, x, y) {
      var i, j :| At(s + [k], i, x) && At(s + [k], j, y) && i < j;
      assert At(s, i, x) && At(s, j, y);
    }
  }

  lemma EnqueueKeepsOrder(e: Exec, k: Key)
    requires k in e.keys && (e.keys[k].ready <==> k in e.readyKeys)
    ensures KeepsOrder(e.readyKeys, Enqueue(e, k).readyKeys)
  {
    if k !in e.readyKeys { AppendKeepsOrder(e.readyKeys, k); }
  }

  lemma RemoveKeepsOrder(e: Exec, k: Key)
    requires k in e.keys
    ensures KeepsOrder(e.readyKeys, RemoveReady(e, k).readyKeys)
  {
    WithoutKeepsOrder(e.readyKeys, k);
  }

  lemma SubmitKeepsOrder(w: World, a: Action)
    requires Core(w.exec) && a.ASubmit? && Enabled(w, a)
    ensures KeepsOrder(w.exec.readyKeys, Apply(w, a).exec.readyKeys)
  {
    hide KeepsOrder;
    if a.key in w.exec.keys { assert SlotOk(w.exec, a.key); }
    if a.key !in w.exec.readyKeys { AppendKeepsOrder(w.exec.readyKeys, a.key); }
    SameKeepsOrder(w.exec.readyKeys);
  }

  lemma SameKeepsOrder(s: seq<Key>)
    ensures KeepsOrder(s, s)
  {
  }

  lemma PublishKeepsOrder(e: Exec, id: Id, result: ErrorCode, occupied: bool)
    requires Core(e) && Publishable(e, id)
    ensures KeepsOrder(e.readyKeys, Publish(e, id, result, occupied).readyKeys)
  {
    hide KeepsOrder;
    var k := e.info[id].key;
    assert SlotOk(e, k);
    var e1 := Settle(e, id, result, occupied);
    RemoveKeepsOrder(e1, k);
    EnqueueKeepsOrder(e1, k);
    hide Core;
  }

  lemma TakeKeepsOrder(e: Exec, id: Id, now: int, parent: bool)
    requires Core(e) && Publishable(e, id)
    ensures KeepsOrder(e.readyKeys, TakeQueued(e, id, now, parent).readyKeys)
  {
    hide KeepsOrder;
    var k := e.info[id].key;
    assert SlotOk(e, k);
    var e1 := Taken(e, id, now, parent);
    RemoveKeepsOrder(e1, k);
    EnqueueKeepsOrder(e1, k);
    hide Core;
  }

  lemma ScanKeepsOrder(w: World, now: int, parents: set<Id>)
    requires Core(w.exec) && Enabled(w, AScan(now, parents))
    ensures KeepsOrder(w.exec.readyKeys, ScanStep(w, now, parents).exec.readyKeys)
  {
    hide KeepsOrder;
    SameKeepsOrder(w.exec.readyKeys);
    var i := FirstDue(w.exec, now, parents, 0);
    if i < |w.exec.tasks| {
      ScanFinds(w.exec, now, parents);
      TakeKeepsOrder(w.exec, w.exec.tasks[i], now, w.exec.tasks[i] in parents);
    }
  }

  /** A pick takes the first key off the list and no other. */
  lemma PickTakesFirst(w: World, a: Action)
    requires Core(w.exec) && a.APick? && Enabled(w, a)
    ensures Apply(w, a).exec.readyKeys == Without(w.exec.readyKeys, w.exec.readyKeys[0])
  {
    PickFacts(w.exec);
  }

  lemma StepKeepsOrder(w: World, a: Action)
    requires Core(w.exec) && Enabled(w, a)
    ensures KeepsOrder(w.exec.readyKeys, Apply(w, a).exec.readyKeys)
  {
    hide KeepsOrder, Core;
    match a
    case ASubmit(_, _, _, _, _, _) => SubmitKeepsOrder(w, a);
    case APick(_, _, _) => PickTakesFirst(w, a); WithoutKeepsOrder(w.exec.readyKeys, w.exec.readyKeys[0]);
    case APublish(t) => PublishKeepsOrder(w.exec, w.workers[t].id, w.workers[t].code, true);
    case ADeliver => PublishKeepsOrder(w.exec, w.coordinator.id, w.coordinator.code, false);
    case AScan(now, parents) => ScanKeepsOrder(w, now, parents);
    case _ => SameKeepsOrder(w.exec.readyKeys);
  }

  /** Key `k` was ready at every position from `j` to `i`. */
  ghost predicate Waited(ws: seq<World>, j: nat, i: nat, k: Key)
    requires i < |ws|
  {
    forall m :: j <= m <= i ==> k in ws[m].exec.readyKeys
  }

  lemma AheadIsIn(s: seq<Key>, x: Key, y: Key)
    requires Ahead(s, x, y)
    ensures x in s && y in s
  {
  }

  /** Whoever is ahead of a key that waited from `j` on has waited from `j` on too. */
  lemma AheadWaited(ws: seq<World>, acts: seq<Action>, j: nat, i: nat, k: Key, x: Key)
    requires IsRun(ws, acts) && j <= i < |ws| && Waited(ws, j, i, k) && Ahead(ws[i].exec.readyKeys, x, k)
    ensures Waited(ws, j, i, x)
  {
    hide StepAt, Ahead, KeepsOrder;
    var m := i;
    AheadIsIn(ws[i].exec.readyKeys, x, k);
    while j < m
      invariant j <= m <= i && Ahead(ws[m].exec.readyKeys, x, k)
      invariant forall n :: m <= n <= i ==> x in ws[n].exec.readyKeys
    {
      m := m - 1;
      AheadBefore(ws, acts, m, k, x);
      AheadIsIn(ws[m].exec.readyKeys, x, k);
    }
  }

  lemma AheadBefore(ws: seq<World>, acts: seq<Action>, m: nat, k: Key, x: Key)
    requires IsRun(ws, acts) && m < |acts| && k in ws[m].exec.readyKeys && Ahead(ws[m + 1].exec.readyKeys, x, k)
    ensures Ahead(ws[m].exec.readyKeys, x, k)
  {
    hide Ahead, Core, Threads;
    RunCore(ws, acts, m);
    assert StepAt(ws, acts, m);
    StepKeepsOrder(ws[m], acts[m]);
  }

  /**
    No key is passed over: a worker that looks for work takes one key off the ready list, and that key has waited at
    least as long as every other key on it.
   */
  lemma LongestWaitingFirst(ws: seq<World>, acts: seq<Action>, j: nat, i: nat, taken: Key, k: Key)
    requires IsRun(ws, acts) && j <= i < |acts| && acts[i].APick?
    requires taken in ws[i].exec.readyKeys && taken !in ws[i + 1].exec.readyKeys
    requires Waited(ws, j, i, k)
    ensures Waited(ws, j, i, taken) && (k == taken || k in ws[i + 1].exec.readyKeys)
  {
    hide Core, Threads;
    RunCore(ws, acts, i);
    assert StepAt(ws, acts, i);
    PickTakesFirst(ws[i], acts[i]);
    var s := ws[i].exec.readyKeys;
    assert taken == s[0] && k in s;
    if k != taken {
      var n :| 0 <= n < |s| && s[n] == k;
      assert At(s, 0, taken) && At(s, n, k);
      assert Ahead(s, taken, k);
      AheadWaited(ws, acts, j, i, k, taken);
    }
  }
}
