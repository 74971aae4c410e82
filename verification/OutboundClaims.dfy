/** Re-arm subscriptions: each is in one place at a time, in one thread's hand or in the queue. */
module OutboundClaims {
  import opened Common
  import opened OutboundQueue
  import opened OutboundPump
  import opened OutboundSafety

  predicate Deferring(pc: Pc) { pc.DeferSubscribe? || pc.DeferStore? }

  predicate Subscribing(w: World, t: nat) { t in w.threads && w.threads[t].DeferSubscribe? }

  /** The re-arm subscriptions a thread has in hand: to be stored, or to be reset. */
  function Claims(pc: Pc): set<nat> {
    if pc.DeferStore? then {pc.wait} else if pc.ResetWaits? && pc.next == ToFinish then pc.waits else {}
  }

  /** Each re-arm subscription is in one place: in one thread's hand, or in the queue. */
  ghost predicate Apart(w: World) {
    && (forall t, c :: t in w.threads && c in Claims(w.threads[t]) ==> c < |w.waits|)
    && (forall t :: t in w.threads && w.q.wakeRetry.Some? ==> w.q.wakeRetry.value !in Claims(w.threads[t]))
    && (forall t, u, c :: t in w.threads && u in w.threads && t != u && c in Claims(w.threads[t]) ==> c !in Claims(w.threads[u]))
    && (w.q.wakeRetry.Some? ==> w.q.wakeRetry.value < |w.waits|)
  }

  /** Thread `t` ends up with empty hands, and the queue gains nothing. */
  ghost predicate Calm(w: World, w2: World, t: nat) {
    && |w.waits| <= |w2.waits| && (w2.q.wakeRetry == w.q.wakeRetry || w2.q.wakeRetry == None)
    && (forall u :: u != t && u in w2.threads ==> u in w.threads && w2.threads[u] == w.threads[u])
    && (t in w2.threads ==> Claims(w2.threads[t]) == {})
  }

  lemma CalmApart(w: World, w2: World, t: nat)
    requires Apart(w) && Calm(w, w2, t)
    ensures Apart(w2)
  {
    assert forall u, c :: u in w2.threads && c in Claims(w2.threads[u]) ==>
        u != t && u in w.threads && w2.threads[u] == w.threads[u];
  }

  lemma ResumeCalm(w: World, w1: World, t: nat, k: Cont)
    requires w1.threads == w.threads && w1.waits == w.waits && w1.q.wakeRetry == w.q.wakeRetry
    ensures Calm(w, Resume(w1, t, k), t)
  {
  }

  lemma EarlyCalm(w: World, t: nat, c: Choice)
    requires t in w.threads && EarlyPump(w.threads[t])
    ensures Calm(w, Advance(w, t, c), t)
  {
  }

  lemma LateCalm(w: World, t: nat, c: Choice)
    requires t in w.threads && LatePump(w.threads[t]) && !w.threads[t].Arming?
    ensures Calm(w, Advance(w, t, c), t)
  {
  }

  predicate Discarding(pc: Pc) { pc.HaltEntry? || pc.HaltCancel? || pc.HaltNext? || pc.HaltRelease? }

  lemma HaltCalm(w: World, t: nat, c: Choice)
    requires t in w.threads && Discarding(w.threads[t])
    ensures Calm(w, Advance(w, t, c), t)
  {
    if w.threads[t].HaltEntry? { ResumeCalm(w, w, t, w.threads[t].k); }
  }

  lemma DriveCalm(w: World, t: nat, k: Cont)
    ensures Calm(w, DriveStep(w, t, k), t)
  {
    ResumeCalm(w, w.(q := w.q.(changed := true)), t, k);
  }

  lemma OtherCalm(w: World, t: nat, c: Choice)
    requires t in w.threads && !EarlyPump(w.threads[t]) && !LatePump(w.threads[t])
    requires !Deferring(w.threads[t]) && !Discarding(w.threads[t])
    ensures Calm(w, Advance(w, t, c), t)
  {
    match w.threads[t]
    case DriveEntry(k) => DriveCalm(w, t, k);
    case FinishCheck(k) => ResumeCalm(w, w.(q := Finish(w.q)), t, k);
    case TimerCheck(x) => ResumeCalm(w, w, t, TimerReturn(x));
    case _ =>
  }

  lemma ThreadCalm(w: World, t: nat, c: Choice)
    requires t in w.threads && !Deferring(w.threads[t]) && !w.threads[t].Arming?
    ensures Calm(w, Advance(w, t, c), t)
  {
    hide Calm, Advance;
    if EarlyPump(w.threads[t]) {
      EarlyCalm(w, t, c);
    } else if LatePump(w.threads[t]) {
      LateCalm(w, t, c);
    } else if Discarding(w.threads[t]) {
      HaltCalm(w, t, c);
    } else {
      OtherCalm(w, t, c);
    }
  }

  lemma ArmCalm(w: World, t: nat, due: int, k: Cont, c: Choice)
    ensures Calm(w, ArmStep(w, t, due, k, c), t)
  {
  }

  /** A new subscription is in nobody else's hands. */
  lemma SubscribeApart(w: World, t: nat, c: Choice)
    requires Apart(w) && Subscribing(w, t)
    ensures Apart(DeferSubscribeStep(w, t, w.threads[t].generation, w.threads[t].timer, w.threads[t].k, c))
  {
    var w2 := DeferSubscribeStep(w, t, w.threads[t].generation, w.threads[t].timer, w.threads[t].k, c);
    if c.Refuses? {
      CalmApart(w, w2, t);
    } else {
      assert Claims(w2.threads[t]) == {|w.waits|};
      HandsApart(w, w2, t);
    }
  }

  /** What `t` has now was nobody else's. */
  lemma HandsApart(w: World, w2: World, t: nat)
    requires Apart(w) && t in w2.threads && |w.waits| <= |w2.waits|
    requires forall u :: u != t && u in w2.threads ==> u in w.threads && w2.threads[u] == w.threads[u]
    requires forall c :: c in Claims(w2.threads[t]) ==>
      c < |w2.waits| && (forall u :: u != t && u in w.threads ==> c !in Claims(w.threads[u]))
    requires w2.q.wakeRetry.Some? ==>
      && w2.q.wakeRetry.value < |w2.waits| && w2.q.wakeRetry.value !in Claims(w2.threads[t])
      && forall u :: u != t && u in w.threads ==> w2.q.wakeRetry.value !in Claims(w.threads[u])
    ensures Apart(w2)
  {
    forall u, c | u in w2.threads && c in Claims(w2.threads[u]) ensures c < |w2.waits| {
      if u != t { assert w2.threads[u] == w.threads[u]; }
    }
    forall u, v, c | u in w2.threads && v in w2.threads && u != v && c in Claims(w2.threads[u])
      ensures c !in Claims(w2.threads[v])
    {
      if u == t {
        assert w2.threads[v] == w.threads[v];
      } else if v == t {
        assert w2.threads[u] == w.threads[u];
      } else {
        assert w2.threads[u] == w.threads[u] && w2.threads[v] == w.threads[v];
      }
    }
  }

  /** The store swaps the queue's subscription with the thread's. */
  lemma StoreApart(w: World, t: nat)
    requires Apart(w) && t in w.threads && w.threads[t].DeferStore?
    ensures Apart(DeferStoreStep(w, t, w.threads[t].wait, w.threads[t].k))
  {
    var w2 := DeferStoreStep(w, t, w.threads[t].wait, w.threads[t].k);
    assert w.threads[t].wait in Claims(w.threads[t]) && Claims(w2.threads[t]) == Only(w.q.wakeRetry);
    HandsApart(w, w2, t);
  }

  lemma ThreadApart(w: World, t: nat, c: Choice)
    requires Apart(w) && t in w.threads
    ensures Apart(Advance(w, t, c))
  {
    hide Apart, Calm;
    if w.threads[t].Arming? {
      ArmCalm(w, t, w.threads[t].due, w.threads[t].k, c);
      CalmApart(w, Advance(w, t, c), t);
    } else if w.threads[t].DeferSubscribe? {
      SubscribeApart(w, t, c);
    } else if w.threads[t].DeferStore? {
      StoreApart(w, t);
    } else {
      ThreadCalm(w, t, c);
      CalmApart(w, Advance(w, t, c), t);
    }
  }

  lemma ArrivalCalm(w: World, a: Action)
    requires Enabled(w, a) && !a.Run? && !a.Tick?
    ensures Calm(w, Apply(w, a), a.tid)
  {
  }

  lemma TickApart(w: World, now: int)
    requires Apart(w)
    ensures Apart(w.(clock := now))
  {
  }

  lemma StepApart(w: World, a: Action)
    requires Apart(w) && Enabled(w, a)
    ensures Apart(Apply(w, a))
  {
    hide Apart, Calm, Advance;
    if a.Run? {
      ThreadApart(w, a.tid, a.choice);
    } else if a.Tick? {
      TickApart(w, a.now);
    } else {
      ArrivalCalm(w, a);
      CalmApart(w, Apply(w, a), a.tid);
    }
  }

  /** In every run every re-arm subscription is in one place. */
  lemma RunApart(ws: seq<World>, acts: seq<Action>, i: nat)
    requires IsRun(ws, acts) && i < |ws|
    ensures Apart(ws[i])
  {
    hide Apart, Apply, Enabled;
    InitiallyApart(ws, acts);
    for j := 0 to i
      invariant Apart(ws[j])
    {
      StepApart(ws[j], acts[j]);
    }
  }

  lemma InitiallyApart(ws: seq<World>, acts: seq<Action>)
    requires IsRun(ws, acts)
    ensures Apart(ws[0])
  {
    assert ws[0].threads == map[] && ws[0].waits == [];
  }
}
