/**
Which message goes when.  The history of a run stamps every message at its admission; a message
that replaces an older one of its latest key takes over the older one's stamp.  The queue is always
in the order of the stamps, the sink is given the lowest one, and what the sink takes rises in them.
*/
module OutboundOrder {
  import opened Common
  import opened OutboundQueue
  import opened OutboundPump
  import opened OutboundSafety
  import opened OutboundClaims

  /** What the caller passed, and the message's place in the order of admission. */
  datatype Admission = Admission(stamp: nat, bytes: nat, latestKey: Option<nat>, expires: Option<int>)

  type History = map<nat, Admission>

  /** `x` is the queued message that a new one with `key` takes the place of. */
  ghost predicate Replaces(w: World, key: Option<nat>, x: Entry) {
    key.Some? && x in w.q.entries && x.latestKey == key
  }

  /** The caller was told that the message is admitted. */
  predicate Accepted(w: World, a: Action)
    requires Enabled(w, a)
  {
    a.Enqueue? && Apply(w, a).nextEntry == w.nextEntry + 1
  }

  ghost function StampOf(h: History, e: Entry): nat {
    if e.id in h then h[e.id].stamp else 0
  }

  /** A replacement inherits; any other message comes after all before it. */
  ghost function NewStamp(h: History, w: World, key: Option<nat>): nat {
    if exists x :: Replaces(w, key, x) then (var x :| Replaces(w, key, x); StampOf(h, x)) else w.nextEntry
  }

  ghost function Noted(h: History, w: World, a: Action): History
    requires Enabled(w, a)
  {
    if Accepted(w, a)
    then h[w.nextEntry := Admission(NewStamp(h, w, a.latestKey), a.bytes, a.latestKey, a.expires)] else h
  }

  /** What the first `i` actions of a run admitted. */
  ghost function Recorded(ws: seq<World>, acts: seq<Action>, i: nat): History
    requires IsRun(ws, acts) && i <= |acts|
  {
    if i == 0 then map[] else Noted(Recorded(ws, acts, i - 1), ws[i - 1], acts[i - 1])
  }

  // ---- Order of the queue ----------------------------------------------------

  ghost predicate Rising(es: seq<Entry>, h: History) {
    forall i, j :: 0 <= i < j < |es| ==> StampOf(h, es[i]) < StampOf(h, es[j])
  }

  /** `e` is queued as its caller passed it. */
  ghost predicate AsPassed(h: History, e: Entry, next: nat) {
    && e.id in h && h[e.id].stamp < next && e.id < next
    && e.bytes == h[e.id].bytes && e.latestKey == h[e.id].latestKey && e.expires == h[e.id].expires
  }

  /** No queued message has a lower stamp than `e`. */
  ghost predicate First(w: World, h: History, e: Entry) {
    e in w.q.entries && forall x :: x in w.q.entries ==> x == e || StampOf(h, e) < StampOf(h, x)
  }

  ghost predicate Ordered(w: World, h: History) {
    && Rising(w.q.entries, h)
    && (forall e :: e in w.q.entries ==> AsPassed(h, e, w.nextEntry))
    && (w.q.active.Some? ==> w.q.entries != [] && w.q.entries[0] == w.q.active.value)
    && (forall n :: n in h ==> n < w.nextEntry && h[n].stamp < w.nextEntry)
  }

  lemma FrontIsFirst(w: World, h: History)
    requires Rising(w.q.entries, h) && w.q.entries != []
    ensures First(w, h, w.q.entries[0])
  {
    forall x | x in w.q.entries ensures x == w.q.entries[0] || StampOf(h, w.q.entries[0]) < StampOf(h, x) {
      var j :| 0 <= j < |w.q.entries| && w.q.entries[j] == x;
    }
  }

  lemma {:induction false} LiveRising(es: seq<Entry>, now: int, h: History)
    requires Rising(es, h)
    ensures Rising(Live(es, now), h)
  {
    if es != [] {
      var rest, live := es[1..], Live(es[1..], now);
      assert Rising(rest, h) by { assert forall i :: 0 <= i < |rest| ==> rest[i] == es[i + 1]; }
      LiveRising(rest, now, h);
      forall j | 0 <= j < |live|
        ensures StampOf(h, es[0]) < StampOf(h, live[j])
      {
        LiveMembers(rest, now, live[j]);
        var k :| 0 <= k < |rest| && rest[k] == live[j];
        assert es[k + 1] == live[j];
      }
      if !ExpiredAt(es[0], now) {
        assert Live(es, now) == [es[0]] + live;
      }
    }
  }

  lemma WithoutRising(es: seq<Entry>, i: nat, h: History)
    requires i < |es| && Rising(es, h)
    ensures Rising(Without(es, i), h)
  {
    var r := Without(es, i);
    forall a, b | 0 <= a < b < |r| ensures StampOf(h, r[a]) < StampOf(h, r[b]) {
      WithoutAt(es, i, a);
      WithoutAt(es, i, b);
      assert StampOf(h, es[if a < i then a else a + 1]) < StampOf(h, es[if b < i then b else b + 1]);
    }
  }

  // ---- Steps that leave the messages alone -----------------------------------

  ghost predicate Still(w: World, w2: World) {
    && w2.q.entries == w.q.entries && w2.nextEntry == w.nextEntry
    && (w2.q.active == w.q.active || w2.q.active == None)
    && w2.q.enqueued == w.q.enqueued && w2.q.sent == w.q.sent && w2.q.replaced == w.q.replaced
    && w2.q.expired == w.q.expired && w2.q.discarded == w.q.discarded
  }

  /** The sections that change which messages are queued. */
  predicate Sorts(pc: Pc) { pc.Scan? || pc.Sending? || pc.HaltNext? }

  lemma EarlyStill(w: World, t: nat, c: Choice)
    requires t in w.threads && EarlyPump(w.threads[t]) && !Sorts(w.threads[t])
    ensures Still(w, Advance(w, t, c))
  {
  }

  lemma ThrowStill(w: World, t: nat)
    requires t in w.threads && w.threads[t].Sending?
    ensures Still(w, Advance(w, t, Throws))
  {
  }

  lemma LateStill(w: World, t: nat, c: Choice)
    requires t in w.threads && LatePump(w.threads[t]) && !w.threads[t].Arming?
    ensures Still(w, Advance(w, t, c))
  {
  }

  lemma ArmStill(w: World, t: nat, due: int, k: Cont, c: Choice)
    ensures Still(w, ArmStep(w, t, due, k, c))
  {
  }

  lemma ResumeStill(w: World, w1: World, t: nat, k: Cont)
    requires Still(w, w1)
    ensures Still(w, Resume(w1, t, k))
  {
  }

  lemma HaltStill(w: World, t: nat, c: Choice)
    requires t in w.threads && Discarding(w.threads[t]) && !w.threads[t].HaltNext?
    ensures Still(w, Advance(w, t, c))
  {
    if w.threads[t].HaltEntry? { ResumeStill(w, w, t, w.threads[t].k); }
  }

  lemma OtherStill(w: World, t: nat, c: Choice)
    requires t in w.threads && !EarlyPump(w.threads[t]) && !LatePump(w.threads[t]) && !Discarding(w.threads[t])
    ensures Still(w, Advance(w, t, c))
  {
    match w.threads[t]
    case DriveEntry(k) => ResumeStill(w, w.(q := w.q.(changed := true)), t, k);
    case FinishCheck(k) => ResumeStill(w, w.(q := Finish(w.q)), t, k);
    case TimerCheck(x) => ResumeStill(w, w, t, TimerReturn(x));
    case _ =>
  }

  lemma ArrivalStill(w: World, a: Action)
    requires Enabled(w, a) && !a.Run? && !a.Enqueue?
    ensures Still(w, Apply(w, a))
  {
  }

  /** Every action but an accepted Enqueue, a scan, an answered send and a turn of the discard loop. */
  lemma StillStep(w: World, a: Action)
    requires Enabled(w, a) && !a.Enqueue?
    requires a.Run? ==> !Sorts(w.threads[a.tid]) || a.choice == Throws
    ensures Still(w, Apply(w, a))
  {
    hide Still;
    if !a.Run? {
      ArrivalStill(w, a);
    } else if w.threads[a.tid].Sending? {
      ThrowStill(w, a.tid);
    } else if EarlyPump(w.threads[a.tid]) {
      EarlyStill(w, a.tid, a.choice);
    } else if w.threads[a.tid].Arming? {
      ArmStill(w, a.tid, w.threads[a.tid].due, w.threads[a.tid].k, a.choice);
    } else if LatePump(w.threads[a.tid]) {
      LateStill(w, a.tid, a.choice);
    } else if Discarding(w.threads[a.tid]) {
      HaltStill(w, a.tid, a.choice);
    } else {
      OtherStill(w, a.tid, a.choice);
    }
  }

  // ---- Steps that change them ------------------------------------------------

  /** The new message of an Enqueue. */
  function Submitted(w: World, a: Action): Entry
    requires a.Enqueue?
  {
    Entry(w.nextEntry, a.bytes, a.latestKey, a.expires)
  }

  lemma NewStampIs(w: World, h: History, key: Option<nat>, x: Entry)
    requires Distinct(w.q.entries) && Replaces(w, key, x)
    ensures NewStamp(h, w, key) == StampOf(h, x)
  {
    var es := w.q.entries;
    var i :| 0 <= i < |es| && es[i] == x;
    forall y | Replaces(w, key, y) ensures y == x {
      var j :| 0 <= j < |es| && es[j] == y;
      assert Clash(es[i], es[j]);
    }
  }

  /** Stamps given earlier stay. */
  lemma NotedKeeps(w: World, h: History, a: Action, n: nat)
    requires Enabled(w, a) && n in h && (forall m :: m in h ==> m < w.nextEntry)
    ensures n in Noted(h, w, a) && Noted(h, w, a)[n] == h[n]
  {
  }

  /** The new message stands where the one it replaces stood, and that one was not being sent. */
  ghost predicate ReplacesAt(w: World, w2: World, a: Action, i: nat)
    requires a.Enqueue? && i < |w.q.entries|
  {
    && Replaces(w, a.latestKey, w.q.entries[i]) && w.q.active != Some(w.q.entries[i])
    && w2.q.entries == w.q.entries[i := Submitted(w, a)]
  }

  /** An accepted message stands last, or where the one it replaces stood. */
  lemma EnqueueShape(w: World, a: Action)
    requires Enabled(w, a) && a.Enqueue?
    ensures var es, e, w2 := w.q.entries, Submitted(w, a), Apply(w, a);
      if !Accepted(w, a) then w2 == w
      else
        && w2.nextEntry == w.nextEntry + 1 && w2.q.active == w.q.active
        && ((w2.q.entries == es + [e] && !(exists x :: Replaces(w, a.latestKey, x)))
            || (exists i :: 0 <= i < |es| && ReplacesAt(w, w2, a, i)))
  {
    var es := w.q.entries;
    var i := if a.latestKey.Some? then FindLatest(es, a.latestKey) else |es|;
    if i < |es| {
      assert Replaces(w, a.latestKey, es[i]);
      assert Accepted(w, a) ==> ReplacesAt(w, Apply(w, a), a, i);
    }
  }

  lemma AppendOrdered(w: World, w2: World, h: History, h2: History, e: Entry)
    requires Ordered(w, h) && e.id == w.nextEntry
    requires h2 == h[e.id := Admission(w.nextEntry, e.bytes, e.latestKey, e.expires)]
    requires w2.q.entries == w.q.entries + [e] && w2.q.active == w.q.active && w2.nextEntry == w.nextEntry + 1
    ensures Ordered(w2, h2)
  {
    var es := w.q.entries;
    forall x | x in es ensures AsPassed(h2, x, w2.nextEntry) && StampOf(h2, x) == StampOf(h, x) {
      assert AsPassed(h, x, w.nextEntry);
    }
    forall i, j | 0 <= i < j < |w2.q.entries| ensures StampOf(h2, w2.q.entries[i]) < StampOf(h2, w2.q.entries[j]) {
      assert es[i] in es;
      if j < |es| { assert es[j] in es; }
    }
  }

  lemma ReplaceOrdered(w: World, w2: World, h: History, h2: History, i: nat, e: Entry)
    requires Ordered(w, h) && e.id == w.nextEntry && i < |w.q.entries| && w.q.active != Some(w.q.entries[i])
    requires h2 == h[e.id := Admission(StampOf(h, w.q.entries[i]), e.bytes, e.latestKey, e.expires)]
    requires w2.q.entries == w.q.entries[i := e] && w2.q.active == w.q.active && w2.nextEntry == w.nextEntry + 1
    ensures Ordered(w2, h2)
  {
    var es := w.q.entries;
    forall x | x in es ensures AsPassed(h2, x, w2.nextEntry) && StampOf(h2, x) == StampOf(h, x) {
      assert AsPassed(h, x, w.nextEntry);
    }
    forall k | 0 <= k < |es| ensures StampOf(h2, w2.q.entries[k]) == StampOf(h, es[k]) {
      assert es[k] in es;
    }
  }

  lemma EnqueueOrdered(w: World, h: History, a: Action)
    requires Distinct(w.q.entries) && Ordered(w, h) && Enabled(w, a) && a.Enqueue?
    ensures Ordered(Apply(w, a), Noted(h, w, a))
  {
    EnqueueShape(w, a);
    hide Ordered, Distinct, Apply;
    if Accepted(w, a) {
      var es, e, w2 := w.q.entries, Submitted(w, a), Apply(w, a);
      if exists x :: Replaces(w, a.latestKey, x) {
        var i :| 0 <= i < |es| && ReplacesAt(w, w2, a, i);
        NewStampIs(w, h, a.latestKey, es[i]);
        ReplaceOrdered(w, w2, h, Noted(h, w, a), i, e);
      } else {
        AppendOrdered(w, w2, h, Noted(h, w, a), e);
      }
    }
  }

  lemma ScanOrdered(w: World, h: History, t: nat)
    requires Safe(w) && Ordered(w, h) && t in w.threads && w.threads[t].Scan?
    ensures Ordered(Advance(w, t, Plain), h)
  {
    assert w.pump == Some(t);
    LiveRising(w.q.entries, w.clock, h);
    forall e | e in Live(w.q.entries, w.clock) ensures e in w.q.entries { LiveMembers(w.q.entries, w.clock, e); }
  }

  lemma ThinnedOrdered(w: World, w2: World, h: History, i: nat)
    requires Distinct(w.q.entries) && Ordered(w, h) && i < |w.q.entries| && w2.nextEntry == w.nextEntry
    requires w2.q.entries == Without(w.q.entries, i)
    requires w2.q.active == None || (w2.q.active == w.q.active && w.q.active != Some(w.q.entries[i]))
    ensures Ordered(w2, h)
  {
    WithoutRising(w.q.entries, i, h);
    forall e | e in w2.q.entries ensures e in w.q.entries { WithoutMembers(w.q.entries, i, e); }
    if w2.q.active.Some? { WithoutAt(w.q.entries, i, 0); }
  }

  lemma SendOrdered(w: World, h: History, t: nat, code: ErrorCode)
    requires Safe(w) && Ordered(w, h) && t in w.threads && w.threads[t].Sending?
    ensures Ordered(Advance(w, t, SendResult(code)), h)
  {
    var e := w.threads[t].entry;
    assert w.pump == Some(t) && e in w.q.entries;
    if code == Ok || w.q.closed {
      ThinnedOrdered(w, Advance(w, t, SendResult(code)), h, FindEntry(w.q.entries, e));
    }
  }

  lemma DetachOrdered(w: World, h: History, t: nat)
    requires Safe(w) && Ordered(w, h) && t in w.threads && w.threads[t].HaltNext?
    ensures Ordered(Advance(w, t, Plain), h)
  {
    var i := FindIdle(w.q.entries, w.q.active);
    if i < |w.q.entries| { ThinnedOrdered(w, Advance(w, t, Plain), h, i); }
  }

  lemma StillOrdered(w: World, w2: World, h: History)
    requires Ordered(w, h) && Still(w, w2)
    ensures Ordered(w2, h)
  {
  }

  lemma StepOrdered(w: World, h: History, a: Action)
    requires Safe(w) && Ordered(w, h) && Enabled(w, a)
    ensures Ordered(Apply(w, a), Noted(h, w, a))
  {
    if a.Enqueue? {
      EnqueueOrdered(w, h, a);
    } else if a.Run? && Sorts(w.threads[a.tid]) && a.choice != Throws {
      RunNotes(w, a);
      hide Ordered, Safe;
      match w.threads[a.tid]
      case Scan(_, _) => ScanOrdered(w, h, a.tid);
      case Sending(_, _, _) => SendOrdered(w, h, a.tid, a.choice.code);
      case HaltNext(_) => DetachOrdered(w, h, a.tid);
    } else {
      StillStep(w, a);
      hide Ordered;
      StillOrdered(w, Apply(w, a), h);
    }
  }

  lemma RunNotes(w: World, a: Action)
    requires Enabled(w, a) && a.Run?
    ensures !Accepted(w, a)
  {
  }

  // ---- Whole runs ------------------------------------------------------------

  lemma RunOrdered(ws: seq<World>, acts: seq<Action>, i: nat)
    requires IsRun(ws, acts) && i <= |acts|
    ensures Safe(ws[i]) && Ordered(ws[i], Recorded(ws, acts, i))
  {
    hide Safe, Ordered, Apply, Enabled, Noted;
    InitiallyOrdered(ws, acts);
    RunSafe(ws, acts, i);
    for j := 0 to i
      invariant Ordered(ws[j], Recorded(ws, acts, j))
    {
      RunSafe(ws, acts, j);
      StepOrdered(ws[j], Recorded(ws, acts, j), acts[j]);
    }
  }

  lemma InitiallyOrdered(ws: seq<World>, acts: seq<Action>)
    requires IsRun(ws, acts)
    ensures Ordered(ws[0], Recorded(ws, acts, 0))
  {
  }
}
