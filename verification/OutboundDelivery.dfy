/**
  What callers and the sink see of the queue over a whole run: who is admitted, who is sent when, who leaves and why.
 */
module OutboundDelivery {
  import opened Common
  import opened OutboundQueue
  import opened OutboundPump
  import opened OutboundSafety
  import opened OutboundClaims
  import opened OutboundOrder

  predicate Timely(expires: Option<int>, now: int) { expires.None? || now < expires.value }

  /** The queue is in the order of the stamps, and every queued message is as its caller passed it. */
  lemma QueueKeepsAdmissionOrder(ws: seq<World>, acts: seq<Action>, i: nat)
    requires IsRun(ws, acts) && i <= |acts|
    ensures Rising(ws[i].q.entries, Recorded(ws, acts, i))
    ensures forall e :: e in ws[i].q.entries ==> AsPassed(Recorded(ws, acts, i), e, ws[i].nextEntry)
  {
    RunOrdered(ws, acts, i);
  }

  /** While the sink has a message, no queued message has a lower stamp. */
  lemma SinkHasTheFirst(ws: seq<World>, acts: seq<Action>, i: nat, t: nat)
    requires IsRun(ws, acts) && i <= |acts| && t in ws[i].threads && ws[i].threads[t].Sending?
    ensures First(ws[i], Recorded(ws, acts, i), ws[i].threads[t].entry)
  {
    RunOrdered(ws, acts, i);
    assert ws[i].pump == Some(t);
    FrontIsFirst(ws[i], Recorded(ws, acts, i));
  }

  /** A scan of the queue by a driver with `n` attempts behind it. */
  predicate Scans(w: World, a: Action) { a.Run? && a.tid in w.threads && w.threads[a.tid].Scan? }

  ghost predicate HasTimely(w: World) { exists e :: e in w.q.entries && Timely(e.expires, w.clock) }

  /**
  A scan retires exactly what has expired.  It picks a message exactly when the queue is open, an
  unexpired one is there and the drive has attempts left; it is then the lowest stamp among those.
  Out of attempts, it asks to be continued.
  */
  lemma ScanPicksTheFirst(ws: seq<World>, acts: seq<Action>, i: nat)
    requires IsRun(ws, acts) && i < |acts| && Scans(ws[i], acts[i])
    ensures acts[i].tid in ws[i + 1].threads && ws[i + 1].threads[acts[i].tid].ReleaseExpired?
    ensures var w, h, n := ws[i], Recorded(ws, acts, i), ws[i].threads[acts[i].tid].attempts;
      var pc := ws[i + 1].threads[acts[i].tid];
      && (forall e :: e in pc.retired <==> e in w.q.entries && !Timely(e.expires, w.clock))
      && (pc.item.Some? <==> !w.q.closed && HasTimely(w) && n < w.opts.maxPumpMessages)
      && (pc.item.Some? ==> pc.item.value in w.q.entries && Timely(pc.item.value.expires, w.clock))
      && (pc.item.Some? ==> forall e :: e in w.q.entries && Timely(e.expires, w.clock) ==>
            e == pc.item.value || StampOf(h, pc.item.value) < StampOf(h, e))
      && (pc.continuation <==> !w.q.closed && HasTimely(w) && n >= w.opts.maxPumpMessages)
  {
    RunOrdered(ws, acts, i);
    ScanPicks(ws[i], Recorded(ws, acts, i), acts[i].tid);
  }

  lemma {:induction false} ExpiredMembers(es: seq<Entry>, now: int, e: Entry)
    ensures e in Expired(es, now) <==> e in es && ExpiredAt(e, now)
  {
    if es != [] {
      ExpiredMembers(es[1..], now, e);
      assert e in es <==> e == es[0] || e in es[1..];
    }
  }

  lemma ScanPicks(w: World, h: History, t: nat)
    requires Rising(w.q.entries, h) && t in w.threads && w.threads[t].Scan?
    ensures var n, pc := w.threads[t].attempts, Advance(w, t, Plain).threads[t];
      && pc.ReleaseExpired?
      && (forall e :: e in pc.retired <==> e in w.q.entries && !Timely(e.expires, w.clock))
      && (pc.item.Some? <==> !w.q.closed && HasTimely(w) && n < w.opts.maxPumpMessages)
      && (pc.item.Some? ==> pc.item.value in w.q.entries && Timely(pc.item.value.expires, w.clock))
      && (pc.item.Some? ==> forall e :: e in w.q.entries && Timely(e.expires, w.clock) ==>
            e == pc.item.value || StampOf(h, pc.item.value) < StampOf(h, e))
      && (pc.continuation <==> !w.q.closed && HasTimely(w) && n >= w.opts.maxPumpMessages)
  {
    var es, live := w.q.entries, Live(w.q.entries, w.clock);
    forall e ensures e in live <==> e in es && Timely(e.expires, w.clock) { LiveMembers(es, w.clock, e); }
    forall e ensures e in Expired(es, w.clock) <==> e in es && !Timely(e.expires, w.clock) {
      ExpiredMembers(es, w.clock, e);
    }
    LiveRising(es, w.clock, h);
    if live != [] {
      assert live[0] in live;
      var w1 := w.(q := w.q.(entries := live));
      FrontIsFirst(w1, h);
      assert forall e :: e in live ==> e == live[0] || StampOf(h, live[0]) < StampOf(h, e);
    }
    assert HasTimely(w) <==> live != [];
  }

  // ---- Who leaves ------------------------------------------------------------

  /** The sink's answer arrives. */
  predicate Answered(w: World, a: Action) {
    a.Run? && a.tid in w.threads && w.threads[a.tid].Sending? && a.choice.SendResult?
  }

  /** The sink took the message. */
  predicate Took(w: World, a: Action) { Answered(w, a) && a.choice.code == Ok }

  /** `e` is the first message of the queue that is not being sent. */
  ghost predicate FirstIdle(w: World, h: History, e: Entry) {
    && e in w.q.entries && w.q.active != Some(e)
    && forall x :: x in w.q.entries && w.q.active != Some(x) ==> x == e || StampOf(h, e) < StampOf(h, x)
  }

  ghost predicate Departs(w: World, h: History, a: Action, e: Entry)
    requires Enabled(w, a)
  {
    || (Accepted(w, a) && Replaces(w, a.latestKey, e))
    || (Scans(w, a) && !Timely(e.expires, w.clock))
    || (Answered(w, a) && w.threads[a.tid].entry == e && (a.choice.code == Ok || w.q.closed))
    || (a.Run? && w.threads[a.tid].HaltNext? && FirstIdle(w, h, e))
  }

  /** A step changes the queue by exactly these departures and this arrival. */
  ghost predicate ExactChange(w: World, h: History, a: Action, w2: World)
    requires Enabled(w, a)
  {
    && (forall e :: e in w.q.entries ==> (e !in w2.q.entries <==> Departs(w, h, a, e)))
    && (forall e :: e in w2.q.entries && e !in w.q.entries ==> Accepted(w, a) && e == Submitted(w, a))
    && (Accepted(w, a) ==> Submitted(w, a) in w2.q.entries)
  }

  lemma EnqueueChanges(w: World, h: History, a: Action)
    requires Safe(w) && Ordered(w, h) && Enabled(w, a) && a.Enqueue?
    ensures ExactChange(w, h, a, Apply(w, a))
  {
    EnqueueShape(w, a);
    var es, e, w2 := w.q.entries, Submitted(w, a), Apply(w, a);
    assert e !in es;
    hide Safe, Ordered, Apply;
    if Accepted(w, a) {
      if i :| 0 <= i < |es| && ReplacesAt(w, w2, a, i) {
        assert w2.q.entries[i] == e;
        forall x | x in es ensures x !in w2.q.entries <==> x.latestKey == a.latestKey {
          var j :| 0 <= j < |es| && es[j] == x;
          assert w2.q.entries[j] == if j == i then e else x;
          OneOfAKey(w, i, j);
        }
      }
    }
  }

  lemma OneOfAKey(w: World, i: nat, j: nat)
    requires Safe(w) && i < |w.q.entries| && j < |w.q.entries| && w.q.entries[i].latestKey.Some?
    ensures w.q.entries[i].latestKey == w.q.entries[j].latestKey <==> i == j
    ensures w.q.entries[i] == w.q.entries[j] <==> i == j
  {
    var es := w.q.entries;
    if i < j { assert !Clash(es[i], es[j]); } else if j < i { assert !Clash(es[j], es[i]); }
  }

  lemma ScanChanges(w: World, h: History, a: Action)
    requires Enabled(w, a) && Scans(w, a)
    ensures ExactChange(w, h, a, Apply(w, a))
  {
    forall e ensures e in Live(w.q.entries, w.clock) <==> e in w.q.entries && Timely(e.expires, w.clock) {
      LiveMembers(w.q.entries, w.clock, e);
    }
  }

  lemma SendChanges(w: World, h: History, a: Action)
    requires Safe(w) && Enabled(w, a) && Answered(w, a)
    ensures ExactChange(w, h, a, Apply(w, a))
  {
    var e := w.threads[a.tid].entry;
    assert w.pump == Some(a.tid) && e in w.q.entries;
    if a.choice.code == Ok || w.q.closed {
      var i := FindEntry(w.q.entries, e);
      forall x
        ensures x in Without(w.q.entries, i) <==> x in w.q.entries && x != e
      {
        WithoutMembers(w.q.entries, i, x);
      }
    }
  }

  lemma IdleIsFirst(w: World, h: History, e: Entry)
    requires Rising(w.q.entries, h) && e in w.q.entries
    ensures var i := FindIdle(w.q.entries, w.q.active);
      FirstIdle(w, h, e) <==> i < |w.q.entries| && e == w.q.entries[i]
  {
    var es, i := w.q.entries, FindIdle(w.q.entries, w.q.active);
    if i < |es| {
      forall x | x in es && w.q.active != Some(x) ensures x == es[i] || StampOf(h, es[i]) < StampOf(h, x) {
        var j :| 0 <= j < |es| && es[j] == x;
      }
      assert FirstIdle(w, h, es[i]);
      assert es[i] in es;
    }
  }

  lemma DetachChanges(w: World, h: History, a: Action)
    requires Safe(w) && Ordered(w, h) && Enabled(w, a) && a.Run? && w.threads[a.tid].HaltNext?
    ensures ExactChange(w, h, a, Apply(w, a))
  {
    var es, i := w.q.entries, FindIdle(w.q.entries, w.q.active);
    forall e | e in es ensures FirstIdle(w, h, e) <==> i < |es| && e == es[i] { IdleIsFirst(w, h, e); }
    if i < |es| {
      forall x ensures x in Without(es, i) <==> x in es && x != es[i] { WithoutMembers(es, i, x); }
    }
  }

  lemma StillChanges(w: World, h: History, a: Action)
    requires Enabled(w, a) && Still(w, Apply(w, a))
    requires !a.Enqueue? && (a.Run? ==> !Sorts(w.threads[a.tid]) || a.choice == Throws)
    ensures ExactChange(w, h, a, Apply(w, a))
  {
  }

  lemma StepChanges(w: World, h: History, a: Action)
    requires Safe(w) && Ordered(w, h) && Enabled(w, a)
    ensures ExactChange(w, h, a, Apply(w, a))
  {
    hide Safe, Ordered, ExactChange, Still;
    if a.Enqueue? {
      EnqueueChanges(w, h, a);
    } else if a.Run? && Sorts(w.threads[a.tid]) && a.choice != Throws {
      match w.threads[a.tid]
      case Scan(_, _) => ScanChanges(w, h, a);
      case Sending(_, _, _) => SendChanges(w, h, a);
      case HaltNext(_) => DetachChanges(w, h, a);
    } else {
      StillStep(w, a);
      StillChanges(w, h, a);
    }
  }

  /**
  Over every step of every run a message leaves the queue exactly when it is replaced, has expired at a
  scan, was answered with Ok or after the close, or is the next one of the discard loop.
  */
  lemma LeavesForACause(ws: seq<World>, acts: seq<Action>, i: nat)
    requires IsRun(ws, acts) && i < |acts|
    ensures ExactChange(ws[i], Recorded(ws, acts, i), acts[i], ws[i + 1])
  {
    hide Safe, Ordered, ExactChange;
    RunOrdered(ws, acts, i);
    StepChanges(ws[i], Recorded(ws, acts, i), acts[i]);
  }

  // ---- What the sink takes rises in the stamps -------------------------------

  /** Everything queued, and everything yet to come, is stamped above `s`. */
  ghost predicate Above(w: World, h: History, s: nat) {
    s < w.nextEntry && forall x :: x in w.q.entries ==> s < StampOf(h, x)
  }

  lemma NotedAbove(w: World, h: History, a: Action, s: nat)
    requires Enabled(w, a) && Accepted(w, a) && Above(w, h, s)
    ensures s < NewStamp(h, w, a.latestKey)
  {
  }

  lemma StepAbove(w: World, h: History, a: Action, s: nat)
    requires Ordered(w, h) && Enabled(w, a) && Above(w, h, s) && ExactChange(w, h, a, Apply(w, a))
    ensures Above(Apply(w, a), Noted(h, w, a), s)
  {
    var w2, h2 := Apply(w, a), Noted(h, w, a);
    NextGrows(w, a);
    hide Apply;
    forall x | x in w2.q.entries ensures s < StampOf(h2, x) {
      if x in w.q.entries {
        assert AsPassed(h, x, w.nextEntry);
        NotedKeeps(w, h, a, x.id);
      } else {
        NotedAbove(w, h, a, s);
      }
    }
  }

  lemma NextGrows(w: World, a: Action)
    requires Enabled(w, a)
    ensures w.nextEntry <= Apply(w, a).nextEntry
  {
    if !a.Enqueue? && (a.Run? ==> !Sorts(w.threads[a.tid]) || a.choice == Throws) { StillStep(w, a); }
  }

  lemma TookAbove(w: World, h: History, a: Action)
    requires Ordered(w, h) && Enabled(w, a) && Took(w, a) && First(w, h, w.threads[a.tid].entry)
    requires ExactChange(w, h, a, Apply(w, a)) && !Accepted(w, a)
    ensures Above(Apply(w, a), h, StampOf(h, w.threads[a.tid].entry))
  {
    NextGrows(w, a);
    hide Apply;
    assert AsPassed(h, w.threads[a.tid].entry, w.nextEntry);
    var w2 := Apply(w, a);
    forall x | x in w2.q.entries ensures StampOf(h, w.threads[a.tid].entry) < StampOf(h, x) {
      assert x in w.q.entries;
    }
  }

  lemma TookLeavesAbove(ws: seq<World>, acts: seq<Action>, i: nat)
    requires IsRun(ws, acts) && i < |acts| && Took(ws[i], acts[i])
    ensures Above(ws[i + 1], Recorded(ws, acts, i + 1), StampOf(Recorded(ws, acts, i), ws[i].threads[acts[i].tid].entry))
  {
    hide Safe, Ordered, ExactChange, First, Above;
    RunNotes(ws[i], acts[i]);
    RunOrdered(ws, acts, i);
    SinkHasTheFirst(ws, acts, i, acts[i].tid);
    LeavesForACause(ws, acts, i);
    TookAbove(ws[i], Recorded(ws, acts, i), acts[i]);
  }

  lemma AboveOnce(ws: seq<World>, acts: seq<Action>, k: nat, s: nat)
    requires IsRun(ws, acts) && k < |acts| && Above(ws[k], Recorded(ws, acts, k), s)
    ensures Above(ws[k + 1], Recorded(ws, acts, k + 1), s)
  {
    hide Safe, Ordered, ExactChange, Above, Apply, Noted, Enabled;
    RunOrdered(ws, acts, k);
    LeavesForACause(ws, acts, k);
    StepAbove(ws[k], Recorded(ws, acts, k), acts[k], s);
  }

  lemma AboveStays(ws: seq<World>, acts: seq<Action>, i: nat, j: nat, s: nat)
    requires IsRun(ws, acts) && i <= j <= |acts| && Above(ws[i], Recorded(ws, acts, i), s)
    ensures Above(ws[j], Recorded(ws, acts, j), s)
  {
    hide Above, Recorded, Apply, Enabled;
    for k := i to j
      invariant Above(ws[k], Recorded(ws, acts, k), s)
    {
      AboveOnce(ws, acts, k, s);
    }
  }

  /**
  First in, first out: of two messages the sink took in a run, the earlier has the lower stamp.  A
  replacement is sent in the place of what it replaced, and no message is taken twice.
  */
  lemma SendsRise(ws: seq<World>, acts: seq<Action>, i: nat, j: nat)
    requires IsRun(ws, acts) && i < j < |acts| && Took(ws[i], acts[i]) && Took(ws[j], acts[j])
    ensures var e, f := ws[i].threads[acts[i].tid].entry, ws[j].threads[acts[j].tid].entry;
      StampOf(Recorded(ws, acts, i), e) < StampOf(Recorded(ws, acts, j), f)
  {
    hide Recorded, StampOf, Apply, Enabled;
    TookLeavesAbove(ws, acts, i);
    AboveStays(ws, acts, i + 1, j, StampOf(Recorded(ws, acts, i), ws[i].threads[acts[i].tid].entry));
    SinkHasTheFirst(ws, acts, j, acts[j].tid);
  }

  /** A stamp, once given, is never changed. */
  lemma StampsStay(ws: seq<World>, acts: seq<Action>, i: nat, j: nat, n: nat)
    requires IsRun(ws, acts) && i <= j <= |acts| && n in Recorded(ws, acts, i)
    ensures n in Recorded(ws, acts, j) && Recorded(ws, acts, j)[n] == Recorded(ws, acts, i)[n]
  {
    for k := i to j
      invariant n in Recorded(ws, acts, k) && Recorded(ws, acts, k)[n] == Recorded(ws, acts, i)[n]
    {
      RunOrdered(ws, acts, k);
      NotedKeeps(ws[k], Recorded(ws, acts, k), acts[k], n);
    }
  }

  // ---- Who is admitted -------------------------------------------------------

  /** The charge of `bytes` fits once `freed` is returned. */
  predicate Fits(w: World, bytes: nat, freed: nat) { w.q.retained - freed + bytes <= w.opts.maxRetainedBytes }

  ghost predicate Admissible(w: World, a: Action)
    requires a.Enqueue?
  {
    && a.bytes <= w.opts.maxRetainedBytes && Timely(a.expires, w.clock) && !w.q.closed && !w.q.draining
    && (forall x :: Replaces(w, a.latestKey, x) ==> w.q.active != Some(x) && Fits(w, a.bytes, x.bytes))
    && ((exists x :: Replaces(w, a.latestKey, x)) || (w.q.pending < w.opts.maxMessages && Fits(w, a.bytes, 0)))
  }

  /**
  In every reachable state a message is admitted if and only if the queue takes messages and there is
  room: for a replacement, room once the replaced message's charge is returned and unless that one is
  being sent; for any other, one more message and its bytes.  A refused message changes nothing, and
  past the checks before the lock it is told Closed exactly when the queue takes none.
  */
  lemma AdmittedIff(ws: seq<World>, acts: seq<Action>, i: nat, a: Action)
    requires IsRun(ws, acts) && i < |ws| && Enabled(ws[i], a) && a.Enqueue?
    ensures Accepted(ws[i], a) <==> Admissible(ws[i], a)
    ensures !Accepted(ws[i], a) ==> Apply(ws[i], a) == ws[i]
    ensures a.bytes <= ws[i].opts.maxRetainedBytes && Timely(a.expires, ws[i].clock) ==>
      Admit(ws[i].q, ws[i].opts, Submitted(ws[i], a)).code ==
        if ws[i].q.closed || ws[i].q.draining then Closed else if Admissible(ws[i], a) then Ok else WouldBlock
  {
    RunSafe(ws, acts, i);
    AdmitIff(ws[i], a);
  }

  lemma AdmitIff(w: World, a: Action)
    requires Safe(w) && Enabled(w, a) && a.Enqueue?
    ensures Accepted(w, a) <==> Admissible(w, a)
    ensures !Accepted(w, a) ==> Apply(w, a) == w
    ensures a.bytes <= w.opts.maxRetainedBytes && Timely(a.expires, w.clock) ==>
      Admit(w.q, w.opts, Submitted(w, a)).code ==
        if w.q.closed || w.q.draining then Closed else if Admissible(w, a) then Ok else WouldBlock
  {
    var es := w.q.entries;
    assert w.q.pending <= w.opts.maxMessages;
    var i := if a.latestKey.Some? then FindLatest(es, a.latestKey) else |es|;
    if i < |es| {
      assert Replaces(w, a.latestKey, es[i]);
      forall x | Replaces(w, a.latestKey, x) ensures x == es[i] {
        var j :| 0 <= j < |es| && es[j] == x;
        OneOfAKey(w, i, j);
      }
    }
  }

  // ---- Counters --------------------------------------------------------------

  /** What a run did, counted from its actions. */
  datatype Tally = Tally(enqueued: nat, sent: nat, replaced: nat, discarded: nat)

  ghost predicate DropsOne(w: World, a: Action) {
    || (Answered(w, a) && a.choice.code != Ok && w.q.closed)
    || (a.Run? && a.tid in w.threads && w.threads[a.tid].HaltNext? && exists e :: e in w.q.entries && w.q.active != Some(e))
  }

  ghost function Counted(n: Tally, w: World, a: Action): Tally
    requires Enabled(w, a)
  {
    if Accepted(w, a) then
      n.(enqueued := n.enqueued + 1,
         replaced := if exists x :: Replaces(w, a.latestKey, x) then n.replaced + 1 else n.replaced)
    else if Took(w, a) then n.(sent := n.sent + 1)
    else if DropsOne(w, a) then n.(discarded := n.discarded + 1) else n
  }

  ghost function Tallied(ws: seq<World>, acts: seq<Action>, i: nat): Tally
    requires IsRun(ws, acts) && i <= |acts|
  {
    if i == 0 then Tally(0, 0, 0, 0) else Counted(Tallied(ws, acts, i - 1), ws[i - 1], acts[i - 1])
  }

  ghost predicate Shows(w: World, n: Tally) {
    w.q.enqueued == n.enqueued && w.q.sent == n.sent && w.q.replaced == n.replaced && w.q.discarded == n.discarded
  }

  lemma EnqueueCounts(w: World, a: Action, n: Tally)
    requires Enabled(w, a) && a.Enqueue? && Shows(w, n)
    ensures Shows(Apply(w, a), Counted(n, w, a))
  {
    var es := w.q.entries;
    var i := if a.latestKey.Some? then FindLatest(es, a.latestKey) else |es|;
    if i < |es| { assert Replaces(w, a.latestKey, es[i]); }
  }

  lemma RunCounts(w: World, a: Action, n: Tally)
    requires Enabled(w, a) && a.Run? && Sorts(w.threads[a.tid]) && a.choice != Throws && Shows(w, n)
    ensures Shows(Apply(w, a), Counted(n, w, a))
  {
    RunNotes(w, a);
    var i := FindIdle(w.q.entries, w.q.active);
    assert i < |w.q.entries| ==> w.q.entries[i] in w.q.entries;
  }

  lemma StillCounts(w: World, a: Action, n: Tally)
    requires Enabled(w, a) && !a.Enqueue? && (a.Run? ==> !Sorts(w.threads[a.tid]) || a.choice == Throws) && Shows(w, n)
    ensures Shows(Apply(w, a), Counted(n, w, a))
  {
    StillStep(w, a);
    assert !Accepted(w, a) && !Answered(w, a);
  }

  lemma InitiallyShows(ws: seq<World>, acts: seq<Action>)
    requires IsRun(ws, acts)
    ensures Shows(ws[0], Tallied(ws, acts, 0))
  {
  }

  /** The counters say what happened: how many callers were admitted, how many sends the sink took, and so on. */
  lemma CountersTellTheRun(ws: seq<World>, acts: seq<Action>, i: nat)
    requires IsRun(ws, acts) && i <= |acts|
    ensures var q, n := ws[i].q, Tallied(ws, acts, i);
      && q.enqueued == n.enqueued && q.sent == n.sent && q.replaced == n.replaced && q.discarded == n.discarded
      && q.expired == n.enqueued - n.sent - n.replaced - n.discarded - |q.entries|
  {
    RunSafe(ws, acts, i);
    assert Accounts(ws[i].q, ws[i].opts, Holding(ws[i]));
    InitiallyShows(ws, acts);
    hide Safe, Apply, Enabled, Counted, Accounts;
    for j := 0 to i
      invariant Shows(ws[j], Tallied(ws, acts, j))
    {
      var a := acts[j];
      if a.Enqueue? {
        EnqueueCounts(ws[j], a, Tallied(ws, acts, j));
      } else if a.Run? && Sorts(ws[j].threads[a.tid]) && a.choice != Throws {
        RunCounts(ws[j], a, Tallied(ws, acts, j));
      } else {
        StillCounts(ws[j], a, Tallied(ws, acts, j));
      }
    }
  }
}
