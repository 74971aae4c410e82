/**
Two scheduler-full deferrals that overlap lose a wake.  The run below ends with a message in
an open queue, no thread running, and no subscription or timer left that could fire.
*/
module OutboundOverlap {
  import opened Common
  import opened OutboundQueue
  import opened OutboundPump
  import opened OutboundSafety

  const LIMITS := Options(4, 10, 1)

  function Message(id: nat): Entry { Entry(id, 1, None, None) }

  ghost predicate Reachable(w: World) {
    exists ws, acts :: IsRun(ws, acts) && ws[|acts|] == w
  }

  lemma Act(w: World, a: Action)
    requires Reachable(w) && Enabled(w, a)
    ensures Reachable(Apply(w, a))
  {
    var ws, acts :| IsRun(ws, acts) && ws[|acts|] == w;
    var ws2, acts2 := ws + [Apply(w, a)], acts + [a];
    forall i | 0 <= i < |acts2| ensures Enabled(ws2[i], acts2[i]) && ws2[i + 1] == Apply(ws2[i], acts2[i]) {
      if i < |acts| { assert ws2[i] == ws[i] && ws2[i + 1] == ws[i + 1] && acts2[i] == acts[i]; }
    }
    assert IsRun(ws2, acts2) && ws2[|acts2|] == Apply(w, a);
  }

  lemma RunDrive(w: World, t: nat, k: Cont)
    requires Reachable(w) && t in w.threads && w.threads[t] == DriveEntry(k)
    ensures Reachable(DriveStep(w, t, k))
  {
    hide Reachable;
    Act(w, Run(t, Plain));
  }

  lemma RunTakeCapacity(w: World, t: nat, k: Cont)
    requires Reachable(w) && t in w.threads && w.threads[t] == TakeCapacity(k)
    ensures Reachable(TakeCapacityStep(w, t, k))
  {
    hide Reachable;
    Act(w, Run(t, Plain));
  }

  lemma RunReset(w: World, t: nat, cs: set<nat>, next: AfterReset, k: Cont)
    requires Reachable(w) && t in w.threads && w.threads[t] == ResetWaits(cs, next, k)
    ensures Reachable(ResetStep(w, t, cs, next, k))
  {
    hide Reachable;
    Act(w, Run(t, Plain));
  }

  lemma RunScan(w: World, t: nat, n: nat, k: Cont)
    requires Reachable(w) && t in w.threads && w.threads[t] == Scan(n, k)
    ensures Reachable(ScanStep(w, t, n, k))
  {
    hide Reachable;
    Act(w, Run(t, Plain));
  }

  lemma RunReleaseExpired(w: World, t: nat, r: seq<Entry>, i: Option<Entry>, cont: bool, n: nat, k: Cont)
    requires Reachable(w) && t in w.threads && w.threads[t] == ReleaseExpired(r, i, cont, n, k)
    ensures Reachable(ReleaseExpiredStep(w, t, r, i, cont, n, k))
  {
    hide Reachable;
    Act(w, Run(t, Plain));
  }

  lemma RunSend(w: World, t: nat, e: Entry, n: nat, k: Cont)
    requires Reachable(w) && t in w.threads && w.threads[t] == Sending(e, n, k)
    ensures Reachable(SendStep(w, t, e, n, k, SendResult(Ok)))
  {
    hide Reachable;
    Act(w, Run(t, SendResult(Ok)));
  }

  lemma RunReleaseSent(w: World, t: nat, r: seq<Entry>, n: nat, k: Cont)
    requires Reachable(w) && t in w.threads && w.threads[t] == ReleaseSent(r, Ok, n, k)
    ensures Reachable(ReleaseSentStep(w, t, r, Ok, n, k))
  {
    hide Reachable;
    Act(w, Run(t, Plain));
  }

  lemma RunFinal(w: World, t: nat, cont: bool, k: Cont)
    requires Reachable(w) && t in w.threads && w.threads[t] == FinalCheck(cont, k)
    ensures Reachable(FinalStep(w, t, cont, k))
  {
    hide Reachable;
    Act(w, Run(t, Plain));
  }

  lemma RunArm(w: World, t: nat, due: int, k: Cont, c: Choice)
    requires Reachable(w) && t in w.threads && w.threads[t] == Arming(due, k) && ChoiceFits(w.threads[t], c)
    ensures Reachable(ArmStep(w, t, due, k, c))
  {
    hide Reachable;
    Act(w, Run(t, c));
  }

  lemma RunDeferSubscribe(w: World, t: nat, g: nat, x: nat, k: Cont)
    requires Reachable(w) && t in w.threads && w.threads[t] == DeferSubscribe(g, x, k)
    ensures Reachable(DeferSubscribeStep(w, t, g, x, k, Accepts))
  {
    hide Reachable;
    Act(w, Run(t, Accepts));
  }

  lemma RunDeferStore(w: World, t: nat, v: nat, k: Cont)
    requires Reachable(w) && t in w.threads && w.threads[t] == DeferStore(v, k)
    ensures Reachable(DeferStoreStep(w, t, v, k))
  {
    hide Reachable;
    Act(w, Run(t, Plain));
  }

  lemma RunFinish(w: World, t: nat, k: Cont)
    requires Reachable(w) && t in w.threads && w.threads[t] == FinishCheck(k)
    ensures Reachable(FinishStep(w, t, k))
  {
    hide Reachable;
    Act(w, Run(t, Plain));
  }

  lemma RunTimerCheck(w: World, t: nat, x: nat)
    requires Reachable(w) && t in w.threads && w.threads[t] == TimerCheck(x)
    ensures Reachable(TimerCheckStep(w, t, x))
  {
    hide Reachable;
    Act(w, Run(t, Plain));
  }

  lemma RunRetry(w: World, t: nat, g: nat)
    requires Reachable(w) && t in w.threads && w.threads[t] == RetryEntry(g)
    ensures Reachable(RetryStep(w, t, g, Accepts))
  {
    hide Reachable;
    Act(w, Run(t, Accepts));
  }

  lemma Enqueues(w: World, t: nat)
    requires Reachable(w) && t !in w.threads
    ensures Reachable(EnqueueStep(w, t, Message(w.nextEntry)))
  {
    hide Reachable;
    Act(w, Enqueue(t, 1, None, None));
  }

  lemma Fires(w: World, t: nat, x: nat)
    requires Reachable(w) && t !in w.threads && x < |w.timers| && w.timers[x].phase == Pending
    requires w.timers[x].due <= w.clock
    ensures Reachable(Go(w.(timers := w.timers[x := w.timers[x].(phase := Running, runner := t)]), t, TimerCheck(x)))
  {
    hide Reachable;
    Act(w, FireTimer(t, x));
  }

  lemma Retries(w: World, t: nat, c: nat)
    requires Reachable(w) && Enabled(w, FireRetry(t, c))
    ensures Reachable(Go(w.(waits := MarkDone(w.waits, {c})), t, RetryEntry(w.waits[c].generation)))
  {
    hide Reachable;
    Act(w, FireRetry(t, c));
  }

  /** A drive that finds no capacity wait, from its entry to the first scan. */
  lemma DriveToScan(w: World, t: nat, k: Cont)
    requires Reachable(w) && t in w.threads && w.threads[t] == DriveEntry(k)
    requires !w.q.pumping && !w.q.closed && w.q.capacity == None
    ensures Reachable(Go(w.(q := w.q.(changed := true, pumping := true), pump := Some(t)), t, Scan(0, k)))
  {
    hide Reachable;
    RunDrive(w, t, k);
    var w1 := DriveStep(w, t, k);
    RunTakeCapacity(w1, t, k);
    var w2 := TakeCapacityStep(w1, t, k);
    RunReset(w2, t, {}, ToScan(0), k);
    var w3 := ResetStep(w2, t, {}, ToScan(0), k);
    assert w3.waits == w.waits;
    assert w3.threads == w.threads[t := Scan(0, k)];
    assert w3 == Go(w.(q := w.q.(changed := true, pumping := true), pump := Some(t)), t, Scan(0, k));
  }

  /** The front message, which never expires, is taken for sending. */
  lemma ScanToSend(w: World, t: nat, k: Cont, a: Entry, b: Entry)
    requires Reachable(w) && t in w.threads && w.threads[t] == Scan(0, k)
    requires w.opts == LIMITS && w.q.entries == [a, b] && !w.q.closed && a.expires == None && b.expires == None
    ensures Reachable(Go(w.(q := w.q.(changed := false, active := Some(a))), t, Sending(a, 1, k)))
  {
    hide Reachable;
    assert Live([a, b], w.clock) == [a] + Live([b], w.clock) && Live([b], w.clock) == [b] + Live([], w.clock);
    assert Expired([a, b], w.clock) == Expired([b], w.clock) == Expired([], w.clock) == [];
    assert [a, b][1..] == [b] && [b][1..] == [];
    var w1 := ScanStep(w, t, 0, k);
    RunScan(w, t, 0, k);
    assert w1 == Go(w.(q := w.q.(changed := false, active := Some(a))), t, ReleaseExpired([], Some(a), false, 0, k));
    RunReleaseExpired(w1, t, [], Some(a), false, 0, k);
    var w2 := ReleaseExpiredStep(w1, t, [], Some(a), false, 0, k);
    assert w2.threads == w.threads[t := Sending(a, 1, k)];
    assert w2 == Go(w.(q := w.q.(changed := false, active := Some(a))), t, Sending(a, 1, k));
  }

  /** The sink accepts it; its charge is returned and the loop scans again. */
  lemma SendToScan(w: World, t: nat, k: Cont, a: Entry, b: Entry)
    requires Reachable(w) && t in w.threads && w.threads[t] == Sending(a, 1, k)
    requires w.q.entries == [a, b] && a != b
    ensures Reachable(Go(w.(q := w.q.(active := None, entries := [b], sent := w.q.sent + 1, pending := w.q.pending - 1,
                                      retained := w.q.retained - a.bytes)), t, Scan(1, k)))
  {
    hide Reachable;
    assert FindEntry([a, b], a) == 0 && RemoveEntry([a, b], a) == [b];
    RunSend(w, t, a, 1, k);
    var w1 := SendStep(w, t, a, 1, k, SendResult(Ok));
    assert w1 == Go(w.(q := w.q.(active := None, entries := [b], sent := w.q.sent + 1)), t, ReleaseSent([a], Ok, 1, k));
    RunReleaseSent(w1, t, [a], 1, k);
    assert Wire([a]) == a.bytes;
    var w2 := ReleaseSentStep(w1, t, [a], Ok, 1, k);
    assert w2.threads == w.threads[t := Scan(1, k)];
  }

  lemma OneStays(b: Entry, now: int)
    requires b.expires == None
    ensures Live([b], now) == [b] && Expired([b], now) == []
  {
    assert [b][1..] == [];
    assert Live([], now) == [] && Expired([], now) == [];
  }

  /** Out of attempts with a message left: the loop ends and the driver has to come back at once. */
  lemma ScanToLeave(w: World, t: nat, k: Cont, b: Entry)
    requires Reachable(w) && t in w.threads && w.threads[t] == Scan(1, k)
    requires w.opts == LIMITS && w.q.entries == [b] && !w.q.closed && b.expires == None
    ensures Reachable(Go(w.(q := w.q.(changed := false)), t, FinalCheck(true, k)))
  {
    hide Reachable;
    OneStays(b, w.clock);
    RunScan(w, t, 1, k);
    var w1 := ScanStep(w, t, 1, k);
    assert w1 == Go(w.(q := w.q.(changed := false)), t, ReleaseExpired([], None, true, 1, k));
    RunReleaseExpired(w1, t, [], None, true, 1, k);
    assert ReleaseExpiredStep(w1, t, [], None, true, 1, k).threads == w.threads[t := FinalCheck(true, k)];
  }

  lemma ScanToArm(w: World, t: nat, k: Cont, b: Entry)
    requires Reachable(w) && t in w.threads && w.threads[t] == Scan(1, k)
    requires w.opts == LIMITS && w.q.entries == [b] && !w.q.closed && b.expires == None
    ensures Reachable(Go(w.(q := w.q.(changed := false)), t, Arming(w.clock, k)))
  {
    hide Reachable;
    ScanToLeave(w, t, k, b);
    LeaveToArm(Go(w.(q := w.q.(changed := false)), t, FinalCheck(true, k)), t, k, b);
    assert w.threads[t := FinalCheck(true, k)][t := Arming(w.clock, k)] == w.threads[t := Arming(w.clock, k)];
  }

  lemma LeaveToArm(w: World, t: nat, k: Cont, b: Entry)
    requires Reachable(w) && t in w.threads && w.threads[t] == FinalCheck(true, k)
    requires w.q.entries == [b] && !w.q.closed && b.expires == None
    ensures Reachable(Go(w, t, Arming(w.clock, k)))
  {
    hide Reachable;
    assert Earliest([b], Some(w.clock)) == Some(w.clock) by {
      assert [b][1..] == [] && Sooner(Some(w.clock), b) == Some(w.clock);
    }
    RunFinal(w, t, true, k);
  }

  /** The whole drive of one message, from the scan to the wake timer. */
  lemma DriveOne(w: World, t: nat, k: Cont, a: Entry, b: Entry)
    requires Reachable(w) && t in w.threads && w.threads[t] == Scan(0, k)
    requires w.opts == LIMITS && w.q.entries == [a, b] && a != b && !w.q.closed && a.expires == None
    requires b.expires == None
    ensures Reachable(Go(w.(q := w.q.(changed := false, active := None, entries := [b], sent := w.q.sent + 1,
                                      pending := w.q.pending - 1, retained := w.q.retained - a.bytes)), t, Arming(w.clock, k)))
  {
    hide Reachable;
    ScanToSend(w, t, k, a, b);
    var w1 := Go(w.(q := w.q.(changed := false, active := Some(a))), t, Sending(a, 1, k));
    SendToScan(w1, t, k, a, b);
    var w2 := Go(w1.(q := w1.q.(active := None, entries := [b], sent := w.q.sent + 1, pending := w.q.pending - 1,
                                retained := w.q.retained - a.bytes)), t, Scan(1, k));
    ScanToArm(w2, t, k, b);
    assert w.threads[t := Sending(a, 1, k)][t := Scan(1, k)][t := Arming(w.clock, k)] == w.threads[t := Arming(w.clock, k)];
  }

  /** A message arrives; its thread reaches Drive only after `t` has taken the pump, and returns. */
  lemma ArriveThenDrive(w: World, t: nat, k: Cont, u: nat, a: Entry)
    requires Reachable(w) && t in w.threads && u !in w.threads && w.threads[t] == DriveEntry(k)
    requires !w.q.pumping && !w.q.closed && !w.q.draining && w.q.capacity == None && w.q.entries == [a]
    requires w.opts == LIMITS
    requires w.q.pending < 4 && w.q.retained < 10
    ensures Reachable(Go(w.(q := w.q.(entries := [a, Message(w.nextEntry)], pending := w.q.pending + 1, retained := w.q.retained + 1,
                                      enqueued := w.q.enqueued + 1, changed := true, pumping := true),
                            nextEntry := w.nextEntry + 1, pump := Some(t)), t, Scan(0, k)))
  {
    hide Reachable;
    var e := Message(w.nextEntry);
    Enqueues(w, u);
    var w1 := Go(w.(q := w.q.(entries := [a, e], pending := w.q.pending + 1, retained := w.q.retained + 1,
                              enqueued := w.q.enqueued + 1, changed := true), nextEntry := w.nextEntry + 1), u, DriveEntry(Return));
    assert EnqueueStep(w, u, e) == w1;
    DriveToScan(w1, t, k);
    var w2 := Go(w1.(q := w1.q.(pumping := true), pump := Some(t)), t, Scan(0, k));
    RunDrive(w2, u, Return);
    assert DriveStep(w2, u, Return).threads == w.threads[t := Scan(0, k)];
  }

  // ---- The run ---------------------------------------------------------------

  /** An open queue whose only message is `id`, between drives; all earlier messages were sent. */
  function Holding(id: nat, timer: Option<nat>, wakeRetry: Option<nat>, generation: nat): Queue {
    Queue([Message(id)], None, 1, 1, id + 1, id, 0, 0, 0, false, false, false, false, false, false,
          WouldBlock, None, timer, wakeRetry, generation)
  }

  function After(q: Queue, threads: map<nat, Pc>, waits: seq<Wait>, phase: Phase): World
    requires 0 <= q.enqueued
  {
    World(LIMITS, q, 0, threads, waits, [Timer(1, 0, phase, if phase == Pending then 0 else 4)], q.enqueued, None, None)
  }

  lemma InitiallyReachable()
    ensures Reachable(Initial(LIMITS, 0))
  {
    var w0 := Initial(LIMITS, 0);
    assert IsRun([w0], []);
    assert [w0][0] == w0;
  }

  /** The first drive sends one of two messages and arms the wake timer. */
  lemma FirstDrive()
    ensures Reachable(After(Holding(1, Some(0), None, 1), map[], [], Pending))
  {
    hide Reachable;
    InitiallyReachable();
    var w0 := Initial(LIMITS, 0);
    Enqueues(w0, 1);
    var w1 := World(LIMITS, Holding(0, None, None, 0).(changed := true), 0, map[1 := DriveEntry(Return)], [], [], 1, None, None);
    assert EnqueueStep(w0, 1, Message(0)) == w1;
    FirstSend(w1);
  }

  lemma FirstSend(w: World)
    requires Reachable(w)
    requires w == World(LIMITS, Holding(0, None, None, 0).(changed := true), 0, map[1 := DriveEntry(Return)], [], [], 1, None, None)
    ensures Reachable(After(Holding(1, Some(0), None, 1), map[], [], Pending))
  {
    hide Reachable;
    ArriveThenDrive(w, 1, Return, 2, Message(0));
    var w2 := Go(w.(q := w.q.(entries := [Message(0), Message(1)], pending := 2, retained := 2, enqueued := 2, pumping := true),
                    nextEntry := 2, pump := Some(1)), 1, Scan(0, Return));
    DriveOne(w2, 1, Return, Message(0), Message(1));
    FirstArm(Go(w2.(q := Holding(1, None, None, 0).(pumping := true)), 1, Arming(0, Return)));
  }

  lemma FirstArm(w: World)
    requires Reachable(w)
    requires w == World(LIMITS, Holding(1, None, None, 0).(pumping := true), 0, map[1 := Arming(0, Return)], [], [], 2, Some(1), None)
    ensures Reachable(After(Holding(1, Some(0), None, 1), map[], [], Pending))
  {
    hide Reachable;
    RunArm(w, 1, 0, Return, Accepts);
    var w1 := ArmStep(w, 1, 0, Return, Accepts);
    RunFinish(w1, 1, Return);
    assert FinishStep(w1, 1, Return).threads == map[];
    assert FinishStep(w1, 1, Return) == After(Holding(1, Some(0), None, 1), map[], [], Pending);
  }

  /** The timer's drive sends the next message; its re-arm is refused and deferred at generation 2. */
  lemma TimerDrive()
    ensures Reachable(After(Holding(2, Some(0), None, 2), map[4 := DeferSubscribe(2, 0, TimerReturn(0))], [], Running))
  {
    hide Reachable;
    FirstDrive();
    var w0 := After(Holding(1, Some(0), None, 1), map[], [], Pending);
    Fires(w0, 4, 0);
    var w1 := After(Holding(1, Some(0), None, 1), map[4 := TimerCheck(0)], [], Running);
    assert w1 == Go(w0.(timers := w0.timers[0 := w0.timers[0].(phase := Running, runner := 4)]), 4, TimerCheck(0));
    RunTimerCheck(w1, 4, 0);
    var w2 := After(Holding(1, Some(0), None, 1), map[4 := DriveEntry(TimerReturn(0))], [], Running);
    assert TimerCheckStep(w1, 4, 0) == w2;
    TimerSend(w2);
  }

  lemma TimerSend(w: World)
    requires Reachable(w) && w == After(Holding(1, Some(0), None, 1), map[4 := DriveEntry(TimerReturn(0))], [], Running)
    ensures Reachable(After(Holding(2, Some(0), None, 2), map[4 := DeferSubscribe(2, 0, TimerReturn(0))], [], Running))
  {
    hide Reachable;
    ArriveThenDrive(w, 4, TimerReturn(0), 3, Message(1));
    var w3 := Go(w.(q := w.q.(entries := [Message(1), Message(2)], pending := 2, retained := 2, enqueued := 3, changed := true, pumping := true),
                    nextEntry := 3, pump := Some(4)), 4, Scan(0, TimerReturn(0)));
    DriveOne(w3, 4, TimerReturn(0), Message(1), Message(2));
    TimerArm(Go(w3.(q := Holding(2, Some(0), None, 1).(pumping := true)), 4, Arming(0, TimerReturn(0))));
  }

  lemma TimerArm(w: World)
    requires Reachable(w)
    requires w == After(Holding(2, Some(0), None, 1), map[4 := Arming(0, TimerReturn(0))], [], Running).(
                    q := Holding(2, Some(0), None, 1).(pumping := true), pump := Some(4))
    ensures Reachable(After(Holding(2, Some(0), None, 2), map[4 := DeferSubscribe(2, 0, TimerReturn(0))], [], Running))
  {
    hide Reachable;
    RunArm(w, 4, 0, TimerReturn(0), Refuses(WouldBlock));
    assert ArmStep(w, 4, 0, TimerReturn(0), Refuses(WouldBlock)) ==
           After(Holding(2, Some(0), None, 2), map[4 := DeferSubscribe(2, 0, TimerReturn(0))], [], Running);
  }

  /** Before that deferral is stored, another drive is refused too and stores its own at generation 3. */
  lemma SecondDeferral()
    ensures Reachable(After(Holding(3, Some(0), Some(0), 3), map[4 := DeferSubscribe(2, 0, TimerReturn(0))], [Wait(false, true, 3, 0)], Running))
  {
    hide Reachable;
    TimerDrive();
    var first := DeferSubscribe(2, 0, TimerReturn(0));
    var w0 := After(Holding(2, Some(0), None, 2), map[4 := first], [], Running);
    Enqueues(w0, 5);
    var w1 := Go(w0.(q := w0.q.(entries := [Message(2), Message(3)], pending := 2, retained := 2, enqueued := 4, changed := true),
                     nextEntry := 4), 5, DriveEntry(Return));
    assert EnqueueStep(w0, 5, Message(3)) == w1;
    DriveToScan(w1, 5, Return);
    var w2 := Go(w1.(q := w1.q.(pumping := true), pump := Some(5)), 5, Scan(0, Return));
    DriveOne(w2, 5, Return, Message(2), Message(3));
    SecondArm(Go(w2.(q := Holding(3, Some(0), None, 2).(pumping := true)), 5, Arming(0, Return)));
  }

  lemma SecondArm(w: World)
    requires Reachable(w)
    requires w == After(Holding(3, Some(0), None, 2), map[4 := DeferSubscribe(2, 0, TimerReturn(0)), 5 := Arming(0, Return)], [], Running).(
                    q := Holding(3, Some(0), None, 2).(pumping := true), pump := Some(5))
    ensures Reachable(After(Holding(3, Some(0), Some(0), 3), map[4 := DeferSubscribe(2, 0, TimerReturn(0))], [Wait(false, true, 3, 0)], Running))
  {
    hide Reachable;
    var first := DeferSubscribe(2, 0, TimerReturn(0));
    RunArm(w, 5, 0, Return, Refuses(WouldBlock));
    var w1 := After(Holding(3, Some(0), None, 3), map[4 := first, 5 := DeferSubscribe(3, 0, Return)], [], Running);
    assert ArmStep(w, 5, 0, Return, Refuses(WouldBlock)) == w1;
    RunDeferSubscribe(w1, 5, 3, 0, Return);
    var w2 := After(Holding(3, Some(0), None, 3), map[4 := first, 5 := DeferStore(0, Return)], [Wait(false, true, 3, 0)], Running);
    assert DeferSubscribeStep(w1, 5, 3, 0, Return, Accepts) == w2;
    SecondStore(w2);
  }

  lemma SecondStore(w: World)
    requires Reachable(w)
    requires w == After(Holding(3, Some(0), None, 3), map[4 := DeferSubscribe(2, 0, TimerReturn(0)), 5 := DeferStore(0, Return)], [Wait(false, true, 3, 0)], Running)
    ensures Reachable(After(Holding(3, Some(0), Some(0), 3), map[4 := DeferSubscribe(2, 0, TimerReturn(0))], [Wait(false, true, 3, 0)], Running))
  {
    hide Reachable;
    var first := DeferSubscribe(2, 0, TimerReturn(0));
    var q := Holding(3, Some(0), Some(0), 3);
    RunDeferStore(w, 5, 0, Return);
    var w1 := After(q, map[4 := first, 5 := ResetWaits({}, ToFinish, Return)], [Wait(false, true, 3, 0)], Running);
    assert DeferStoreStep(w, 5, 0, Return) == w1;
    StoreFinishes(w1);
  }

  lemma StoreFinishes(w: World)
    requires Reachable(w)
    requires w == After(Holding(3, Some(0), Some(0), 3), map[4 := DeferSubscribe(2, 0, TimerReturn(0)), 5 := ResetWaits({}, ToFinish, Return)], [Wait(false, true, 3, 0)], Running)
    ensures Reachable(After(Holding(3, Some(0), Some(0), 3), map[4 := DeferSubscribe(2, 0, TimerReturn(0))], [Wait(false, true, 3, 0)], Running))
  {
    hide Reachable;
    var first := DeferSubscribe(2, 0, TimerReturn(0));
    RunReset(w, 5, {}, ToFinish, Return);
    var w2 := w.(threads := map[4 := first, 5 := FinishCheck(Return)]);
    assert MarkDone(w.waits, {}) == w.waits;
    assert ResetStep(w, 5, {}, ToFinish, Return) == w2;
    RunFinish(w2, 5, Return);
    assert FinishStep(w2, 5, Return).threads == map[4 := first];
  }

  /** The first deferral now stores its own subscription and resets the current one. */
  lemma FirstStoresLast()
    ensures Reachable(After(Holding(3, Some(0), Some(1), 3), map[], [Wait(true, true, 3, 0), Wait(false, true, 2, 0)], Finished))
  {
    hide Reachable;
    SecondDeferral();
    var k := TimerReturn(0);
    var w0 := After(Holding(3, Some(0), Some(0), 3), map[4 := DeferSubscribe(2, 0, k)], [Wait(false, true, 3, 0)], Running);
    RunDeferSubscribe(w0, 4, 2, 0, k);
    var live := [Wait(false, true, 3, 0), Wait(false, true, 2, 0)];
    var w1 := After(Holding(3, Some(0), Some(0), 3), map[4 := DeferStore(1, k)], live, Running);
    assert DeferSubscribeStep(w0, 4, 2, 0, k, Accepts) == w1;
    RunDeferStore(w1, 4, 1, k);
    var w2 := After(Holding(3, Some(0), Some(1), 3), map[4 := ResetWaits({0}, ToFinish, k)], live, Running);
    assert DeferStoreStep(w1, 4, 1, k) == w2;
    ResetLoses(w2);
  }

  lemma ResetLoses(w: World)
    requires Reachable(w)
    requires w == After(Holding(3, Some(0), Some(1), 3), map[4 := ResetWaits({0}, ToFinish, TimerReturn(0))],
                        [Wait(false, true, 3, 0), Wait(false, true, 2, 0)], Running)
    ensures Reachable(After(Holding(3, Some(0), Some(1), 3), map[], [Wait(true, true, 3, 0), Wait(false, true, 2, 0)], Finished))
  {
    hide Reachable;
    var q, k := Holding(3, Some(0), Some(1), 3), TimerReturn(0);
    RunReset(w, 4, {0}, ToFinish, k);
    var done := [Wait(true, true, 3, 0), Wait(false, true, 2, 0)];
    var w1 := After(q, map[4 := FinishCheck(k)], done, Running);
    assert MarkDone(w.waits, {0}) == done;
    assert ResetStep(w, 4, {0}, ToFinish, k) == w1;
    TimerEnds(w1);
  }

  lemma TimerEnds(w: World)
    requires Reachable(w)
    requires w == After(Holding(3, Some(0), Some(1), 3), map[4 := FinishCheck(TimerReturn(0))], [Wait(true, true, 3, 0), Wait(false, true, 2, 0)], Running)
    ensures Reachable(w.(threads := map[], timers := [Timer(1, 0, Finished, 4)]))
  {
    hide Reachable;
    RunFinish(w, 4, TimerReturn(0));
    assert FinishStep(w, 4, TimerReturn(0)).threads == map[];
    assert FinishStep(w, 4, TimerReturn(0)) == w.(threads := map[], timers := [Timer(1, 0, Finished, 4)]);
  }

  /** The subscription that is left belongs to an old generation and is ignored when it fires. */
  lemma StaleRetryIsIgnored()
    ensures Reachable(Stuck())
  {
    hide Reachable;
    FirstStoresLast();
    var q := Holding(3, Some(0), Some(1), 3);
    var w0 := After(q, map[], [Wait(true, true, 3, 0), Wait(false, true, 2, 0)], Finished);
    Retries(w0, 6, 1);
    var w1 := After(q, map[6 := RetryEntry(2)], [Wait(true, true, 3, 0), Wait(true, true, 2, 0)], Finished);
    assert MarkDone(w0.waits, {1}) == w1.waits;
    RunRetry(w1, 6, 2);
    assert RetryStep(w1, 6, 2, Accepts).threads == map[];
  }

  function Stuck(): World {
    After(Holding(3, Some(0), Some(1), 3), map[], [Wait(true, true, 3, 0), Wait(true, true, 2, 0)], Finished)
  }

  ghost predicate NothingFires(w: World) {
    && (forall c, t, code :: !Enabled(w, FireWait(t, c, code)))
    && (forall c, t :: !Enabled(w, FireRetry(t, c)))
    && (forall x, t :: !Enabled(w, FireTimer(t, x)))
  }

  /**
  The lost wake: a reachable state with a message in an open queue, no thread, and no enabled
  subscription or timer.
  */
  lemma OverlappingDeferralsLoseTheWake()
    ensures Reachable(Stuck()) && !Stuck().q.closed && Stuck().q.entries != [] && Stuck().threads == map[]
    ensures NothingFires(Stuck())
  {
    hide Reachable;
    StaleRetryIsIgnored();
  }
}
