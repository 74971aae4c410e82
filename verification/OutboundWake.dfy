/**
No wake is lost: whenever the queue holds messages and nobody drives the pump, something that
will drive it is outstanding.  The exception is a scheduler-full deferral that is stored over the
live one of the current generation while nothing else stands for the messages.
*/
module OutboundWake {
  import opened Common
  import opened OutboundQueue
  import opened OutboundPump
  import opened OutboundSafety
  import opened OutboundClaims

  function ContTimer(k: Cont): Option<nat> {
    match k
    case Return => None
    case TimerReturn(x) => Some(x)
    case FinishThen(k1) => ContTimer(k1)
    case ExitPump(k1) => ContTimer(k1)
  }

  /** The wake timer whose callback the thread is running. */
  function TimerOf(pc: Pc): Option<nat> {
    match pc
    case TimerCheck(x) => Some(x)
    case RetryEntry(_) => None
    case _ => ContTimer(pc.k)
  }

  predicate Runs(w: World, x: nat, t: nat) {
    x < |w.timers| && w.timers[x].phase == Running && w.timers[x].runner == t
  }

  /** A timer is running exactly while its runner is inside the callback. */
  ghost predicate TimerThreads(w: World) {
    && (forall t :: t in w.threads && TimerOf(w.threads[t]).Some? ==> Runs(w, TimerOf(w.threads[t]).value, t))
    && (forall x :: 0 <= x < |w.timers| && w.timers[x].phase == Running ==>
          w.timers[x].runner in w.threads && TimerOf(w.threads[w.timers[x].runner]) == Some(x))
  }

  /** The queue's own timer, while pending, belongs to the current generation. */
  ghost predicate TimerHandle(w: World) {
    && (w.q.timer.Some? ==> w.q.timer.value < |w.timers|)
    && (!w.q.closed && w.q.timer.Some? && w.timers[w.q.timer.value].phase == Pending ==>
          w.timers[w.q.timer.value].generation == w.q.generation)
  }

  predicate IsCapacityWait(w: World, c: nat) { c < |w.waits| && !w.waits[c].retry }
  predicate IsRetryWait(w: World, c: nat) { c < |w.waits| && w.waits[c].retry }

  /** The generation a deferral in progress is for. */
  function DeferGeneration(w: World, pc: Pc): nat {
    if pc.DeferSubscribe? then pc.generation
    else if pc.DeferStore? && pc.wait < |w.waits| then w.waits[pc.wait].generation else 0
  }

  ghost predicate ThreadWaits(w: World, pc: Pc) {
    && (pc.StoreWait? ==> IsCapacityWait(w, pc.wait))
    && (pc.RetakeCapacity? ==> forall c :: c in pc.dropped ==> IsCapacityWait(w, c))
    && (pc.ResetWaits? && pc.next != ToFinish ==> forall c :: c in pc.waits ==> IsCapacityWait(w, c))
    && (pc.ResetWaits? && pc.next == ToFinish ==>
          forall c :: c in pc.waits ==> IsRetryWait(w, c))
    && (pc.DeferSubscribe? ==> pc.timer < |w.timers| && w.timers[pc.timer].phase != Pending)
    && (pc.DeferStore? ==> IsRetryWait(w, pc.wait))
    && (Deferring(pc) ==> DeferGeneration(w, pc) <= w.q.generation)
    && (pc.FinishCheck? && pc.k.ExitPump? ==> w.q.closed)
    && (pc.ResetWaits? && pc.next == ToExit ==> pc.waits == {} || w.q.closed)
  }

  ghost predicate Waits(w: World) {
    && (forall c :: 0 <= c < |w.waits| && w.waits[c].retry ==>
          && w.waits[c].generation <= w.q.generation && w.waits[c].timer < |w.timers|
          && w.timers[w.waits[c].timer].phase != Pending)
    && (w.q.capacity.Some? ==> IsCapacityWait(w, w.q.capacity.value))
    && (w.q.wakeRetry.Some? ==> IsRetryWait(w, w.q.wakeRetry.value))
    && (forall t :: t in w.threads ==> ThreadWaits(w, w.threads[t]))
  }

  // ---- What will drive the pump ----------------------------------------------

  predicate Kicks(pc: Pc) { pc.DriveEntry? || pc.HaltEntry? }

  /** A thread is about to enter Drive or Halt. */
  ghost predicate KickComing(w: World) {
    exists t :: t in w.threads && Kicks(w.threads[t])
  }

  /** A thread that is on its way to Drive, Halt or a caller timer. */
  predicate Moves(w: World, pc: Pc) {
    || Kicks(pc)
    || (pc.TimerCheck? && pc.timer < |w.timers| && w.timers[pc.timer].generation == w.q.generation)
    || (pc.DeferSubscribe? && pc.generation == w.q.generation)
    || (pc.DeferStore? && IsLiveRetry(w, pc.wait))
    || (pc.RetryEntry? && pc.generation == w.q.generation)
  }

  ghost predicate Moving(w: World) {
    exists t :: t in w.threads && Moves(w, w.threads[t])
  }

  predicate CapacityLive(w: World) {
    w.q.capacity.Some? && w.q.capacity.value < |w.waits| && !w.waits[w.q.capacity.value].done
  }

  /** The stored re-arm has not fired and is of the current generation. */
  predicate RetryLive(w: World) { w.q.wakeRetry.Some? && IsLiveRetry(w, w.q.wakeRetry.value) }

  predicate IsLiveRetry(w: World, c: nat) {
    c < |w.waits| && w.waits[c].retry && !w.waits[c].done && w.waits[c].generation == w.q.generation
  }

  predicate Armed(w: World) {
    && w.q.timer.Some? && w.q.timer.value < |w.timers|
    && w.timers[w.q.timer.value].phase == Pending && w.timers[w.q.timer.value].generation == w.q.generation
  }

  predicate ArmedBy(w: World, e: Entry) {
    e.expires.Some? ==> Armed(w) && (w.timers[w.q.timer.value].due <= w.clock || w.timers[w.q.timer.value].due <= e.expires.value)
  }

  /**
  A capacity wait or a timer already due stands for the messages, and a timer stands for every
  expiry.
  */
  ghost predicate Covered(w: World) {
    && (w.q.entries == [] || CapacityLive(w) || (Armed(w) && w.timers[w.q.timer.value].due <= w.clock))
    && (forall e :: e in w.q.entries ==> ArmedBy(w, e))
  }

  /** With no driver, the queue is covered, or a thread or a deferred re-arm is on its way. */
  ghost predicate AtRest(w: World) {
    !w.q.closed && !w.q.pumping ==> Moving(w) || RetryLive(w) || Covered(w)
  }

  ghost predicate Signalled(w: World) { w.q.changed || KickComing(w) }

  /** The driver may leave the loop: nothing to send, or something brings it back. */
  ghost predicate ExitOk(w: World, continuation: bool) {
    w.q.entries == [] || continuation || Signalled(w) || CapacityLive(w)
  }

  predicate InTime(w: World, due: int, e: Entry) {
    e.expires.Some? ==> due <= w.clock || due <= e.expires.value
  }

  ghost predicate DriverOk(w: World, pc: Pc) {
    && (pc.StoreWait? ==> w.q.entries == [] || Signalled(w) || (pc.wait < |w.waits| && !w.waits[pc.wait].done))
    && (pc.ResetWaits? && pc.next == ToExit ==> ExitOk(w, false))
    && (pc.FinalCheck? ==> ExitOk(w, pc.continuation))
    && (pc.ReleaseExpired? && pc.item.None? ==> ExitOk(w, pc.continuation))
    && (pc.Arming? ==>
          && (pc.due <= w.clock || ExitOk(w, false))
          && (Signalled(w) || forall e :: e in w.q.entries ==> InTime(w, pc.due, e)))
  }

  /** Whatever arrived while the driver was active is seen before it gives up the pump. */
  ghost predicate Driving(w: World) {
    !w.q.closed && w.pump.Some? && w.pump.value in w.threads ==> DriverOk(w, w.threads[w.pump.value])
  }

  ghost predicate Handles(w: World) { TimerThreads(w) && TimerHandle(w) && Waits(w) }

  ghost predicate Awake(w: World) { Handles(w) && Driving(w) && AtRest(w) }

  lemma InitialAwake(o: Options, clock: int)
    ensures Awake(Initial(o, clock))
  {
  }

  // ---- Timers ----------------------------------------------------------------

  ghost predicate SameRunning(a: seq<Timer>, b: seq<Timer>) {
    && |a| <= |b|
    && (forall x :: 0 <= x < |a| && (a[x].phase == Running || b[x].phase == Running) ==> a[x] == b[x])
    && (forall x :: |a| <= x < |b| ==> b[x].phase != Running)
  }

  /** Thread `t` moves within the same callback, or a thread with none appears. */
  lemma TimersMoved(w: World, w2: World, t: nat, pc: Pc)
    requires TimerThreads(w) && w2.threads == w.threads[t := pc] && SameRunning(w.timers, w2.timers)
    requires TimerOf(pc) == if t in w.threads then TimerOf(w.threads[t]) else None
    ensures TimerThreads(w2)
  {
  }

  lemma TimersFired(w: World, t: nat, x: nat)
    requires TimerThreads(w) && Enabled(w, FireTimer(t, x))
    ensures TimerThreads(Apply(w, FireTimer(t, x)))
  {
  }

  /** A thread ends: its timer, if any, is finished. */
  lemma TimersLeft(w: World, w2: World, t: nat)
    requires TimerThreads(w) && t in w.threads && w2.threads == w.threads - {t}
    requires TimerOf(w.threads[t]).None? ==> SameRunning(w.timers, w2.timers)
    requires TimerOf(w.threads[t]).Some? ==> w2.timers == SetPhase(w.timers, TimerOf(w.threads[t]).value, Finished)
    ensures TimerThreads(w2)
  {
  }

  lemma TimersResumed(w: World, w1: World, t: nat, k: Cont)
    requires TimerThreads(w) && t in w.threads && TimerOf(w.threads[t]) == ContTimer(k)
    requires w1.threads == w.threads && w1.timers == w.timers
    ensures TimerThreads(Resume(w1, t, k))
    ensures TimerHandle(w1) ==> TimerHandle(Resume(w1, t, k))
  {
    var w2 := Resume(w1, t, k);
    match k
    case Return => TimersLeft(w, w2, t);
    case TimerReturn(_) => TimersLeft(w, w2, t);
    case FinishThen(k1) => TimersMoved(w, w2, t, FinishCheck(k1));
    case ExitPump(k1) => TimersMoved(w, w2, t, FinalCheck(false, k1));
  }

  // ---- Waits -----------------------------------------------------------------

  predicate SameWait(a: Wait, b: Wait) {
    a.retry == b.retry && a.generation == b.generation && a.timer == b.timer && (a.done ==> b.done)
  }

  /** Subscriptions and timers are only added, and only move towards done. */
  ghost predicate Grows(w: World, w2: World) {
    && |w.waits| <= |w2.waits| && |w.timers| <= |w2.timers|
    && (forall c :: 0 <= c < |w.waits| ==> SameWait(w.waits[c], w2.waits[c]))
    && (forall x :: 0 <= x < |w.timers| ==> w2.timers[x].generation == w.timers[x].generation)
    && (forall x :: 0 <= x < |w.timers| && w.timers[x].phase != Pending ==> w2.timers[x].phase != Pending)
    && w.q.generation <= w2.q.generation && w.clock <= w2.clock
    && (w.q.closed ==> w2.q.closed)
  }

  lemma ThreadWaitsKept(w: World, w2: World, pc: Pc)
    requires Waits(w) && Grows(w, w2) && ThreadWaits(w, pc)
    requires w2.q.wakeRetry == w.q.wakeRetry || w2.q.wakeRetry == None
    ensures ThreadWaits(w2, pc)
  {
  }

  ghost predicate NewWaitsOk(w: World, w2: World) {
    forall c :: |w.waits| <= c < |w2.waits| && w2.waits[c].retry ==>
      && w2.waits[c].generation <= w2.q.generation && w2.waits[c].timer < |w2.timers|
      && w2.timers[w2.waits[c].timer].phase != Pending
  }

  lemma WaitsMoved(w: World, w2: World, t: nat, pc: Pc)
    requires Waits(w) && Grows(w, w2) && NewWaitsOk(w, w2)
    requires w2.threads == w.threads[t := pc] && ThreadWaits(w2, pc)
    requires w2.q.wakeRetry == w.q.wakeRetry || w2.q.wakeRetry == None
    requires w2.q.capacity.Some? ==> IsCapacityWait(w2, w2.q.capacity.value)
    ensures Waits(w2)
  {
    forall u | u in w2.threads ensures ThreadWaits(w2, w2.threads[u]) {
      if u != t { ThreadWaitsKept(w, w2, w.threads[u]); }
    }
  }

  lemma WaitsLeft(w: World, w2: World, t: nat)
    requires Waits(w) && Grows(w, w2) && w2.waits == w.waits && w2.threads == w.threads - {t}
    requires w2.q.wakeRetry == w.q.wakeRetry && w2.q.capacity == w.q.capacity
    ensures Waits(w2)
  {
    forall u | u in w2.threads ensures ThreadWaits(w2, w2.threads[u]) {
      ThreadWaitsKept(w, w2, w.threads[u]);
    }
  }

  lemma WaitsResumed(w: World, w1: World, t: nat, k: Cont)
    requires Waits(w) && t in w.threads && (Base(k) || InPumpHalt(k)) && TimerThreads(w)
    requires TimerOf(w.threads[t]) == ContTimer(k)
    requires w1.threads == w.threads && w1.waits == w.waits && w1.timers == w.timers && w1.clock == w.clock
    requires w1.q.wakeRetry == w.q.wakeRetry && w1.q.capacity == w.q.capacity
    requires w1.q.generation == w.q.generation && w1.q.closed == w.q.closed
    ensures Waits(Resume(w1, t, k)) && Grows(w, Resume(w1, t, k))
  {
    var w2 := Resume(w1, t, k);
    match k
    case Return => WaitsLeft(w, w2, t);
    case TimerReturn(_) => WaitsLeft(w, w2, t);
    case FinishThen(k1) => WaitsMoved(w, w2, t, FinishCheck(k1));
    case ExitPump(k1) => WaitsMoved(w, w2, t, FinalCheck(false, k1));
  }

  // ---- Why a state is awake --------------------------------------------------

  lemma KickSuffices(w: World)
    requires KickComing(w)
    ensures Driving(w) && AtRest(w)
  {
    var t :| t in w.threads && Kicks(w.threads[t]);
    assert Moves(w, w.threads[t]);
  }

  lemma ClosedSuffices(w: World)
    requires w.q.closed
    ensures Driving(w) && AtRest(w)
  {
  }

  lemma EmptySuffices(w: World)
    requires w.q.entries == []
    ensures Driving(w) && AtRest(w)
  {
  }

  lemma ChangedSuffices(w: World)
    requires w.q.changed && w.q.pumping
    ensures Driving(w) && AtRest(w)
  {
  }

  lemma KickKept(w: World, w2: World, t: nat)
    requires forall u :: u in w.threads && u != t ==> u in w2.threads && w2.threads[u] == w.threads[u]
    ensures KickComing(w) && !(t in w.threads && Kicks(w.threads[t])) ==> KickComing(w2)
    ensures t in w2.threads && Kicks(w2.threads[t]) ==> KickComing(w2)
  {
  }

  /** Subscriptions other threads are about to store stay live. */
  ghost predicate StoresKept(w: World, w2: World, t: nat) {
    forall u :: u in w.threads && u != t && w.threads[u].DeferStore? && IsLiveRetry(w, w.threads[u].wait) ==>
        IsLiveRetry(w2, w.threads[u].wait)
  }

  lemma MovingKept(w: World, w2: World, t: nat)
    requires Grows(w, w2) && w2.q.generation == w.q.generation && StoresKept(w, w2, t)
    requires forall u :: u in w.threads && u != t ==> u in w2.threads && w2.threads[u] == w.threads[u]
    ensures Moving(w) && !(t in w.threads && Moves(w, w.threads[t])) ==> Moving(w2)
    ensures t in w2.threads && Moves(w2, w2.threads[t]) ==> Moving(w2)
  {
    if Moving(w) && !(t in w.threads && Moves(w, w.threads[t])) {
      var u :| u in w.threads && Moves(w, w.threads[u]);
      assert Moves(w2, w2.threads[u]);
    }
  }

  /** What the driver relies on is untouched. */
  ghost predicate DriverUntouched(w: World, w2: World) {
    && Grows(w, w2) && w2.pump == w.pump && w2.q.closed == w.q.closed
    && w2.q.entries == w.q.entries && w2.q.changed == w.q.changed && w2.q.capacity == w.q.capacity
    && (forall c :: 0 <= c < |w.waits| && !w.waits[c].retry && !w.waits[c].done ==> !w2.waits[c].done)
  }

  lemma DrivingKept(w: World, w2: World)
    requires Waits(w) && Driving(w) && DriverUntouched(w, w2) && (KickComing(w) ==> KickComing(w2))
    requires w.pump.Some? ==>
      w.pump.value in w.threads && w.pump.value in w2.threads && w2.threads[w.pump.value] == w.threads[w.pump.value]
    ensures Driving(w2)
  {
  }

  /** A state stays covered when the current timer and the capacity wait stay. */
  lemma CoveredKept(w: World, w2: World)
    requires Waits(w) && DriverUntouched(w, w2) && w2.q.generation == w.q.generation && Covered(w)
    requires w2.q.timer == w.q.timer && (Armed(w) ==> w2.timers[w.q.timer.value] == w.timers[w.q.timer.value])
    ensures Covered(w2)
  {
    forall e | e in w2.q.entries ensures ArmedBy(w2, e) {
      assert ArmedBy(w, e);
    }
  }

  // ---- Steps -----------------------------------------------------------------

  /** The bookkeeping of a step that moves `t` to `pc` and leaves subscriptions and timers alone. */
  lemma HandlesMoved(w: World, w2: World, t: nat, pc: Pc)
    requires Handles(w) && w2.threads == w.threads[t := pc] && w2.timers == w.timers
    requires Grows(w, w2) && NewWaitsOk(w, w2)
    requires TimerOf(pc) == if t in w.threads then TimerOf(w.threads[t]) else None
    requires ThreadWaits(w2, pc)
    requires w2.q.timer == w.q.timer && (w2.q.closed || w2.q.generation == w.q.generation)
    requires w2.q.wakeRetry == w.q.wakeRetry || w2.q.wakeRetry == None
    requires w2.q.capacity.Some? ==> IsCapacityWait(w2, w2.q.capacity.value)
    ensures Handles(w2)
  {
    TimersMoved(w, w2, t, pc);
    WaitsMoved(w, w2, t, pc);
  }

  lemma HandlesResumed(w: World, w1: World, t: nat, k: Cont)
    requires Handles(w) && t in w.threads && (Base(k) || InPumpHalt(k)) && TimerOf(w.threads[t]) == ContTimer(k)
    requires w1.threads == w.threads && w1.waits == w.waits && w1.timers == w.timers && w1.clock == w.clock
    requires w1.q.timer == w.q.timer && w1.q.wakeRetry == w.q.wakeRetry && w1.q.capacity == w.q.capacity
    requires w1.q.generation == w.q.generation && w1.q.closed == w.q.closed
    ensures Handles(Resume(w1, t, k)) && Grows(w, Resume(w1, t, k))
  {
    TimersResumed(w, w1, t, k);
    WaitsResumed(w, w1, t, k);
  }

  lemma DriveAwake(w: World, t: nat)
    requires Owners(w) && Awake(w) && t in w.threads && w.threads[t].DriveEntry?
    ensures Awake(DriveStep(w, t, w.threads[t].k))
  {
    var k := w.threads[t].k;
    var w2 := DriveStep(w, t, k);
    if w.q.pumping || w.q.closed {
      HandlesResumed(w, w.(q := w.q.(changed := true)), t, k);
      if w.q.closed { ClosedSuffices(w2); } else { ChangedSuffices(w2); }
    } else {
      HandlesMoved(w, w2, t, TakeCapacity(k));
    }
  }

  /** A step of the driver that stays in the pump, given that its new point is in order. */
  lemma PumpMoveAwake(w: World, w2: World, t: nat, pc: Pc)
    requires Owners(w) && Awake(w) && t in w.threads && w.pump == Some(t) && w2.pump == Some(t) && w2.q.pumping
    requires w2.threads == w.threads[t := pc] && w2.timers == w.timers && Grows(w, w2) && NewWaitsOk(w, w2)
    requires TimerOf(pc) == TimerOf(w.threads[t]) && ThreadWaits(w2, pc)
    requires w2.q.timer == w.q.timer && w2.q.generation == w.q.generation && w2.q.wakeRetry == w.q.wakeRetry
    requires w2.q.capacity.Some? ==> IsCapacityWait(w2, w2.q.capacity.value)
    requires DriverOk(w2, pc) || w2.q.closed
    ensures Awake(w2)
  {
    HandlesMoved(w, w2, t, pc);
  }

  lemma TakeCapacityAwake(w: World, t: nat)
    requires Owners(w) && Awake(w) && t in w.threads && w.threads[t].TakeCapacity?
    ensures Awake(TakeCapacityStep(w, t, w.threads[t].k))
  {
    PumpMoveAwake(w, TakeCapacityStep(w, t, w.threads[t].k), t, ResetWaits(Only(w.q.capacity), ToScan(0), w.threads[t].k));
  }

  lemma ScanAwake(w: World, t: nat)
    requires Owners(w) && Awake(w) && t in w.threads && w.threads[t].Scan?
    ensures Awake(ScanStep(w, t, w.threads[t].attempts, w.threads[t].k))
  {
    var n, k := w.threads[t].attempts, w.threads[t].k;
    var s := ScanQueue(w.q, w.opts, w.clock, n);
    PumpMoveAwake(w, ScanStep(w, t, w.threads[t].attempts, w.threads[t].k), t, ReleaseExpired(s.retired, s.item, s.continuation, n, k));
  }

  lemma ReleaseExpiredAwake(w: World, t: nat)
    requires Owners(w) && Awake(w) && t in w.threads && w.threads[t].ReleaseExpired?
    ensures Awake(ReleaseExpiredStep(w, t, w.threads[t].retired, w.threads[t].item, w.threads[t].continuation, w.threads[t].attempts, w.threads[t].k))
  {
    hide AtRest, TimerThreads;
    var pc, w2 := w.threads[t], ReleaseExpiredStep(w, t, w.threads[t].retired, w.threads[t].item, w.threads[t].continuation, w.threads[t].attempts, w.threads[t].k);
    KickKept(w, w2, t);
    PumpMoveAwake(w, w2, t, if pc.item.Some? then Sending(pc.item.value, pc.attempts + 1, pc.k) else FinalCheck(pc.continuation, pc.k));
  }

  lemma ThrowAwake(w: World, t: nat)
    requires Owners(w) && Awake(w) && t in w.threads && (w.threads[t].Sending? || w.threads[t].RegisterWait?)
    ensures Awake(Go(w.(q := w.q.(active := None, pumping := false), pump := None), t, HaltEntry(PlatformError, w.threads[t].k)))
  {
    var pc := HaltEntry(PlatformError, w.threads[t].k);
    var w2 := Go(w.(q := w.q.(active := None, pumping := false), pump := None), t, pc);
    HandlesMoved(w, w2, t, pc);
    KickKept(w, w2, t);
    KickSuffices(w2);
  }

  lemma SettleAwake(w: World, t: nat, code: ErrorCode)
    requires Owners(w) && Awake(w) && t in w.threads && w.threads[t].Sending?
    ensures Awake(SendStep(w, t, w.threads[t].entry, w.threads[t].attempts, w.threads[t].k, SendResult(code)))
  {
    var e, n, k := w.threads[t].entry, w.threads[t].attempts, w.threads[t].k;
    var q2, retired := SettleSend(w.q, e, code).queue, SettleSend(w.q, e, code).retired;
    SettleFrame(w.q, e, code);
    SettledAwake(w, t, q2, ReleaseSent(retired, code, n, k));
  }

  lemma SettleFrame(q: Queue, e: Entry, code: ErrorCode)
    ensures var q2 := SettleSend(q, e, code).queue;
      && q2.pumping == q.pumping && q2.closed == q.closed && q2.timer == q.timer
      && q2.generation == q.generation && q2.wakeRetry == q.wakeRetry && q2.capacity == q.capacity
  {
  }

  lemma SettledAwake(w: World, t: nat, q2: Queue, pc: Pc)
    requires Owners(w) && Awake(w) && t in w.threads && w.threads[t].Sending? && pc.ReleaseSent?
    requires pc.k == w.threads[t].k
    requires q2.pumping == w.q.pumping && q2.closed == w.q.closed && q2.timer == w.q.timer
    requires q2.generation == w.q.generation && q2.wakeRetry == w.q.wakeRetry && q2.capacity == w.q.capacity
    ensures Awake(Go(w.(q := q2), t, pc))
  {
    PumpMoveAwake(w, Go(w.(q := q2), t, pc), t, pc);
  }

  lemma ReleaseSentAwake(w: World, t: nat)
    requires Owners(w) && Awake(w) && t in w.threads && w.threads[t].ReleaseSent?
    ensures Awake(ReleaseSentStep(w, t, w.threads[t].retired, w.threads[t].code, w.threads[t].attempts, w.threads[t].k))
  {
    var pc := w.threads[t];
    PumpMoveAwake(w, ReleaseSentStep(w, t, w.threads[t].retired, w.threads[t].code, w.threads[t].attempts, w.threads[t].k), t, if pc.code == Ok then Scan(pc.attempts, pc.k)
      else if pc.code != WouldBlock then HaltEntry(pc.code, ExitPump(pc.k)) else CheckClosed(pc.attempts, pc.k));
  }

  lemma CheckClosedAwake(w: World, t: nat)
    requires Owners(w) && Awake(w) && t in w.threads && w.threads[t].CheckClosed?
    ensures Awake(CheckClosedStep(w, t, w.threads[t].attempts, w.threads[t].k))
  {
    var n, k := w.threads[t].attempts, w.threads[t].k;
    PumpMoveAwake(w, CheckClosedStep(w, t, w.threads[t].attempts, w.threads[t].k), t, if w.q.closed then FinalCheck(false, k) else RegisterWait(n, k));
  }

  lemma RegisterWaitAwake(w: World, t: nat, c: Choice)
    requires Owners(w) && Awake(w) && t in w.threads && w.threads[t].RegisterWait? && ChoiceFits(w.threads[t], c)
    ensures Awake(RegisterWaitStep(w, t, w.threads[t].attempts, w.threads[t].k, c))
  {
    var n, k := w.threads[t].attempts, w.threads[t].k;
    var w2 := RegisterWaitStep(w, t, w.threads[t].attempts, w.threads[t].k, c);
    if c.Throws? {
      ThrowAwake(w, t);
    } else {
      PumpMoveAwake(w, w2, t, if c.Accepts? then StoreWait(|w.waits|, n, k) else HaltEntry(c.code, ExitPump(k)));
    }
  }

  lemma StoreWaitAwake(w: World, t: nat)
    requires Owners(w) && Awake(w) && t in w.threads && w.threads[t].StoreWait?
    ensures Awake(StoreWaitStep(w, t, w.threads[t].wait, w.threads[t].attempts, w.threads[t].k))
  {
    var v, n, k := w.threads[t].wait, w.threads[t].attempts, w.threads[t].k;
    var w2 := StoreWaitStep(w, t, w.threads[t].wait, w.threads[t].attempts, w.threads[t].k);
    var dropped := if w.q.closed then {v} else {};
    KickKept(w, w2, t);
    PumpMoveAwake(w, w2, t, if w.q.changed then RetakeCapacity(dropped, n, k) else ResetWaits(dropped, ToExit, k));
  }

  lemma RetakeCapacityAwake(w: World, t: nat)
    requires Owners(w) && Awake(w) && t in w.threads && w.threads[t].RetakeCapacity?
    ensures Awake(RetakeCapacityStep(w, t, w.threads[t].dropped, w.threads[t].attempts, w.threads[t].k))
  {
    var pc := w.threads[t];
    PumpMoveAwake(w, RetakeCapacityStep(w, t, w.threads[t].dropped, w.threads[t].attempts, w.threads[t].k), t, ResetWaits(pc.dropped + Only(w.q.capacity), ToScan(pc.attempts), pc.k));
  }

  lemma PumpResetAwake(w: World, t: nat)
    requires Owners(w) && Awake(w) && t in w.threads && w.threads[t].ResetWaits? && w.threads[t].next != ToFinish
    ensures Awake(ResetStep(w, t, w.threads[t].waits, w.threads[t].next, w.threads[t].k))
  {
    hide AtRest, TimerThreads;
    var pc, w2 := w.threads[t], ResetStep(w, t, w.threads[t].waits, w.threads[t].next, w.threads[t].k);
    KickKept(w, w2, t);
    PumpMoveAwake(w, w2, t, if pc.next == ToExit then FinalCheck(false, pc.k) else Scan(pc.next.attempts, pc.k));
  }

  /** The driver leaves without arming a timer: what it leaves is covered. */
  lemma LeaveAwake(w: World, t: nat)
    requires Owners(w) && Awake(w) && t in w.threads && w.threads[t].FinalCheck?
    requires NextWake(w.q, w.threads[t].continuation, w.clock).None?
    ensures Awake(FinalStep(w, t, w.threads[t].continuation, w.threads[t].k))
  {
    var w2 := FinalStep(w, t, w.threads[t].continuation, w.threads[t].k);
    HandlesMoved(w, w2, t, FinishCheck(w.threads[t].k));
    KickKept(w, w2, t);
    if w.q.closed {
      ClosedSuffices(w2);
    } else if KickComing(w2) {
      KickSuffices(w2);
    } else {
      assert Covered(w2);
    }
  }

  lemma FinalAwake(w: World, t: nat)
    requires Owners(w) && Awake(w) && t in w.threads && w.threads[t].FinalCheck?
    ensures Awake(FinalStep(w, t, w.threads[t].continuation, w.threads[t].k))
  {
    var next := NextWake(w.q, w.threads[t].continuation, w.clock);
    if next.Some? {
      var w2 := FinalStep(w, t, w.threads[t].continuation, w.threads[t].k);
      KickKept(w, w2, t);
      PumpMoveAwake(w, w2, t, Arming(next.value, w.threads[t].k));
    } else {
      LeaveAwake(w, t);
    }
  }

  /** The handoff with a timer: the one re-armed or the new one covers the queue. */
  lemma ArmedAwake(w: World, w2: World, t: nat, due: int, k: Cont)
    requires Owners(w) && Awake(w) && t in w.threads && w.threads[t] == Arming(due, k) && !w.q.closed
    requires w2.threads == w.threads[t := FinishCheck(k)] && SameRunning(w.timers, w2.timers) && Grows(w, w2)
    requires w2.waits == w.waits && w2.pump == None && w2.clock == w.clock
    requires w2.q == w.q.(pumping := false, timer := w2.q.timer, generation := w2.q.generation)
    requires Armed(w2) && w2.timers[w2.q.timer.value].due == if w.q.changed then Min(due, w.clock) else due
    ensures Awake(w2)
  {
    TimersMoved(w, w2, t, FinishCheck(k));
    WaitsMoved(w, w2, t, FinishCheck(k));
    KickKept(w, w2, t);
    if KickComing(w2) {
      KickSuffices(w2);
    } else {
      forall e | e in w2.q.entries ensures ArmedBy(w2, e) {
        assert w.q.changed || InTime(w, due, e);
      }
      assert Covered(w2);
    }
  }

  /** The handoff without a timer: a deferral or a halt is on its way. */
  lemma UnarmedAwake(w: World, w2: World, t: nat, pc: Pc)
    requires Owners(w) && Awake(w) && t in w.threads && w.threads[t].Arming? && !w.q.closed && !Reschedules(w)
    requires w2 == Go(w.(q := w.q.(generation := w.q.generation + 1, pumping := false), pump := None), t, pc)
    requires TimerOf(pc) == TimerOf(w.threads[t])
    requires pc.HaltEntry? || (pc.DeferSubscribe? && pc.generation == w.q.generation + 1)
    requires pc.DeferSubscribe? ==> pc.timer < |w.timers| && w.timers[pc.timer].phase == Running
    ensures Awake(w2)
  {
    TimersMoved(w, w2, t, pc);
    WaitsMoved(w, w2, t, pc);
    assert Moves(w2, w2.threads[t]);
  }

  /** The thread is about to replace, and then reset, the live re-arm of the current generation. */
  predicate Discards(w: World, a: Action) {
    && a.Run? && a.tid in w.threads && w.threads[a.tid].DeferStore?
    && !w.q.closed && RetryLive(w)
  }

  /** It does so when nothing else stands for the messages. */
  ghost predicate Strands(w: World, a: Action) { Discards(w, a) && !w.q.pumping && !Moving(w) && !Covered(w) }

  lemma ArmOpenAwake(w: World, t: nat, c: Choice)
    requires Owners(w) && Awake(w) && t in w.threads && w.threads[t].Arming? && !w.q.closed
    requires (Reschedules(w) || c.Accepts?)
    ensures Awake(ArmStep(w, t, w.threads[t].due, w.threads[t].k, c))
  {
    var due, k := w.threads[t].due, w.threads[t].k;
    ArmedAwake(w, ArmStep(w, t, due, k, c), t, due, k);
  }

  lemma ArmAwake(w: World, t: nat, c: Choice)
    requires Owners(w) && Awake(w) && t in w.threads && w.threads[t].Arming? && ChoiceFits(w.threads[t], c)
    ensures Awake(ArmStep(w, t, w.threads[t].due, w.threads[t].k, c))
  {
    hide Awake, Owners;
    var due, k := w.threads[t].due, w.threads[t].k;
    var w2 := ArmStep(w, t, due, k, c);
    if w.q.closed {
      ArmClosedAwake(w, t, c);
    } else if Reschedules(w) || c.Accepts? {
      ArmOpenAwake(w, t, c);
    } else if Defers(w, c) {
      UnarmedAwake(w, w2, t, DeferSubscribe(w.q.generation + 1, w.q.timer.value, k));
    } else {
      UnarmedAwake(w, w2, t, HaltEntry(c.code, FinishThen(k)));
    }
  }

  lemma ArmClosedAwake(w: World, t: nat, c: Choice)
    requires Awake(w) && t in w.threads && w.threads[t].Arming? && w.q.closed
    ensures Awake(ArmStep(w, t, w.threads[t].due, w.threads[t].k, c))
  {
    hide AtRest, Driving;
    var k, w2 := w.threads[t].k, ArmStep(w, t, w.threads[t].due, w.threads[t].k, c);
    HandlesMoved(w, w2, t, FinishCheck(k));
    ClosedSuffices(w2);
  }

  // ---- Steps of threads that do not own the pump -----------------------------

  /** Nothing the driver or the resting queue relies on changes, and `t` was not about to kick it. */
  ghost predicate Bystands(w: World, w2: World, t: nat) {
    && DriverUntouched(w, w2) && w.pump != Some(t)
    && (forall u :: u in w.threads && u != t ==> u in w2.threads && w2.threads[u] == w.threads[u])
    && w2.q.generation == w.q.generation && w2.q.timer == w.q.timer && w2.q.pumping == w.q.pumping
    && (Armed(w) ==> w.q.timer.value < |w2.timers| && w2.timers[w.q.timer.value] == w.timers[w.q.timer.value])
    && StoresKept(w, w2, t) && (RetryLive(w) ==> RetryLive(w2))
    && (t in w.threads ==> !Kicks(w.threads[t]))
  }

  lemma BystanderAwake(w: World, w2: World, t: nat)
    requires Owners(w) && Awake(w) && Handles(w2) && Bystands(w, w2, t)
    requires t in w.threads && Moves(w, w.threads[t]) ==> Moving(w2) || RetryLive(w2)
    ensures Awake(w2)
  {
    KickKept(w, w2, t);
    DrivingKept(w, w2);
    MovingKept(w, w2, t);
    if Covered(w) { CoveredKept(w, w2); }
  }

  lemma SubscribeFrame(w: World, t: nat)
    requires Owners(w) && Waits(w) && t in w.threads && w.threads[t].DeferSubscribe?
    ensures var pc := w.threads[t]; var w2 := DeferSubscribeStep(w, t, pc.generation, pc.timer, pc.k, Accepts);
      Bystands(w, w2, t) && (pc.generation == w.q.generation ==> Moving(w2))
  {
    hide ThreadWaits;
    var pc := w.threads[t];
    var w2 := DeferSubscribeStep(w, t, pc.generation, pc.timer, pc.k, Accepts);
    assert pc.generation == w.q.generation ==> Moves(w2, w2.threads[t]);
  }

  lemma SubscribeHandles(w: World, t: nat, c: Choice)
    requires Handles(w) && t in w.threads && w.threads[t].DeferSubscribe?
    ensures Handles(DeferSubscribeStep(w, t, w.threads[t].generation, w.threads[t].timer, w.threads[t].k, c))
  {
    var k := w.threads[t].k;
    var w2 := DeferSubscribeStep(w, t, w.threads[t].generation, w.threads[t].timer, k, c);
    HandlesMoved(w, w2, t, if c.Refuses? then HaltEntry(c.code, FinishThen(k)) else DeferStore(|w.waits|, k));
  }

  lemma DeferSubscribeAwake(w: World, t: nat, c: Choice)
    requires Owners(w) && Awake(w) && t in w.threads && w.threads[t].DeferSubscribe? && ChoiceFits(w.threads[t], c)
    ensures Awake(DeferSubscribeStep(w, t, w.threads[t].generation, w.threads[t].timer, w.threads[t].k, c))
  {
    hide Driving, AtRest, TimerThreads, TimerHandle, Waits, Owners, Bystands, RetryLive, Moving;
    var w2 := DeferSubscribeStep(w, t, w.threads[t].generation, w.threads[t].timer, w.threads[t].k, c);
    SubscribeHandles(w, t, c);
    if c.Refuses? {
      KickKept(w, w2, t);
      KickSuffices(w2);
    } else {
      SubscribeFrame(w, t);
      BystanderAwake(w, w2, t);
    }
  }

  lemma DeferStoreWaits(w: World, t: nat)
    requires Waits(w) && t in w.threads && w.threads[t].DeferStore?
    ensures Waits(DeferStoreStep(w, t, w.threads[t].wait, w.threads[t].k))
  {
    var w2 := DeferStoreStep(w, t, w.threads[t].wait, w.threads[t].k);
    forall u | u in w2.threads ensures ThreadWaits(w2, w2.threads[u]) {
      assert ThreadWaits(w, w.threads[u]);
    }
  }

  /** The store passes a live subscription to the queue; what it replaces is lost, and that strands nobody. */
  lemma DeferStoreRests(w: World, t: nat)
    requires Waits(w) && AtRest(w) && t in w.threads && w.threads[t].DeferStore? && !Strands(w, Run(t, Plain))
    ensures AtRest(DeferStoreStep(w, t, w.threads[t].wait, w.threads[t].k))
  {
    var w2 := DeferStoreStep(w, t, w.threads[t].wait, w.threads[t].k);
    MovingKept(w, w2, t);
    if Covered(w) { CoveredKept(w, w2); }
  }

  lemma DeferStoreAwake(w: World, t: nat)
    requires Owners(w) && Awake(w) && t in w.threads && w.threads[t].DeferStore? && !Strands(w, Run(t, Plain))
    ensures Awake(DeferStoreStep(w, t, w.threads[t].wait, w.threads[t].k))
  {
    var w2 := DeferStoreStep(w, t, w.threads[t].wait, w.threads[t].k);
    DeferStoreWaits(w, t);
    TimersMoved(w, w2, t, ResetWaits(Only(w.q.wakeRetry), ToFinish, w.threads[t].k));
    KickKept(w, w2, t);
    DrivingKept(w, w2);
    DeferStoreRests(w, t);
  }

  lemma ResetFrame(w: World, t: nat)
    requires Owners(w) && Handles(w) && Apart(w) && t in w.threads && w.threads[t].ResetWaits? && w.threads[t].next == ToFinish
    ensures Bystands(w, ResetStep(w, t, w.threads[t].waits, w.threads[t].next, w.threads[t].k), t)
  {
    hide Apart, StoresKept, RetryLive, Handles;
    ResetsRetries(w, t);
    ResetKeeps(w, t);
  }

  lemma ResetsRetries(w: World, t: nat)
    requires Handles(w) && t in w.threads && w.threads[t].ResetWaits? && w.threads[t].next == ToFinish
    ensures forall c :: c in w.threads[t].waits ==> IsRetryWait(w, c)
  {
    assert ThreadWaits(w, w.threads[t]);
  }

  lemma ResetAwake(w: World, t: nat)
    requires Owners(w) && Awake(w) && Apart(w) && t in w.threads && w.threads[t].ResetWaits? && w.threads[t].next == ToFinish
    ensures Awake(ResetStep(w, t, w.threads[t].waits, w.threads[t].next, w.threads[t].k))
  {
    hide Handles, Driving, AtRest, Owners, Apart, Bystands, RetryLive, Moving, ResetStep;
    ResetHandles(w, t);
    ResetFrame(w, t);
    BystanderAwake(w, ResetStep(w, t, w.threads[t].waits, w.threads[t].next, w.threads[t].k), t);
  }

  lemma ResetHandles(w: World, t: nat)
    requires Owners(w) && Handles(w) && t in w.threads && w.threads[t].ResetWaits? && w.threads[t].next == ToFinish
    ensures Handles(ResetStep(w, t, w.threads[t].waits, w.threads[t].next, w.threads[t].k))
  {
    var w2 := ResetStep(w, t, w.threads[t].waits, w.threads[t].next, w.threads[t].k);
    HandlesMoved(w, w2, t, FinishCheck(w.threads[t].k));
  }

  /** What is reset is neither stored nor about to be. */
  lemma ResetKeeps(w: World, t: nat)
    requires Apart(w) && t in w.threads && w.threads[t].ResetWaits? && w.threads[t].next == ToFinish
    ensures var w2 := ResetStep(w, t, w.threads[t].waits, w.threads[t].next, w.threads[t].k);
      StoresKept(w, w2, t) && (RetryLive(w) ==> RetryLive(w2))
  {
    assert Claims(w.threads[t]) == w.threads[t].waits;
    forall u | u in w.threads && u != t && w.threads[u].DeferStore? ensures w.threads[u].wait !in w.threads[t].waits {
      assert w.threads[u].wait in Claims(w.threads[u]);
    }
  }

  lemma FinishHandles(w: World, t: nat)
    requires Owners(w) && Handles(w) && t in w.threads && w.threads[t].FinishCheck?
    ensures Handles(FinishStep(w, t, w.threads[t].k)) && Grows(w, FinishStep(w, t, w.threads[t].k))
  {
    HandlesResumed(w, w.(q := Finish(w.q)), t, w.threads[t].k);
  }

  lemma FinishFrame(w: World, t: nat)
    requires Owners(w) && Handles(w) && t in w.threads && w.threads[t].FinishCheck? && !w.q.closed
    requires Grows(w, FinishStep(w, t, w.threads[t].k))
    ensures Bystands(w, FinishStep(w, t, w.threads[t].k), t)
  {
    hide Grows, Handles, Finish;
    FinishFacts(w, t);
    FinishQueue(w.q);
    match w.threads[t].k
    case Return =>
    case TimerReturn(_) =>
    case FinishThen(_) =>
    case ExitPump(_) =>
  }

  lemma FinishFacts(w: World, t: nat)
    requires Owners(w) && Handles(w) && t in w.threads && w.threads[t].FinishCheck? && !w.q.closed
    ensures !w.threads[t].k.ExitPump? && w.pump != Some(t)
    ensures w.threads[t].k.TimerReturn? ==> Runs(w, w.threads[t].k.timer, t)
  {
    assert ThreadWaits(w, w.threads[t]);
  }

  lemma FinishQueue(q: Queue)
    ensures Finish(q) == q.(terminal := Finish(q).terminal, result := Finish(q).result)
  {
  }

  lemma FinishAwake(w: World, t: nat)
    requires Owners(w) && Awake(w) && t in w.threads && w.threads[t].FinishCheck?
    ensures Awake(FinishStep(w, t, w.threads[t].k))
  {
    hide Handles, Driving, AtRest, DriverUntouched, StoresKept, RetryLive, Armed, Owners, Finish, Resume;
    var w2 := FinishStep(w, t, w.threads[t].k);
    FinishHandles(w, t);
    if w.q.closed {
      FinishCloses(w, t);
      ClosedSuffices(w2);
    } else {
      FinishFrame(w, t);
      BystanderAwake(w, w2, t);
    }
  }

  lemma FinishCloses(w: World, t: nat)
    requires t in w.threads && w.threads[t].FinishCheck? && w.q.closed
    ensures FinishStep(w, t, w.threads[t].k).q.closed
  {
  }

  lemma HaltAwake(w: World, t: nat)
    requires Owners(w) && Awake(w) && Outcome(w.q) && t in w.threads && w.threads[t].HaltEntry?
    ensures Awake(HaltStep(w, t, w.threads[t].code, w.threads[t].k))
  {
    var k, w2 := w.threads[t].k, HaltStep(w, t, w.threads[t].code, w.threads[t].k);
    if w.q.terminal || w.q.halting {
      HandlesResumed(w, w, t, k);
      if w.q.closed { ClosedSuffices(w2); } else { EmptySuffices(w2); }
    } else {
      HandlesMoved(w, w2, t, HaltCancel(Only(w.q.capacity) + Only(w.q.wakeRetry), w.q.timer, k));
      ClosedSuffices(w2);
    }
  }

  /** While the discard loop runs the queue is closed, so only the bookkeeping is left to keep. */
  lemma HaltMoveAwake(w: World, w2: World, t: nat, pc: Pc)
    requires Owners(w) && Awake(w) && t in w.threads && HoldsHalt(w.threads[t])
    requires w2.threads == w.threads[t := pc] && SameRunning(w.timers, w2.timers) && Grows(w, w2)
    requires |w2.waits| == |w.waits|
    requires TimerOf(pc) == TimerOf(w.threads[t]) && (HoldsHalt(pc) || pc.FinishCheck?)
    requires w2.q.timer == w.q.timer && w2.q.wakeRetry == w.q.wakeRetry && w2.q.capacity == w.q.capacity
    ensures Awake(w2)
  {
    TimersMoved(w, w2, t, pc);
    WaitsMoved(w, w2, t, pc);
    ClosedSuffices(w2);
  }

  lemma HaltCancelAwake(w: World, t: nat)
    requires Owners(w) && Awake(w) && t in w.threads && w.threads[t].HaltCancel?
    ensures Awake(HaltCancelStep(w, t, w.threads[t].waits, w.threads[t].wake, w.threads[t].k))
  {
    HaltMoveAwake(w, HaltCancelStep(w, t, w.threads[t].waits, w.threads[t].wake, w.threads[t].k), t, HaltNext(w.threads[t].k));
  }

  lemma HaltNextAwake(w: World, t: nat)
    requires Owners(w) && Awake(w) && t in w.threads && w.threads[t].HaltNext?
    ensures Awake(HaltNextStep(w, t, w.threads[t].k))
  {
    var s, k := Detach(w.q), w.threads[t].k;
    HaltMoveAwake(w, HaltNextStep(w, t, k), t, if s.retired == [] then FinishCheck(k) else HaltRelease(s.retired[0], k));
  }

  lemma HaltReleaseAwake(w: World, t: nat)
    requires Owners(w) && Awake(w) && t in w.threads && w.threads[t].HaltRelease?
    ensures Awake(HaltReleaseStep(w, t, w.threads[t].detached, w.threads[t].k))
  {
    HaltMoveAwake(w, HaltReleaseStep(w, t, w.threads[t].detached, w.threads[t].k), t, HaltNext(w.threads[t].k));
  }

  lemma TimerStaleFrame(w: World, t: nat)
    requires Owners(w) && Handles(w) && t in w.threads && w.threads[t].TimerCheck?
    requires Grows(w, Resume(w, t, TimerReturn(w.threads[t].timer)))
    ensures Bystands(w, Resume(w, t, TimerReturn(w.threads[t].timer)), t)
  {
    hide Grows, Waits;
    assert Runs(w, w.threads[t].timer, t);
  }

  lemma TimerCheckAwake(w: World, t: nat)
    requires Owners(w) && Awake(w) && t in w.threads && w.threads[t].TimerCheck?
    ensures Awake(TimerCheckStep(w, t, w.threads[t].timer))
  {
    hide Driving, AtRest, Owners, Bystands, RetryLive, Moving;
    var x, w2 := w.threads[t].timer, TimerCheckStep(w, t, w.threads[t].timer);
    if x < |w.timers| && w.timers[x].generation == w.q.generation {
      HandlesMoved(w, w2, t, DriveEntry(TimerReturn(x)));
      KickKept(w, w2, t);
      KickSuffices(w2);
    } else {
      HandlesResumed(w, w, t, TimerReturn(x));
      TimerStaleFrame(w, t);
      BystanderAwake(w, w2, t);
    }
  }

  lemma RetryArmedAwake(w: World, t: nat)
    requires Owners(w) && Awake(w) && t in w.threads && w.threads[t].RetryEntry?
    requires !w.q.closed && w.q.generation == w.threads[t].generation
    ensures Awake(RetryStep(w, t, w.threads[t].generation, Accepts))
  {
    var w2 := RetryStep(w, t, w.threads[t].generation, Accepts);
    TimersLeft(w, w2, t);
    WaitsLeft(w, w2, t);
    KickKept(w, w2, t);
    DrivingKept(w, w2);
    assert Covered(w2);
  }

  lemma RetryStaleAwake(w: World, t: nat, c: Choice)
    requires Owners(w) && Awake(w) && t in w.threads && w.threads[t].RetryEntry?
    requires w.q.closed || w.q.generation != w.threads[t].generation
    ensures Awake(RetryStep(w, t, w.threads[t].generation, c))
  {
    var w2 := RetryStep(w, t, w.threads[t].generation, c);
    TimersLeft(w, w2, t);
    WaitsLeft(w, w2, t);
    if w.q.closed { ClosedSuffices(w2); } else { BystanderAwake(w, w2, t); }
  }

  lemma RetryAwake(w: World, t: nat, c: Choice)
    requires Owners(w) && Awake(w) && t in w.threads && w.threads[t].RetryEntry? && ChoiceFits(w.threads[t], c)
    ensures Awake(RetryStep(w, t, w.threads[t].generation, c))
  {
    var w2 := RetryStep(w, t, w.threads[t].generation, c);
    if w.q.closed || w.q.generation != w.threads[t].generation {
      RetryStaleAwake(w, t, c);
    } else if c.Accepts? {
      RetryArmedAwake(w, t);
    } else {
      HandlesMoved(w, w2, t, HaltEntry(c.code, Return));
      KickKept(w, w2, t);
      KickSuffices(w2);
    }
  }

  // ---- Arrivals --------------------------------------------------------------

  lemma KickArrives(w: World, w2: World, t: nat, pc: Pc)
    requires Handles(w) && t !in w.threads && Kicks(pc) && (pc.k.Return? || pc.k == FinishThen(Return))
    requires w2.threads == w.threads[t := pc] && w2.timers == w.timers && Grows(w, w2) && |w2.waits| == |w.waits|
    requires w2.q.timer == w.q.timer && w2.q.generation == w.q.generation && w2.q.closed == w.q.closed
    requires w2.q.wakeRetry == w.q.wakeRetry && w2.q.capacity == w.q.capacity
    ensures Awake(w2)
  {
    HandlesMoved(w, w2, t, pc);
    KickKept(w, w2, t);
    KickSuffices(w2);
  }

  lemma FireRetryRests(w: World, w2: World, t: nat, c: nat)
    requires Waits(w) && AtRest(w) && t !in w.threads && c < |w.waits| && w.waits[c].retry
    requires w2 == Go(w.(waits := MarkDone(w.waits, {c})), t, RetryEntry(w.waits[c].generation))
    ensures AtRest(w2)
  {
    if w.waits[c].generation == w.q.generation {
      assert Moves(w2, w2.threads[t]);
    } else {
      MovingKept(w, w2, t);
    }
    if Covered(w) { CoveredKept(w, w2); }
  }

  lemma FireRetryAwake(w: World, t: nat, c: nat)
    requires Owners(w) && Awake(w) && Enabled(w, FireRetry(t, c))
    ensures Awake(Apply(w, FireRetry(t, c)))
  {
    var w2 := Go(w.(waits := MarkDone(w.waits, {c})), t, RetryEntry(w.waits[c].generation));
    HandlesMoved(w, w2, t, RetryEntry(w.waits[c].generation));
    KickKept(w, w2, t);
    DrivingKept(w, w2);
    FireRetryRests(w, w2, t, c);
  }

  lemma FireTimerAwake(w: World, t: nat, x: nat)
    requires Owners(w) && Awake(w) && Enabled(w, FireTimer(t, x))
    ensures Awake(Apply(w, FireTimer(t, x)))
  {
    FireTimerHandles(w, t, x);
    FireTimerRest(w, t, x);
    var w2 := Apply(w, FireTimer(t, x));
    KickKept(w, w2, t);
    DrivingKept(w, w2);
  }

  lemma FireTimerHandles(w: World, t: nat, x: nat)
    requires Handles(w) && Enabled(w, FireTimer(t, x))
    ensures Handles(Apply(w, FireTimer(t, x)))
  {
    TimersFired(w, t, x);
    WaitsMoved(w, Apply(w, FireTimer(t, x)), t, TimerCheck(x));
  }

  lemma FireTimerRest(w: World, t: nat, x: nat)
    requires Handles(w) && AtRest(w) && Enabled(w, FireTimer(t, x))
    ensures AtRest(Apply(w, FireTimer(t, x)))
  {
    hide TimerThreads, ThreadWaits;
    var w2 := Apply(w, FireTimer(t, x));
    MovingKept(w, w2, t);
    if Covered(w) && !(Armed(w) && w.q.timer == Some(x)) { CoveredKept(w, w2); }
  }

  lemma TickRests(w: World, now: int)
    requires Waits(w) && AtRest(w) && w.clock <= now
    ensures AtRest(w.(clock := now))
  {
    var w2 := w.(clock := now);
    if Moving(w) {
      var u :| u in w.threads && Moves(w, w.threads[u]);
      assert Moves(w2, w2.threads[u]);
    }
    if Covered(w) { CoveredKept(w, w2); }
  }

  lemma TickAwake(w: World, now: int)
    requires Owners(w) && Awake(w) && w.clock <= now
    ensures Awake(w.(clock := now))
  {
    var w2 := w.(clock := now);
    forall t | t in w2.threads ensures ThreadWaits(w2, w2.threads[t]) {
      ThreadWaitsKept(w, w2, w.threads[t]);
    }
    assert KickComing(w) ==> KickComing(w2);
    DrivingKept(w, w2);
    TickRests(w, now);
  }


  lemma PumpStepAwake(w: World, t: nat, c: Choice)
    requires Owners(w) && Awake(w) && t in w.threads && ChoiceFits(w.threads[t], c) && EarlyPump(w.threads[t])
    ensures Awake(Advance(w, t, c))
  {
    match w.threads[t]
    case TakeCapacity(_) => TakeCapacityAwake(w, t);
    case Scan(_, _) => ScanAwake(w, t);
    case ReleaseExpired(_, _, _, _, _) => ReleaseExpiredAwake(w, t);
    case Sending(_, _, _) => if c.SendResult? { SettleAwake(w, t, c.code); } else { ThrowAwake(w, t); }
    case ReleaseSent(_, _, _, _) => ReleaseSentAwake(w, t);
    case CheckClosed(_, _) => CheckClosedAwake(w, t);
  }

  lemma LateStepAwake(w: World, t: nat, c: Choice)
    requires Owners(w) && Awake(w) && t in w.threads && ChoiceFits(w.threads[t], c) && LatePump(w.threads[t])
    ensures Awake(Advance(w, t, c))
  {
    match w.threads[t]
    case RegisterWait(_, _) => RegisterWaitAwake(w, t, c);
    case StoreWait(_, _, _) => StoreWaitAwake(w, t);
    case RetakeCapacity(_, _, _) => RetakeCapacityAwake(w, t);
    case ResetWaits(_, _, _) => PumpResetAwake(w, t);
    case FinalCheck(_, _) => FinalAwake(w, t);
    case Arming(_, _) => ArmAwake(w, t, c);
  }

  lemma OtherStepAwake(w: World, t: nat, c: Choice)
    requires Owners(w) && Awake(w) && Outcome(w.q) && t in w.threads && ChoiceFits(w.threads[t], c)
    requires !EarlyPump(w.threads[t]) && !LatePump(w.threads[t]) && Apart(w) && !Strands(w, Run(t, c))
    ensures Awake(Advance(w, t, c))
  {
    match w.threads[t]
    case DriveEntry(_) => DriveAwake(w, t);
    case ResetWaits(_, _, _) => ResetAwake(w, t);
    case DeferSubscribe(_, _, _) => DeferSubscribeAwake(w, t, c);
    case DeferStore(_, _) => DeferStoreAwake(w, t);
    case FinishCheck(_) => FinishAwake(w, t);
    case HaltEntry(_, _) => HaltAwake(w, t);
    case HaltCancel(_, _, _) => HaltCancelAwake(w, t);
    case HaltNext(_) => HaltNextAwake(w, t);
    case HaltRelease(_, _) => HaltReleaseAwake(w, t);
    case TimerCheck(_) => TimerCheckAwake(w, t);
    case RetryEntry(_) => RetryAwake(w, t, c);
  }

  lemma AdmitFrame(q: Queue, o: Options, e: Entry)
    ensures var q2 := Admit(q, o, e).queue;
      && q2.timer == q.timer && q2.generation == q.generation && q2.closed == q.closed
      && q2.wakeRetry == q.wakeRetry && q2.capacity == q.capacity
  {
  }

  lemma EnqueueAwake(w: World, t: nat, e: Entry)
    requires Awake(w) && t !in w.threads
    ensures Awake(EnqueueStep(w, t, e))
  {
    hide Handles, Driving, AtRest, Admit;
    var w2 := EnqueueStep(w, t, e);
    AdmitFrame(w.q, w.opts, e);
    if w2 != w { KickArrives(w, w2, t, DriveEntry(Return)); }
  }

  lemma StepAwake(w: World, a: Action)
    requires Safe(w) && Awake(w) && Apart(w) && Enabled(w, a) && !Strands(w, a)
    ensures Awake(Apply(w, a))
  {
    assert Owners(w) && Outcome(w.q);
    hide Safe, QueueInv, Owners, Apart, Strands, Outcome, Advance;
    match a
    case Enqueue(t, bytes, key, expires) => EnqueueAwake(w, t, Entry(w.nextEntry, bytes, key, expires));
    case BeginDrain(t) => KickArrives(w, Apply(w, a), t, DriveEntry(FinishThen(Return)));
    case CloseQueue(t) => KickArrives(w, Apply(w, a), t, HaltEntry(Cancelled, Return));
    case FireWait(t, c, code) => KickArrives(w, Apply(w, a), t, if code == Ok then DriveEntry(Return) else HaltEntry(code, Return));
    case FireRetry(t, c) => FireRetryAwake(w, t, c);
    case FireTimer(t, x) => FireTimerAwake(w, t, x);
    case Tick(now) => TickAwake(w, now);
    case Run(t, c) =>
      if EarlyPump(w.threads[t]) {
        PumpStepAwake(w, t, c);
      } else if LatePump(w.threads[t]) {
        LateStepAwake(w, t, c);
      } else {
        OtherStepAwake(w, t, c);
      }
  }

  // ---- Whole runs ------------------------------------------------------------

  /** No store replaces the live re-arm while nothing else stands for the messages. */
  ghost predicate NoneStrands(ws: seq<World>, acts: seq<Action>) {
    |ws| == |acts| + 1 && forall i :: 0 <= i < |acts| ==> !Strands(ws[i], acts[i])
  }

  /** Up to any position before which no step strands. */
  lemma RunAwake(ws: seq<World>, acts: seq<Action>, i: nat)
    requires IsRun(ws, acts) && i < |ws| && forall j :: 0 <= j < i ==> !Strands(ws[j], acts[j])
    ensures Safe(ws[i]) && Awake(ws[i])
  {
    hide Safe, Awake, Apart, Strands, Apply, Enabled;
    InitiallyAwake(ws, acts);
    RunSafe(ws, acts, i);
    for j := 0 to i
      invariant Awake(ws[j])
    {
      RunSafe(ws, acts, j);
      RunApart(ws, acts, j);
      StepAwake(ws[j], acts[j]);
    }
  }

  lemma InitiallyAwake(ws: seq<World>, acts: seq<Action>)
    requires IsRun(ws, acts)
    ensures Awake(ws[0])
  {
    var o, clock :| ValidOptions(o) && ws[0] == Initial(o, clock);
    InitialAwake(o, clock);
  }

  /**
  No wake is lost: with no driver and an open queue, either a thread is on its way to drive it, or a
  deferred re-arm is subscribed, or the messages are covered by a pending capacity wait or a due timer
  and every expiry by a timer of the current generation.
  */
  lemma NoLostWake(ws: seq<World>, acts: seq<Action>, i: nat)
    requires IsRun(ws, acts) && NoneStrands(ws, acts) && i < |ws|
    requires !ws[i].q.closed && (forall t :: t in ws[i].threads ==> !HoldsPump(ws[i].threads[t]))
    ensures Moving(ws[i]) || RetryLive(ws[i]) || Covered(ws[i])
  {
    RunAwake(ws, acts, i);
  }

  /** A message or capacity signal that arrives during a drive is seen: the last check before the handoff finds it. */
  lemma SignalSeenBeforeHandoff(ws: seq<World>, acts: seq<Action>, i: nat, t: nat)
    requires IsRun(ws, acts) && NoneStrands(ws, acts) && i < |ws| && t in ws[i].threads && ws[i].threads[t].FinalCheck?
    requires !ws[i].q.closed && ws[i].q.entries != []
    requires NextWake(ws[i].q, ws[i].threads[t].continuation, ws[i].clock).None?
    ensures KickComing(ws[i]) || CapacityLive(ws[i])
  {
    RunAwake(ws, acts, i);
  }

  /** Once every thread has returned, an open queue with messages has an enabled or pending wake source. */
  lemma QuiescentQueueIsWoken(ws: seq<World>, acts: seq<Action>, i: nat, caller: nat)
    requires IsRun(ws, acts) && NoneStrands(ws, acts) && i < |ws| && ws[i].threads == map[]
    requires !ws[i].q.closed && ws[i].q.entries != []
    ensures
      || (exists c :: Enabled(ws[i], FireWait(caller, c, Ok)))
      || (exists x :: Enabled(ws[i], FireTimer(caller, x)))
      || (exists c :: Enabled(ws[i], FireRetry(caller, c)))
  {
    RunAwake(ws, acts, i);
    var w := ws[i];
    if RetryLive(w) {
      assert Enabled(w, FireRetry(caller, w.q.wakeRetry.value));
    } else if CapacityLive(w) {
      assert Enabled(w, FireWait(caller, w.q.capacity.value, Ok));
    } else {
      assert Enabled(w, FireTimer(caller, w.q.timer.value));
    }
  }

  /** A store brings nobody on the way and covers nothing. */
  lemma StoreBringsNothing(w: World, t: nat)
    requires t in w.threads && w.threads[t].DeferStore?
    ensures var w2 := DeferStoreStep(w, t, w.threads[t].wait, w.threads[t].k);
      && (Moving(w2) ==> Moving(w)) && (Covered(w2) ==> Covered(w))
      && (RetryLive(w2) ==> Moves(w, w.threads[t]))
  {
    var w2 := DeferStoreStep(w, t, w.threads[t].wait, w.threads[t].k);
    if Moving(w2) {
      var u :| u in w2.threads && Moves(w2, w2.threads[u]);
      assert u in w.threads && Moves(w, w.threads[u]);
    }
    if Covered(w2) {
      forall e | e in w.q.entries ensures ArmedBy(w, e) { assert ArmedBy(w2, e); }
    }
  }

  /** A stranding store leaves the open queue with nobody and nothing to drive it. */
  lemma StrandsLoses(w: World, a: Action)
    requires Enabled(w, a) && Strands(w, a)
    ensures !AtRest(Apply(w, a))
  {
    hide Covered, CapacityLive;
    StoreBringsNothing(w, a.tid);
  }

  /** The exact condition: a run keeps a wake source in all its states if and only if none of its stores strands. */
  lemma WakeKeptIff(ws: seq<World>, acts: seq<Action>)
    requires IsRun(ws, acts)
    ensures (forall i :: 0 <= i < |ws| ==> AtRest(ws[i])) <==> NoneStrands(ws, acts)
  {
    hide AtRest, Strands, Apply, Enabled, Safe, Handles, Driving;
    if NoneStrands(ws, acts) {
      forall i | 0 <= i < |ws| ensures AtRest(ws[i]) { RunAwake(ws, acts, i); }
    } else {
      var i :| 0 <= i < |acts| && Strands(ws[i], acts[i]);
      StrandsLoses(ws[i], acts[i]);
      assert !AtRest(ws[i + 1]);
    }
  }
}
