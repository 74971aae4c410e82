/**
The outbound pump as a step system.  Any number of threads run Enqueue, BeginDrain, Close,
capacity callbacks, wake timers and deferred re-arms.  One lock-held section, or one
operation outside the lock, is one step; a thread between two steps is at a program point
`Pc`, and what it returns to is a `Cont`.
*/
module OutboundPump {
  import opened Common
  import opened OutboundQueue

  /** What a thread does once the call it is in returns. */
  datatype Cont =
    | Return                                     // the thread is done
    | TimerReturn(timer: nat)                    // the timer callback returns to the scheduler
    | FinishThen(k: Cont)                        // FinishIfReady comes next
    | ExitPump(k: Cont)                          // leave the pump loop

  /** Where a thread goes after resetting subscriptions outside the lock. */
  datatype AfterReset = ToScan(attempts: nat) | ToExit | ToFinish

  datatype Pc =
    | DriveEntry(k: Cont)
    | TakeCapacity(k: Cont)
    | Scan(attempts: nat, k: Cont)
    | ReleaseExpired(retired: seq<Entry>, item: Option<Entry>, continuation: bool, attempts: nat, k: Cont)
    | Sending(entry: Entry, attempts: nat, k: Cont)
    | ReleaseSent(retired: seq<Entry>, code: ErrorCode, attempts: nat, k: Cont)
    | CheckClosed(attempts: nat, k: Cont)
    | RegisterWait(attempts: nat, k: Cont)
    | StoreWait(wait: nat, attempts: nat, k: Cont)
    | RetakeCapacity(dropped: set<nat>, attempts: nat, k: Cont)
    | ResetWaits(waits: set<nat>, next: AfterReset, k: Cont)
    | FinalCheck(continuation: bool, k: Cont)
    | Arming(due: int, k: Cont)
    | DeferSubscribe(generation: nat, timer: nat, k: Cont)
    | DeferStore(wait: nat, k: Cont)
    | FinishCheck(k: Cont)
    | HaltEntry(code: ErrorCode, k: Cont)
    | HaltCancel(waits: set<nat>, wake: Option<nat>, k: Cont)
    | HaltNext(k: Cont)
    | HaltRelease(detached: Entry, k: Cont)
    | TimerCheck(timer: nat)
    | RetryEntry(generation: nat)

  /** A one-shot subscription: a capacity wait, or a wait for `timer` to finish. */
  datatype Wait = Wait(done: bool, retry: bool, generation: nat, timer: nat)

  datatype Phase = Pending | Running | Finished
  /** `runner` records the thread that runs the callback; no step reads it. */
  datatype Timer = Timer(generation: nat, due: int, phase: Phase, runner: nat)

  /** `pump` and `halter` record which thread owns the pump and the discard loop; no step reads them. */
  datatype World = World(
    opts: Options, q: Queue, clock: int, threads: map<nat, Pc>, waits: seq<Wait>, timers: seq<Timer>,
    nextEntry: nat, pump: Option<nat>, halter: Option<nat>)

  function Initial(o: Options, clock: int): World
  {
    World(o, EMPTY_QUEUE, clock, map[], [], [], 0, None, None)
  }

  /** What the environment answers inside a step. */
  datatype Choice =
    | Plain
    | SendResult(code: ErrorCode)
    | Throws
    | Accepts
    | Refuses(code: ErrorCode)

  datatype Action =
    | Enqueue(tid: nat, bytes: nat, latestKey: Option<nat>, expires: Option<int>)
    | BeginDrain(tid: nat)
    | CloseQueue(tid: nat)
    | FireWait(tid: nat, wait: nat, code: ErrorCode)
    | FireRetry(tid: nat, wait: nat)
    | FireTimer(tid: nat, timer: nat)
    | Tick(now: int)
    | Run(tid: nat, choice: Choice)

  predicate ChoiceFits(pc: Pc, c: Choice) {
    match pc
    case Sending(_, _, _) => c.SendResult? || c.Throws?
    case RegisterWait(_, _) => c.Accepts? || c.Throws? || (c.Refuses? && c.code != Ok)
    case Arming(_, _) => c.Accepts? || (c.Refuses? && c.code != Ok)
    case DeferSubscribe(_, _, _) => c.Accepts? || (c.Refuses? && c.code != Ok)
    case RetryEntry(_) => c.Accepts? || (c.Refuses? && c.code != Ok)
    case _ => c.Plain?
  }

  predicate Enabled(w: World, a: Action) {
    match a
    case Enqueue(tid, bytes, _, _) => tid !in w.threads && 0 < bytes
    case BeginDrain(tid) => tid !in w.threads
    case CloseQueue(tid) => tid !in w.threads
    case FireWait(tid, c, _) => tid !in w.threads && c < |w.waits| && !w.waits[c].done && !w.waits[c].retry
    case FireRetry(tid, c) =>
      && tid !in w.threads && c < |w.waits| && !w.waits[c].done && w.waits[c].retry
      && w.waits[c].timer < |w.timers| && w.timers[w.waits[c].timer].phase == Finished
    case FireTimer(tid, t) =>
      tid !in w.threads && t < |w.timers| && w.timers[t].phase == Pending && w.timers[t].due <= w.clock
    case Tick(now) => w.clock <= now
    case Run(tid, c) => tid in w.threads && ChoiceFits(w.threads[tid], c)
  }

  function Go(w: World, tid: nat, pc: Pc): World
  {
    w.(threads := w.threads[tid := pc])
  }

  function Stop(w: World, tid: nat): World
  {
    w.(threads := w.threads - {tid})
  }

  function SetPhase(ts: seq<Timer>, t: nat, phase: Phase): seq<Timer>
  {
    if t < |ts| then ts[t := ts[t].(phase := phase)] else ts
  }

  /** Return from a call into `k`. */
  function Resume(w: World, tid: nat, k: Cont): World
  {
    match k
    case Return => Stop(w, tid)
    case TimerReturn(t) => Stop(w.(timers := SetPhase(w.timers, t, Finished)), tid)
    case FinishThen(k1) => Go(w, tid, FinishCheck(k1))
    case ExitPump(k1) => Go(w, tid, FinalCheck(false, k1))
  }

  function MarkDone(ws: seq<Wait>, cs: set<nat>): (r: seq<Wait>)
    ensures |r| == |ws|
    ensures forall i :: 0 <= i < |ws| ==> r[i] == if i in cs then ws[i].(done := true) else ws[i]
  {
    seq(|ws|, i requires 0 <= i < |ws| => if i in cs then ws[i].(done := true) else ws[i])
  }

  function Only(c: Option<nat>): set<nat>
  {
    if c.Some? then {c.value} else {}
  }

  // ---- Thread steps ----------------------------------------------------------

  function DriveStep(w: World, tid: nat, k: Cont): World
  {
    if w.q.pumping || w.q.closed
    then Resume(w.(q := w.q.(changed := true)), tid, k)
    else Go(w.(q := w.q.(changed := true, pumping := true), pump := Some(tid)), tid, TakeCapacity(k))
  }

  function TakeCapacityStep(w: World, tid: nat, k: Cont): World
  {
    Go(w.(q := w.q.(capacity := None)), tid, ResetWaits(Only(w.q.capacity), ToScan(0), k))
  }

  function ResetStep(w: World, tid: nat, cs: set<nat>, next: AfterReset, k: Cont): World
  {
    var w1 := w.(waits := MarkDone(w.waits, cs));
    match next
    case ToScan(attempts) => Go(w1, tid, Scan(attempts, k))
    case ToExit => Go(w1, tid, FinalCheck(false, k))
    case ToFinish => Go(w1, tid, FinishCheck(k))
  }

  function ScanStep(w: World, tid: nat, attempts: nat, k: Cont): World
  {
    var s := ScanQueue(w.q, w.opts, w.clock, attempts);
    Go(w.(q := s.queue), tid, ReleaseExpired(s.retired, s.item, s.continuation, attempts, k))
  }

  function ReleaseExpiredStep(w: World, tid: nat, retired: seq<Entry>, item: Option<Entry>,
                              continuation: bool, attempts: nat, k: Cont): World
  {
    Go(w.(q := ReleaseEntries(w.q, retired)), tid,
       if item.Some? then Sending(item.value, attempts + 1, k) else FinalCheck(continuation, k))
  }

  function SendStep(w: World, tid: nat, item: Entry, attempts: nat, k: Cont, c: Choice): World
  {
    if c.SendResult? then
      var s := SettleSend(w.q, item, c.code);
      Go(w.(q := s.queue), tid, ReleaseSent(s.retired, c.code, attempts, k))
    else
      Go(w.(q := w.q.(active := None, pumping := false), pump := None), tid, HaltEntry(PlatformError, k))
  }

  function ReleaseSentStep(w: World, tid: nat, retired: seq<Entry>, code: ErrorCode, attempts: nat, k: Cont): World
  {
    Go(w.(q := ReleaseEntries(w.q, retired)), tid,
       if code == Ok then Scan(attempts, k)
       else if code != WouldBlock then HaltEntry(code, ExitPump(k))
       else CheckClosed(attempts, k))
  }

  function CheckClosedStep(w: World, tid: nat, attempts: nat, k: Cont): World
  {
    Go(w, tid, if w.q.closed then FinalCheck(false, k) else RegisterWait(attempts, k))
  }

  function RegisterWaitStep(w: World, tid: nat, attempts: nat, k: Cont, c: Choice): World
  {
    match c
    case Accepts =>
      Go(w.(waits := w.waits + [Wait(false, false, 0, 0)]), tid, StoreWait(|w.waits|, attempts, k))
    case Refuses(code) => Go(w, tid, HaltEntry(code, ExitPump(k)))
    case _ => Go(w.(q := w.q.(active := None, pumping := false), pump := None), tid, HaltEntry(PlatformError, k))
  }

  function StoreWaitStep(w: World, tid: nat, wait: nat, attempts: nat, k: Cont): World
  {
    var w1 := if w.q.closed then w else w.(q := w.q.(capacity := Some(wait)));
    var dropped := if w.q.closed then {wait} else {};
    Go(w1, tid, if w.q.changed then RetakeCapacity(dropped, attempts, k) else ResetWaits(dropped, ToExit, k))
  }

  function RetakeCapacityStep(w: World, tid: nat, dropped: set<nat>, attempts: nat, k: Cont): World
  {
    Go(w.(q := w.q.(capacity := None)), tid, ResetWaits(dropped + Only(w.q.capacity), ToScan(attempts), k))
  }

  function FinalStep(w: World, tid: nat, continuation: bool, k: Cont): World
  {
    var next := NextWake(w.q, continuation, w.clock);
    if next.Some? then Go(w, tid, Arming(next.value, k))
    else Go(w.(q := w.q.(pumping := false), pump := None), tid, FinishCheck(k))
  }

  /** Whether Arm's refused schedule is deferred until the running wake timer ends. */
  predicate Defers(w: World, c: Choice) {
    && c == Refuses(WouldBlock)
    && w.q.timer.Some? && w.q.timer.value < |w.timers|
    && w.timers[w.q.timer.value].phase == Running
  }

  predicate Reschedules(w: World) {
    w.q.timer.Some? && w.q.timer.value < |w.timers| && w.timers[w.q.timer.value].phase == Pending
  }

  function ArmStep(w: World, tid: nat, due: int, k: Cont, c: Choice): World
  {
    if w.q.closed then Go(w.(q := w.q.(pumping := false), pump := None), tid, FinishCheck(k))
    else
      var at := if w.q.changed then Min(due, w.clock) else due;
      if Reschedules(w) then
        var t := w.q.timer.value;
        Go(w.(q := w.q.(pumping := false), pump := None, timers := w.timers[t := w.timers[t].(due := at)]),
           tid, FinishCheck(k))
      else
        var g := w.q.generation + 1;
        var q1 := w.q.(generation := g, pumping := false);
        if c.Accepts? then
          Go(w.(q := q1.(timer := Some(|w.timers|)), pump := None, timers := w.timers + [Timer(g, at, Pending, 0)]),
             tid, FinishCheck(k))
        else if Defers(w, c) then Go(w.(q := q1, pump := None), tid, DeferSubscribe(g, w.q.timer.value, k))
        else Go(w.(q := q1, pump := None), tid, HaltEntry(if c.Refuses? then c.code else PlatformError, FinishThen(k)))
  }

  function DeferSubscribeStep(w: World, tid: nat, g: nat, timer: nat, k: Cont, c: Choice): World
  {
    if c.Refuses? then Go(w, tid, HaltEntry(c.code, FinishThen(k)))
    else Go(w.(waits := w.waits + [Wait(false, true, g, timer)]), tid, DeferStore(|w.waits|, k))
  }

  function DeferStoreStep(w: World, tid: nat, wait: nat, k: Cont): World
  {
    Go(w.(q := w.q.(wakeRetry := Some(wait))), tid, ResetWaits(Only(w.q.wakeRetry), ToFinish, k))
  }

  function FinishStep(w: World, tid: nat, k: Cont): World
  {
    Resume(w.(q := Finish(w.q)), tid, k)
  }

  function HaltStep(w: World, tid: nat, code: ErrorCode, k: Cont): World
  {
    if w.q.terminal || w.q.halting then Resume(w, tid, k)
    else Go(w.(q := BeginHalt(w.q, code), halter := Some(tid)), tid,
            HaltCancel(Only(w.q.capacity) + Only(w.q.wakeRetry), w.q.timer, k))
  }

  function HaltCancelStep(w: World, tid: nat, cs: set<nat>, timer: Option<nat>, k: Cont): World
  {
    var ts := if timer.Some? && timer.value < |w.timers| && w.timers[timer.value].phase == Pending
              then SetPhase(w.timers, timer.value, Finished) else w.timers;
    Go(w.(waits := MarkDone(w.waits, cs), timers := ts), tid, HaltNext(k))
  }

  function HaltNextStep(w: World, tid: nat, k: Cont): World
  {
    var s := Detach(w.q);
    if s.retired == [] then Go(w.(q := s.queue, halter := None), tid, FinishCheck(k))
    else Go(w.(q := s.queue), tid, HaltRelease(s.retired[0], k))
  }

  function HaltReleaseStep(w: World, tid: nat, e: Entry, k: Cont): World
  {
    Go(w.(q := ReleaseEntries(w.q, [e])), tid, HaltNext(k))
  }

  function TimerCheckStep(w: World, tid: nat, t: nat): World
  {
    if t < |w.timers| && w.timers[t].generation == w.q.generation
    then Go(w, tid, DriveEntry(TimerReturn(t)))
    else Resume(w, tid, TimerReturn(t))
  }

  function RetryStep(w: World, tid: nat, g: nat, c: Choice): World
  {
    if w.q.closed || w.q.generation != g then Stop(w, tid)
    else if c.Accepts? then
      Stop(w.(q := w.q.(timer := Some(|w.timers|)), timers := w.timers + [Timer(g, w.clock, Pending, 0)]), tid)
    else Go(w, tid, HaltEntry(if c.Refuses? then c.code else PlatformError, Return))
  }

  function Advance(w: World, tid: nat, c: Choice): World
    requires tid in w.threads
  {
    match w.threads[tid]
    case DriveEntry(k) => DriveStep(w, tid, k)
    case TakeCapacity(k) => TakeCapacityStep(w, tid, k)
    case Scan(n, k) => ScanStep(w, tid, n, k)
    case ReleaseExpired(r, i, cont, n, k) => ReleaseExpiredStep(w, tid, r, i, cont, n, k)
    case Sending(e, n, k) => SendStep(w, tid, e, n, k, c)
    case ReleaseSent(r, code, n, k) => ReleaseSentStep(w, tid, r, code, n, k)
    case CheckClosed(n, k) => CheckClosedStep(w, tid, n, k)
    case RegisterWait(n, k) => RegisterWaitStep(w, tid, n, k, c)
    case StoreWait(v, n, k) => StoreWaitStep(w, tid, v, n, k)
    case RetakeCapacity(d, n, k) => RetakeCapacityStep(w, tid, d, n, k)
    case ResetWaits(cs, next, k) => ResetStep(w, tid, cs, next, k)
    case FinalCheck(cont, k) => FinalStep(w, tid, cont, k)
    case Arming(due, k) => ArmStep(w, tid, due, k, c)
    case DeferSubscribe(g, t, k) => DeferSubscribeStep(w, tid, g, t, k, c)
    case DeferStore(v, k) => DeferStoreStep(w, tid, v, k)
    case FinishCheck(k) => FinishStep(w, tid, k)
    case HaltEntry(code, k) => HaltStep(w, tid, code, k)
    case HaltCancel(cs, t, k) => HaltCancelStep(w, tid, cs, t, k)
    case HaltNext(k) => HaltNextStep(w, tid, k)
    case HaltRelease(e, k) => HaltReleaseStep(w, tid, e, k)
    case TimerCheck(t) => TimerCheckStep(w, tid, t)
    case RetryEntry(g) => RetryStep(w, tid, g, c)
  }

  function EnqueueStep(w: World, tid: nat, e: Entry): World
  {
    if e.bytes > w.opts.maxRetainedBytes || ExpiredAt(e, w.clock) then w
    else
      var a := Admit(w.q, w.opts, e);
      if a.code == Ok then Go(w.(q := a.queue, nextEntry := w.nextEntry + 1), tid, DriveEntry(Return)) else w
  }

  function Apply(w: World, a: Action): World
    requires Enabled(w, a)
  {
    match a
    case Enqueue(tid, bytes, key, expires) => EnqueueStep(w, tid, Entry(w.nextEntry, bytes, key, expires))
    case BeginDrain(tid) => Go(w.(q := w.q.(draining := true)), tid, DriveEntry(FinishThen(Return)))
    case CloseQueue(tid) => Go(w, tid, HaltEntry(Cancelled, Return))
    case FireWait(tid, c, code) =>
      Go(w.(waits := MarkDone(w.waits, {c})), tid, if code == Ok then DriveEntry(Return) else HaltEntry(code, Return))
    case FireRetry(tid, c) => Go(w.(waits := MarkDone(w.waits, {c})), tid, RetryEntry(w.waits[c].generation))
    case FireTimer(tid, t) => Go(w.(timers := w.timers[t := w.timers[t].(phase := Running, runner := tid)]), tid, TimerCheck(t))
    case Tick(now) => w.(clock := now)
    case Run(tid, c) => Advance(w, tid, c)
  }
}
