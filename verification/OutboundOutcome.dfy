/** How long one drive may go on, and with which code a queue ends. */
module OutboundOutcome {
  import opened Common
  import opened OutboundQueue
  import opened OutboundPump
  import opened OutboundSafety
  import opened OutboundClaims

  // ---- One drive ends --------------------------------------------------------

  /** The attempts a driver has behind it, at the points from which it may send again. */
  function Attempts(pc: Pc): Option<nat> {
    match pc
    case TakeCapacity(_) => Some(0)
    case Scan(n, _) => Some(n)
    case ReleaseExpired(_, item, _, n, _) => if item.Some? then Some(n) else None
    case Sending(_, n, _) => Some(n)
    case ReleaseSent(_, _, n, _) => Some(n)
    case CheckClosed(n, _) => Some(n)
    case RegisterWait(n, _) => Some(n)
    case StoreWait(_, n, _) => Some(n)
    case RetakeCapacity(_, n, _) => Some(n)
    case ResetWaits(_, next, _) => if next.ToScan? then Some(next.attempts) else None
    case _ => None
  }

  /** The driver is about to give a message to the sink. */
  predicate HandsOver(w: World, a: Action, t: nat) {
    a.Run? && a.tid == t && t in w.threads && w.threads[t].ReleaseExpired? && w.threads[t].item.Some?
  }

  ghost predicate Budgeted(o: Options, pc: Pc) {
    && (Attempts(pc).Some? ==> Attempts(pc).value <= o.maxPumpMessages)
    && (pc.ReleaseExpired? && pc.item.Some? ==> pc.attempts < o.maxPumpMessages)
  }

  /** A step of the driver counts what it hands over, and never starts again from fewer. */
  ghost predicate Spends(w: World, a: Action, w2: World, t: nat) {
    && (t in w2.threads ==> Budgeted(w2.opts, w2.threads[t]))
    && (t in w2.threads && t in w.threads && HoldsPump(w.threads[t]) && HoldsPump(w2.threads[t]) && Attempts(w2.threads[t]).Some? ==>
          && Attempts(w.threads[t]).Some?
          && Attempts(w2.threads[t]).value == Attempts(w.threads[t]).value + if HandsOver(w, a, t) then 1 else 0)
  }

  /** A step moves the thread that takes it and no other. */
  ghost predicate Alone(w: World, w2: World, t: nat) {
    && w2.opts == w.opts
    && (forall u :: u != t ==> (u in w2.threads <==> u in w.threads))
    && (forall u :: u != t && u in w.threads ==> w2.threads[u] == w.threads[u])
  }

  lemma ResumeAlone(w: World, w1: World, t: nat, k: Cont)
    requires w1.threads == w.threads && w1.opts == w.opts
    ensures Alone(w, Resume(w1, t, k), t)
  {
  }

  lemma EarlyAlone(w: World, t: nat, c: Choice)
    requires t in w.threads && EarlyPump(w.threads[t])
    ensures Alone(w, Advance(w, t, c), t)
  {
  }

  lemma LateAlone(w: World, t: nat, c: Choice)
    requires t in w.threads && LatePump(w.threads[t]) && !w.threads[t].Arming?
    ensures Alone(w, Advance(w, t, c), t)
  {
  }

  lemma HaltAlone(w: World, t: nat, c: Choice)
    requires t in w.threads && Discarding(w.threads[t])
    ensures Alone(w, Advance(w, t, c), t)
  {
    if w.threads[t].HaltEntry? { ResumeAlone(w, w, t, w.threads[t].k); }
  }

  lemma OtherAlone(w: World, t: nat, c: Choice)
    requires t in w.threads && !EarlyPump(w.threads[t]) && !LatePump(w.threads[t]) && !Discarding(w.threads[t])
    ensures Alone(w, Advance(w, t, c), t)
  {
    match w.threads[t]
    case DriveEntry(k) => ResumeAlone(w, w.(q := w.q.(changed := true)), t, k);
    case FinishCheck(k) => ResumeAlone(w, w.(q := Finish(w.q)), t, k);
    case TimerCheck(x) => ResumeAlone(w, w, t, TimerReturn(x));
    case _ =>
  }

  lemma ThreadAlone(w: World, t: nat, c: Choice)
    requires t in w.threads && ChoiceFits(w.threads[t], c)
    ensures Alone(w, Advance(w, t, c), t)
  {
    if w.threads[t].Arming? { ArmShape(w, t, c); return; }
    hide Alone, Advance;
    if EarlyPump(w.threads[t]) {
      EarlyAlone(w, t, c);
    } else if LatePump(w.threads[t]) {
      LateAlone(w, t, c);
    } else if Discarding(w.threads[t]) {
      HaltAlone(w, t, c);
    } else {
      OtherAlone(w, t, c);
    }
  }

  lemma EarlySpends(w: World, t: nat, c: Choice)
    requires t in w.threads && EarlyPump(w.threads[t]) && Budgeted(w.opts, w.threads[t]) && ChoiceFits(w.threads[t], c)
    ensures Spends(w, Run(t, c), Advance(w, t, c), t)
  {
  }

  lemma LateSpends(w: World, t: nat, c: Choice)
    requires t in w.threads && LatePump(w.threads[t]) && Budgeted(w.opts, w.threads[t]) && ChoiceFits(w.threads[t], c)
    requires !w.threads[t].Arming?
    ensures Spends(w, Run(t, c), Advance(w, t, c), t)
  {
  }

  /** Outside the loop no thread has attempts to count, and none comes back into it. */
  lemma OutsideSpends(w: World, a: Action, w2: World, t: nat)
    requires t in w2.threads ==> Attempts(w2.threads[t]).None? || w2.threads[t].TakeCapacity?
    requires t in w2.threads && t in w.threads && w2.threads[t].TakeCapacity? ==> !HoldsPump(w.threads[t])
    requires t in w2.threads ==> !w2.threads[t].ReleaseExpired?
    ensures Spends(w, a, w2, t)
  {
  }

  lemma ArmSpends(w: World, t: nat, c: Choice)
    requires t in w.threads && w.threads[t].Arming? && ChoiceFits(w.threads[t], c)
    ensures Spends(w, Run(t, c), Advance(w, t, c), t)
  {
    ArmShape(w, t, c);
    OutsideSpends(w, Run(t, c), Advance(w, t, c), t);
  }

  lemma HaltSpends(w: World, t: nat, c: Choice)
    requires t in w.threads && Discarding(w.threads[t])
    ensures Spends(w, Run(t, c), Advance(w, t, c), t)
  {
    hide Spends;
    OutsideSpends(w, Run(t, c), Advance(w, t, c), t);
  }

  lemma OtherSpends(w: World, t: nat, c: Choice)
    requires t in w.threads && !EarlyPump(w.threads[t]) && !LatePump(w.threads[t]) && !Discarding(w.threads[t])
    ensures Spends(w, Run(t, c), Advance(w, t, c), t)
  {
    hide Spends;
    OutsideSpends(w, Run(t, c), Advance(w, t, c), t);
  }

  lemma ThreadSpends(w: World, t: nat, c: Choice)
    requires t in w.threads && Budgeted(w.opts, w.threads[t]) && ChoiceFits(w.threads[t], c)
    ensures Spends(w, Run(t, c), Advance(w, t, c), t)
  {
    hide Spends, Budgeted, Advance;
    if EarlyPump(w.threads[t]) {
      EarlySpends(w, t, c);
    } else if w.threads[t].Arming? {
      ArmSpends(w, t, c);
    } else if LatePump(w.threads[t]) {
      LateSpends(w, t, c);
    } else if Discarding(w.threads[t]) {
      HaltSpends(w, t, c);
    } else {
      OtherSpends(w, t, c);
    }
  }

  lemma ArrivalAlone(w: World, a: Action)
    requires Enabled(w, a) && !a.Run? && !a.Tick?
    ensures Alone(w, Apply(w, a), a.tid)
  {
    hide Admit;
  }

  lemma ArrivalSpends(w: World, a: Action)
    requires Enabled(w, a) && !a.Run? && !a.Tick?
    ensures Spends(w, a, Apply(w, a), a.tid)
  {
    hide Admit, Spends;
    OutsideSpends(w, a, Apply(w, a), a.tid);
  }

  ghost predicate AllBudgeted(w: World) {
    forall t :: t in w.threads ==> Budgeted(w.opts, w.threads[t])
  }

  lemma StepBudgeted(w: World, a: Action)
    requires Enabled(w, a) && AllBudgeted(w)
    ensures AllBudgeted(Apply(w, a)) && Apply(w, a).opts == w.opts
    ensures !a.Tick? ==> Alone(w, Apply(w, a), a.tid) && Spends(w, a, Apply(w, a), a.tid)
  {
    if a.Run? {
      ThreadAlone(w, a.tid, a.choice);
      ThreadSpends(w, a.tid, a.choice);
    } else if !a.Tick? {
      ArrivalAlone(w, a);
      ArrivalSpends(w, a);
    }
    hide Budgeted, Attempts;
  }

  lemma RunBudgeted(ws: seq<World>, acts: seq<Action>, i: nat)
    requires IsRun(ws, acts) && i < |ws|
    ensures AllBudgeted(ws[i]) && ws[i].opts == ws[0].opts
  {
    hide AllBudgeted, Apply, Enabled;
    InitiallyBudgeted(ws, acts);
    for j := 0 to i
      invariant AllBudgeted(ws[j]) && ws[j].opts == ws[0].opts
    {
      StepBudgeted(ws[j], acts[j]);
    }
  }

  lemma InitiallyBudgeted(ws: seq<World>, acts: seq<Action>)
    requires IsRun(ws, acts)
    ensures AllBudgeted(ws[0])
  {
  }

  /** How many messages thread `t` hands to the sink between two positions. */
  ghost function Handed(ws: seq<World>, acts: seq<Action>, t: nat, i: nat, j: nat): nat
    requires i <= j <= |acts| && |acts| < |ws|
  {
    if i == j then 0 else Handed(ws, acts, t, i, j - 1) + if HandsOver(ws[j - 1], acts[j - 1], t) then 1 else 0
  }

  ghost predicate Drives(w: World, t: nat) { t in w.threads && HoldsPump(w.threads[t]) }

  ghost predicate Within(w: World, t: nat, n: nat) {
    && n <= w.opts.maxPumpMessages
    && (t in w.threads && Attempts(w.threads[t]).Some? ==> n <= Attempts(w.threads[t]).value)
  }

  lemma WithinStep(w: World, a: Action, t: nat, n: nat)
    requires Enabled(w, a) && AllBudgeted(w) && Drives(w, t) && Drives(Apply(w, a), t) && Within(w, t, n)
    ensures Within(Apply(w, a), t, n + if HandsOver(w, a, t) then 1 else 0)
  {
    StepBudgeted(w, a);
    hide Apply;
    assert Budgeted(w.opts, w.threads[t]);
  }

  /** While a thread keeps the pump it hands over at most the configured number of messages. */
  lemma DriveIsBounded(ws: seq<World>, acts: seq<Action>, t: nat, i: nat, j: nat)
    requires IsRun(ws, acts) && i <= j <= |acts| && forall k :: i <= k <= j ==> Drives(ws[k], t)
    ensures Handed(ws, acts, t, i, j) <= ws[j].opts.maxPumpMessages
  {
    hide Apply, Enabled, AllBudgeted, Drives;
    for k := i to j
      invariant Within(ws[k], t, Handed(ws, acts, t, i, k))
    {
      RunBudgeted(ws, acts, k);
      assert Drives(ws[k], t) && Drives(ws[k + 1], t);
      WithinStep(ws[k], acts[k], t, Handed(ws, acts, t, i, k));
    }
  }

  // ---- The code a queue ends with --------------------------------------------

  /** What closes a queue with `code`: the owner, the sink, a failed wait, the scheduler, or a throw. */
  predicate Cause(w: World, a: Action, code: ErrorCode) {
    || (a.CloseQueue? && code == Cancelled)
    || (a.FireWait? && a.code == code && code != Ok)
    || (a.Run? && a.choice == Throws && code == PlatformError)
    || (a.Run? && a.choice == SendResult(code) && code != Ok && code != WouldBlock)
    || (a.Run? && a.choice == Refuses(code) && a.tid in w.threads && !w.threads[a.tid].Sending?)
  }

  /** The code a thread is about to close the queue with. */
  function Carries(pc: Pc): Option<ErrorCode> {
    if pc.HaltEntry? then Some(pc.code)
    else if pc.ReleaseSent? && pc.code != Ok && pc.code != WouldBlock then Some(pc.code) else None
  }

  /** The step brings thread `t` a code only with a cause, and sets the result only from a code carried. */
  ghost predicate Blames(w: World, a: Action, w2: World, t: nat) {
    && (t in w2.threads && Carries(w2.threads[t]).Some? ==>
          (t in w.threads && Carries(w2.threads[t]) == Carries(w.threads[t])) || Cause(w, a, Carries(w2.threads[t]).value))
    && (w.q.closed ==> w2.q.closed && w2.q.result == w.q.result)
    && (!w.q.closed && w2.q.closed ==> t in w.threads && w.threads[t].HaltEntry? && Carries(w.threads[t]) == Some(w2.q.result))
  }

  lemma ResumeBlames(w: World, w1: World, a: Action, t: nat, k: Cont)
    requires w1.threads == w.threads && w1.q.closed == w.q.closed && (w.q.closed ==> w1.q.result == w.q.result)
    ensures Blames(w, a, Resume(w1, t, k), t)
  {
  }

  lemma EarlyBlames(w: World, t: nat, c: Choice)
    requires t in w.threads && EarlyPump(w.threads[t]) && ChoiceFits(w.threads[t], c)
    ensures Blames(w, Run(t, c), Advance(w, t, c), t)
  {
  }

  lemma LateBlames(w: World, t: nat, c: Choice)
    requires t in w.threads && LatePump(w.threads[t]) && ChoiceFits(w.threads[t], c) && !w.threads[t].Arming?
    ensures Blames(w, Run(t, c), Advance(w, t, c), t)
  {
  }

  lemma ArmBlames(w: World, t: nat, c: Choice)
    requires t in w.threads && w.threads[t].Arming? && ChoiceFits(w.threads[t], c)
    ensures Blames(w, Run(t, c), Advance(w, t, c), t)
  {
    ArmShape(w, t, c);
  }

  lemma HaltBlames(w: World, t: nat, c: Choice)
    requires t in w.threads && Discarding(w.threads[t]) && Outcome(w.q)
    ensures Blames(w, Run(t, c), Advance(w, t, c), t)
  {
    hide Blames, Advance;
    if w.threads[t].HaltEntry? { HaltEntryBlames(w, t, c); } else { HaltLoopBlames(w, t, c); }
  }

  lemma HaltEntryBlames(w: World, t: nat, c: Choice)
    requires t in w.threads && w.threads[t].HaltEntry? && Outcome(w.q)
    ensures Blames(w, Run(t, c), Advance(w, t, c), t)
  {
    var pc := w.threads[t];
    if w.q.terminal || w.q.halting {
      hide Blames, Resume;
      ResumeBlames(w, w, Run(t, c), t, pc.k);
    } else {
      var w2 := HaltStep(w, t, pc.code, pc.k);
      assert w2.threads[t].HaltCancel? && w2.q.closed && w2.q.result == if w.q.closed then w.q.result else pc.code;
    }
  }

  lemma HaltLoopBlames(w: World, t: nat, c: Choice)
    requires t in w.threads && Discarding(w.threads[t]) && !w.threads[t].HaltEntry?
    ensures Blames(w, Run(t, c), Advance(w, t, c), t)
  {
    hide FindIdle;
  }

  lemma OtherBlames(w: World, t: nat, c: Choice)
    requires t in w.threads && !EarlyPump(w.threads[t]) && !LatePump(w.threads[t]) && !Discarding(w.threads[t])
    requires ChoiceFits(w.threads[t], c)
    ensures Blames(w, Run(t, c), Advance(w, t, c), t)
  {
    match w.threads[t]
    case DriveEntry(k) => ResumeBlames(w, w.(q := w.q.(changed := true)), Run(t, c), t, k);
    case FinishCheck(k) => ResumeBlames(w, w.(q := Finish(w.q)), Run(t, c), t, k);
    case TimerCheck(x) => ResumeBlames(w, w, Run(t, c), t, TimerReturn(x));
    case _ =>
  }

  lemma ArrivalBlames(w: World, a: Action)
    requires Enabled(w, a) && !a.Run? && !a.Tick?
    ensures Blames(w, a, Apply(w, a), a.tid)
  {
  }

  lemma StepBlames(w: World, a: Action)
    requires Enabled(w, a) && !a.Tick? && Outcome(w.q)
    ensures Blames(w, a, Apply(w, a), a.tid)
  {
    hide Blames, Outcome;
    if !a.Run? {
      ArrivalBlames(w, a);
    } else if EarlyPump(w.threads[a.tid]) {
      EarlyBlames(w, a.tid, a.choice);
    } else if w.threads[a.tid].Arming? {
      ArmBlames(w, a.tid, a.choice);
    } else if LatePump(w.threads[a.tid]) {
      LateBlames(w, a.tid, a.choice);
    } else if Discarding(w.threads[a.tid]) {
      HaltBlames(w, a.tid, a.choice);
    } else {
      OtherBlames(w, a.tid, a.choice);
    }
  }

  ghost predicate Caused(ws: seq<World>, acts: seq<Action>, i: nat, code: ErrorCode)
    requires i <= |acts| < |ws|
  {
    exists k :: 0 <= k < i && Cause(ws[k], acts[k], code)
  }

  ghost predicate Explained(ws: seq<World>, acts: seq<Action>, i: nat)
    requires i <= |acts| < |ws|
  {
    && (forall t :: t in ws[i].threads && Carries(ws[i].threads[t]).Some? ==>
          Caused(ws, acts, i, Carries(ws[i].threads[t]).value))
    && (ws[i].q.closed ==> Caused(ws, acts, i, ws[i].q.result))
  }

  lemma CausedLater(ws: seq<World>, acts: seq<Action>, i: nat, code: ErrorCode)
    requires i < |acts| < |ws| && (Caused(ws, acts, i, code) || Cause(ws[i], acts[i], code))
    ensures Caused(ws, acts, i + 1, code)
  {
  }

  lemma ExplainedStep(ws: seq<World>, acts: seq<Action>, i: nat)
    requires IsRun(ws, acts) && i < |acts| && Explained(ws, acts, i)
    ensures Explained(ws, acts, i + 1)
    ensures ws[i].q.closed ==> ws[i + 1].q.closed && ws[i + 1].q.result == ws[i].q.result
  {
    var w, a, w2 := ws[i], acts[i], ws[i + 1];
    RunSafe(ws, acts, i);
    RunBudgeted(ws, acts, i);
    StepBudgeted(w, a);
    hide Safe, Spends, AllBudgeted;
    if a.Tick? {
      assert w2.threads == w.threads && w2.q == w.q;
    } else {
      StepBlames(w, a);
    }
    hide Apply, Cause;
    forall t | t in w2.threads && Carries(w2.threads[t]).Some?
      ensures Caused(ws, acts, i + 1, Carries(w2.threads[t]).value)
    {
      CausedLater(ws, acts, i, Carries(w2.threads[t]).value);
    }
    if w2.q.closed { CausedLater(ws, acts, i, w2.q.result); }
  }

  /** A closed queue's result is the code of something that happened, and the first one stays. */
  lemma ClosedForACause(ws: seq<World>, acts: seq<Action>, i: nat, j: nat)
    requires IsRun(ws, acts) && i <= j < |ws| && ws[i].q.closed
    ensures Caused(ws, acts, i, ws[i].q.result)
    ensures ws[j].q.closed && ws[j].q.result == ws[i].q.result
  {
    hide Apply, Enabled, Cause, Carries;
    for k := 0 to j
      invariant Explained(ws, acts, k)
      invariant k >= i ==> Explained(ws, acts, i) && ws[k].q.closed && ws[k].q.result == ws[i].q.result
    {
      ExplainedStep(ws, acts, k);
    }
  }
}
