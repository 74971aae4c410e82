/** Exact accounting by compare-exchange, and what both invariants mean over every run. */
module SendAccounts {
  import opened Common
  import opened SendBudget
  import opened SendDispatch

  function Held(caps: seq<Cap>): int { if caps == [] then 0 else Held(caps[..|caps| - 1]) + caps[|caps| - 1].held }
  function Retained(caps: seq<Cap>): int {
    if caps == [] then 0 else Retained(caps[..|caps| - 1]) + caps[|caps| - 1].retained
  }

  lemma {:induction false} HeldUpdate(caps: seq<Cap>, k: nat, c: Cap)
    requires k < |caps|
    ensures Held(caps[k := c]) == Held(caps) - caps[k].held + c.held
  {
    var caps2 := caps[k := c];
    if k == |caps| - 1 {
      assert caps2[..k] == caps[..k];
    } else {
      assert caps2[..|caps| - 1] == caps[..|caps| - 1][k := c];
      HeldUpdate(caps[..|caps| - 1], k, c);
    }
  }

  lemma {:induction false} HeldAtLeast(caps: seq<Cap>, k: nat)
    requires k < |caps| && forall j :: 0 <= j < |caps| ==> 0 <= caps[j].held
    ensures 0 <= Held(caps[..|caps| - 1]) && caps[k].held <= Held(caps)
  {
    if k < |caps| - 1 { HeldAtLeast(caps[..|caps| - 1], k); } else { HeldPositive(caps[..|caps| - 1]); }
  }

  lemma {:induction false} HeldPositive(caps: seq<Cap>)
    requires forall j :: 0 <= j < |caps| ==> 0 <= caps[j].held
    ensures 0 <= Held(caps)
  {
    if caps != [] { HeldPositive(caps[..|caps| - 1]); }
  }

  lemma {:induction false} HeldIsRetained(caps: seq<Cap>)
    requires forall j :: 0 <= j < |caps| ==> caps[j].held == caps[j].retained
    ensures Held(caps) == Retained(caps)
  {
    if caps != [] { HeldIsRetained(caps[..|caps| - 1]); }
  }

  ghost predicate CapOk(w: World, k: nat)
    requires k < |w.caps|
  {
    var c := w.caps[k];
    && 0 <= c.retained <= w.connectionLimit && 0 <= c.held
    && (c.holder.None? ==> c.held == c.retained)
    && (c.holder.Some? ==> c.holder.value in w.threads && Working(w, w.threads[c.holder.value], k, c))
  }

  /** The operation in progress on connection `k` accounts for the difference. */
  predicate Working(w: World, pc: Pc, k: nat, c: Cap) {
    && OnQueue(pc, k) && c.held == c.retained + Between(pc) && 0 <= Between(pc) && 0 <= Coming(pc)
    && c.retained + Coming(pc) <= w.connectionLimit
    && (pc.ReleaseTry? ==> pc.n <= pc.current)
  }

  ghost predicate Held1(w: World, t: nat)
    requires t in w.threads
  {
    forall k: nat :: OnQueue(w.threads[t], k) ==> k < |w.caps| && w.caps[k].holder == Some(t)
  }

  ghost predicate Exact(w: World) {
    && w.used == Held(w.caps) && 0 <= w.used <= w.limit
    && (forall k :: 0 <= k < |w.caps| ==> CapOk(w, k))
    && (forall t :: t in w.threads ==> Held1(w, t))
  }

  /** Steps of threads that are not working on a queue, before or after. */
  lemma OtherStep(w: World, w2: World, t: nat)
    requires Exact(w) && Moved(w, w2, t) && w2.used == w.used
    requires forall k: nat :: t in w.threads ==> !OnQueue(w.threads[t], k)
    requires forall k: nat :: t in w2.threads ==> !OnQueue(w2.threads[t], k)
    requires forall k :: 0 <= k < |w.caps| ==> SameMoney(w.caps[k], w2.caps[k])
    ensures Exact(w2)
  {
    SameHeld(w.caps, w2.caps);
    forall k | 0 <= k < |w2.caps|
      ensures CapOk(w2, k)
    {
      assert CapOk(w, k) && SameMoney(w.caps[k], w2.caps[k]); OtherMoved(w, w2, t, k);
    }
    forall u | u in w2.threads ensures Held1(w2, u) { OtherHeld(w, w2, t, u); }
  }

  predicate SameMoney(c: Cap, c2: Cap) { c2.retained == c.retained && c2.held == c.held && c2.holder == c.holder }

  lemma {:induction false} SameHeld(caps: seq<Cap>, caps2: seq<Cap>)
    requires |caps2| == |caps| && forall k :: 0 <= k < |caps| ==> SameMoney(caps[k], caps2[k])
    ensures Held(caps2) == Held(caps)
  {
    if caps != [] { SameHeld(caps[..|caps| - 1], caps2[..|caps| - 1]); }
  }

  lemma OtherMoved(w: World, w2: World, t: nat, k: nat)
    requires Moved(w, w2, t) && k < |w.caps| && CapOk(w, k) && SameMoney(w.caps[k], w2.caps[k])
    requires (t in w.threads ==> !OnQueue(w.threads[t], k))
    ensures CapOk(w2, k)
  {
  }

  lemma OtherHeld(w: World, w2: World, t: nat, u: nat)
    requires Moved(w, w2, t) && u in w2.threads && (u != t && u in w.threads ==> Held1(w, u))
    requires forall k: nat :: t in w2.threads ==> !OnQueue(w2.threads[t], k)
    requires forall k :: 0 <= k < |w.caps| ==> SameMoney(w.caps[k], w2.caps[k])
    ensures Held1(w2, u)
  {
    if u != t {
      forall k: nat | OnQueue(w2.threads[u], k)
        ensures k < |w2.caps| && w2.caps[k].holder == Some(u)
      {
        assert SameMoney(w.caps[k], w2.caps[k]);
      }
    }
  }

  /** A step of the thread that works, or begins or ends to work, on connection `k`. */
  lemma QueueStep(w: World, w2: World, t: nat, k: nat)
    requires Exact(w) && t in w.threads && k < |w.caps| == |w2.caps|
    requires w2 == w.(used := w2.used, caps := w.caps[k := w2.caps[k]], threads := w2.threads)
    requires t in w2.threads && w2.threads == w.threads[t := w2.threads[t]]
    requires w.caps[k].holder == Some(t) || w.caps[k].holder == None
    requires forall j: nat :: j != k ==> !OnQueue(w.threads[t], j) && !OnQueue(w2.threads[t], j)
    requires w2.used - w.used == w2.caps[k].held - w.caps[k].held && 0 <= w2.used <= w.limit
    requires CapOk(w2, k) && (OnQueue(w2.threads[t], k) ==> w2.caps[k].holder == Some(t))
    ensures Exact(w2)
  {
    HeldUpdate(w.caps, k, w2.caps[k]);
    forall j | 0 <= j < |w2.caps| ensures CapOk(w2, j) { if j != k { assert CapOk(w, j); } }
    forall u | u in w2.threads ensures Held1(w2, u) { assert u in w.threads && Held1(w, u); }
  }

  lemma EnoughHeld(w: World, k: nat)
    requires Exact(w) && k < |w.caps|
    ensures w.caps[k].held <= w.used
  {
    forall j | 0 <= j < |w.caps| ensures 0 <= w.caps[j].held { assert CapOk(w, j); }
    HeldAtLeast(w.caps, k);
  }

  // Every step keeps the accounts exact.

  predicate Works(pc: Pc) { pc.ReserveLoad? || pc.ReserveTry? || pc.ReserveStore? || pc.ReleaseLoad? || pc.ReleaseTry? }

  lemma WorksOn(pc: Pc, k: nat)
    ensures OnQueue(pc, k) ==> Works(pc)
    ensures Works(pc) ==> OnQueue(pc, pc.k) && (OnQueue(pc, k) ==> k == pc.k)
  {
  }

  /** The record of the connection a thread works on. */
  lemma WorkFacts(w: World, t: nat)
    requires Exact(w) && t in w.threads && Works(w.threads[t])
    ensures var pc := w.threads[t];
      pc.k < |w.caps| && w.caps[pc.k].holder == Some(t) && CapOk(w, pc.k) && Working(w, pc, pc.k, w.caps[pc.k])
  {
    var pc := w.threads[t];
    WorksOn(pc, pc.k);
    assert Held1(w, t);
  }

  lemma ReserveTryExact(w: World, t: nat, spurious: bool)
    requires Exact(w) && t in w.threads && w.threads[t].ReserveTry? && Placed(w, w.threads[t])
    ensures var pc := w.threads[t]; Exact(ReserveTryStep(w, t, pc.k, pc.n, pc.current, spurious))
  {
    hide Exact;
    var pc := w.threads[t];
    WorkFacts(w, t);
    Limits(w);
    var w2 := ReserveTryStep(w, t, pc.k, pc.n, pc.current, spurious);
    if pc.current > w.limit || pc.n > w.limit - pc.current {
      assert w2.threads[t] == Scope;
    } else if spurious || w.used != pc.current {
      assert w.caps[pc.k := w2.caps[pc.k]] == w.caps && w2.threads[t] == ReserveTry(pc.k, pc.n, w.used);
    } else {
      assert w2.threads[t] == ReserveStore(pc.k, pc.n);
    }
    QueueStep(w, w2, t, pc.k);
  }

  lemma Limits(w: World)
    requires Exact(w)
    ensures 0 <= w.used <= w.limit
  {
  }

  lemma ReserveStoreExact(w: World, t: nat)
    requires Exact(w) && t in w.threads && w.threads[t].ReserveStore? && Placed(w, w.threads[t])
    ensures var pc := w.threads[t]; Exact(ReserveStoreStep(w, t, pc.k, pc.n))
  {
    hide Exact;
    var pc := w.threads[t];
    WorkFacts(w, t);
    Limits(w);
    QueueStep(w, ReserveStoreStep(w, t, pc.k, pc.n), t, pc.k);
  }

  lemma LoadExact(w: World, t: nat)
    requires Exact(w) && t in w.threads && (w.threads[t].ReserveLoad? || w.threads[t].ReleaseLoad?)
    ensures var pc := w.threads[t];
      Exact(Goto(w, t, if pc.ReserveLoad? then ReserveTry(pc.k, pc.n, w.used) else ReleaseTry(pc.k, pc.n, w.used)))
  {
    hide Exact;
    var pc := w.threads[t];
    WorkFacts(w, t);
    Limits(w);
    EnoughHeld(w, pc.k);
    var w2 := Goto(w, t, if pc.ReserveLoad? then ReserveTry(pc.k, pc.n, w.used) else ReleaseTry(pc.k, pc.n, w.used));
    assert w.caps[pc.k := w2.caps[pc.k]] == w.caps;
    QueueStep(w, w2, t, pc.k);
  }

  lemma ReleaseTryExact(w: World, t: nat, spurious: bool)
    requires Exact(w) && t in w.threads && w.threads[t].ReleaseTry? && Placed(w, w.threads[t])
    ensures var pc := w.threads[t]; Exact(ReleaseTryStep(w, t, pc.k, pc.n, pc.current, spurious))
  {
    hide Exact;
    var pc := w.threads[t];
    WorkFacts(w, t);
    Limits(w);
    EnoughHeld(w, pc.k);
    var w2 := ReleaseTryStep(w, t, pc.k, pc.n, pc.current, spurious);
    if spurious || w.used != pc.current { assert w.caps[pc.k := w2.caps[pc.k]] == w.caps; }
    QueueStep(w, w2, t, pc.k);
  }

  lemma BeginExact(w: World, t: nat, k: nat, n: nat, release: bool)
    requires Exact(w) && AtScope(w, t) && k < |w.caps| && w.caps[k].holder.None?
    requires if release then 0 < n <= w.caps[k].retained else 0 < n && FitsLocal(w, w.caps[k], n)
    ensures Exact(if release then ReleaseBegin(w, t, k, n) else ReserveBegin(w, t, k, n))
  {
    hide Exact;
    assert CapOk(w, k) by { CapAt(w, k); }
    Limits(w);
    QueueStep(w, if release then ReleaseBegin(w, t, k, n) else ReserveBegin(w, t, k, n), t, k);
  }

  lemma CapAt(w: World, k: nat)
    requires Exact(w) && k < |w.caps|
    ensures CapOk(w, k)
  {
  }

  lemma IdleExact(w: World, w2: World, t: nat)
    requires Exact(w) && Idle(w, w2, t) && t in w.threads && !Works(w.threads[t])
    ensures Exact(w2)
  {
    hide Exact;
    OtherStep(w, w2, t);
  }

  lemma AdvanceExact(w: World, t: nat, spurious: bool)
    requires Exact(w) && t in w.threads && Placed(w, w.threads[t])
    ensures Exact(Advance(w, t, spurious))
  {
    hide Exact, Idle, ReserveTryStep, ReserveStoreStep, ReleaseTryStep, NextStep, ReadStep, LoadClosedStep, LoadRetainedStep, AcquireStep;
    var pc := w.threads[t];
    if pc.ReserveTry? {
      ReserveTryExact(w, t, spurious);
    } else if pc.ReserveStore? {
      ReserveStoreExact(w, t);
    } else if pc.ReleaseTry? {
      ReleaseTryExact(w, t, spurious);
    } else if pc.ReserveLoad? || pc.ReleaseLoad? {
      LoadExact(w, t);
    } else {
      IdleAdvance(w, t, spurious);
      IdleExact(w, Advance(w, t, spurious), t);
    }
  }

  /** A step off the queues touches no money. */
  ghost predicate Idle(w: World, w2: World, t: nat) {
    && Moved(w, w2, t) && w2.used == w.used && (t in w2.threads ==> !Works(w2.threads[t]))
    && forall k :: 0 <= k < |w.caps| ==> SameMoney(w.caps[k], w2.caps[k])
  }

  lemma GotoIdle(w: World, t: nat, pc: Pc, changed: bool, notifying: bool, owner: Option<nat>)
    requires !Works(pc)
    ensures Idle(w, Goto(w.(changed := changed, notifying := notifying, owner := owner), t, pc), t)
    ensures Idle(w, Leave(w, t), t)
  {
  }

  lemma ResumeIdle(w: World, t: nat, cont: Cont, k: nat, ticket: nat)
    requires k < |w.caps|
    ensures Idle(w, Resume(w, t, cont), t) && Idle(w, Resume(Complete(w, k, ticket), t, cont), t)
  {
  }

  lemma NextIdle(w: World, t: nat, last: nat, upper: int)
    ensures Idle(w, NextStep(w, t, last, upper), t)
  {
    hide Idle;
    if exists k: nat :: IsNext(w, last, upper, k) {
      var k: nat :| IsNext(w, last, upper, k) && NextStep(w, t, last, upper) == Goto(w, t, Read(k, Pass(w.caps[k].registration, upper)));
      GotoIdle(w, t, Read(k, Pass(w.caps[k].registration, upper)), w.changed, w.notifying, w.owner);
      SameWorld(w);
    } else {
      GotoIdle(w, t, Recheck, w.changed, w.notifying, w.owner);
      SameWorld(w);
    }
  }

  lemma SameWorld(w: World)
    ensures w.(changed := w.changed, notifying := w.notifying, owner := w.owner) == w
  {
  }

  lemma EvaluateIdle(w: World, t: nat, spurious: bool)
    requires t in w.threads && Placed(w, w.threads[t]) && Evaluates(w.threads[t])
    ensures Idle(w, Advance(w, t, spurious), t)
  {
    hide Idle, Resume, Complete, FitsLocal, FitsShared;
    SameWorld(w);
    var pc := w.threads[t];
    match pc
    case Read(k, cont) =>
      ResumeIdle(w, t, cont, k, 0);
      if w.caps[k].ticket.Some? { GotoIdle(w, t, LoadClosed(k, w.caps[k].ticket.value, w.caps[k].required, cont), w.changed, w.notifying, w.owner); }
    case LoadClosed(k, ticket, n, cont) => ResumeIdle(w, t, cont, k, ticket);
        GotoIdle(w, t, LoadUsed(k, ticket, n, cont), w.changed, w.notifying, w.owner);
    case LoadUsed(k, ticket, n, cont) => GotoIdle(w, t, LoadRetained(k, ticket, n, w.used, cont), w.changed, w.notifying, w.owner);
    case LoadRetained(k, ticket, n, shared, cont) => ResumeIdle(w, t, cont, k, ticket);
  }

  lemma IdleAdvance(w: World, t: nat, spurious: bool)
    requires t in w.threads && Placed(w, w.threads[t]) && !Works(w.threads[t])
    ensures Idle(w, Advance(w, t, spurious), t)
  {
    hide Idle, NextStep, ReadStep, LoadClosedStep, LoadRetainedStep;
    SameWorld(w);
    if Evaluates(w.threads[t]) {
      EvaluateIdle(w, t, spurious);
    } else {
      match w.threads[t]
      case Scope => SelfIdle(w, t);
      case Mark => GotoIdle(w, t, Scope, true, w.notifying, w.owner);
      case Acquire => GotoIdle(w, t, Clear, w.changed, true, Some(t));
      case Clear => GotoIdle(w, t, Bound, false, w.notifying, w.owner);
      case Bound => GotoIdle(w, t, Next(0, w.nextId - 1), w.changed, w.notifying, w.owner);
      case Next(last, upper) => NextIdle(w, t, last, upper);
      case Recheck => GotoIdle(w, t, if w.changed then Clear else Hand, w.changed, w.notifying, w.owner);
      case Hand => GotoIdle(w, t, Reload, w.changed, false, None);
      case Reload => GotoIdle(w, t, Reacquire, w.changed, w.notifying, w.owner);
      case Reacquire => GotoIdle(w, t, Clear, w.changed, true, Some(t));
    }
  }

  lemma SelfIdle(w: World, t: nat)
    requires t in w.threads && !Works(w.threads[t])
    ensures Idle(w, w, t)
  {
  }

  lemma WaitExact(w: World, t: nat, k: nat, n: nat)
    requires Exact(w) && t !in w.threads && k < |w.caps|
    ensures Exact(WaitBegin(w, t, k, n))
  {
    OtherStep(w, WaitBegin(w, t, k, n), t);
  }

  lemma StepExact(w: World, a: Action)
    requires Exact(w) && Enabled(w, a)
    ensures Exact(Apply(w, a))
  {
    hide Exact, Advance, WaitBegin;
    match a
    case AEnter(t) => OtherStep(w, Goto(w, t, Scope), t);
    case AReserve(t, k, n) => BeginExact(w, t, k, n, false);
    case ARelease(t, k, n) => BeginExact(w, t, k, n, true);
    case AClose(t, k) => OtherStep(w, CloseBegin(w, t, k), t);
    case AWait(t, k, n) => WaitExact(w, t, k, n);
    case ACancel(k) => TicketExact(w, k, w.caps[k].(ticket := None));
    case AForget(k) => TicketExact(w, k, Forgotten(w.caps[k]));
    case AExit(t) => OtherStep(w, if w.changed then Goto(w, t, Acquire) else Leave(w, t), t);
    case AStep(t, spurious) => AdvanceExact(w, t, spurious);
  }

  /** A wait goes away; no money moves. */
  lemma TicketExact(w: World, k: nat, c: Cap)
    requires Exact(w) && k < |w.caps| && SameMoney(w.caps[k], c)
    ensures Exact(SetCap(w, k, c))
  {
    var w2 := SetCap(w, k, c);
    SameHeld(w.caps, w2.caps);
    forall j | 0 <= j < |w2.caps| ensures CapOk(w2, j) { assert CapOk(w, j); }
    forall u | u in w2.threads ensures Held1(w2, u) { assert Held1(w, u); }
  }

  // Runs.

  ghost predicate Initial(w: World) {
    && w.used == 0 && !w.changed && !w.notifying && w.nextId == 1 && w.nextTicket == 0 && w.threads == map[]
    && w.owner == None
    && forall k :: 0 <= k < |w.caps| ==> w.caps[k] == Cap(0, false, None, 0, 0, None, 0)
  }

  ghost predicate StepAt(ws: seq<World>, acts: seq<Action>, i: nat)
    requires |ws| == |acts| + 1 && i < |acts|
  {
    Enabled(ws[i], acts[i]) && ws[i + 1] == Apply(ws[i], acts[i])
  }

  ghost predicate IsRun(ws: seq<World>, acts: seq<Action>) {
    |ws| == |acts| + 1 && Initial(ws[0]) && forall i :: 0 <= i < |acts| ==> StepAt(ws, acts, i)
  }

  lemma InitialOk(w: World)
    requires Initial(w)
    ensures Dispatching(w) && Exact(w)
  {
    forall k | 0 <= k < |w.caps| ensures w.caps[k].held == w.caps[k].retained == 0 { }
    ZeroHeld(w.caps);
  }

  lemma {:induction false} ZeroHeld(caps: seq<Cap>)
    requires forall k :: 0 <= k < |caps| ==> caps[k].held == 0
    ensures Held(caps) == 0
  {
    if caps != [] { ZeroHeld(caps[..|caps| - 1]); }
  }

  lemma RunOk(ws: seq<World>, acts: seq<Action>, i: nat)
    requires IsRun(ws, acts) && i < |ws|
    ensures Dispatching(ws[i]) && Exact(ws[i])
  {
    hide Dispatching, Exact, Initial, Apply, Enabled;
    InitialOk(ws[0]);
    for j := 0 to i
      invariant Dispatching(ws[j]) && Exact(ws[j])
    {
      assert StepAt(ws, acts, j);
      StepDispatching(ws[j], acts[j]);
      StepExact(ws[j], acts[j]);
    }
  }

  /**
    No notification is lost: when no thread is left, the changed flag is clear, the dispatcher flag is free, and every
    pending wait belongs to an open connection whose requirement exceeds one of the two budgets.
   */
  lemma QuiescentMeansNotified(ws: seq<World>, acts: seq<Action>, i: nat, k: nat)
    requires IsRun(ws, acts) && i < |ws| && ws[i].threads == map[] && k < |ws[i].caps|
    ensures !ws[i].changed && !ws[i].notifying
    ensures var w := ws[i]; var c := w.caps[k];
      c.ticket.Some? ==> !c.closed && (c.retained + c.required > w.connectionLimit || w.used + c.required > w.limit)
  {
    hide Exact, Registered, AllInformed;
    RunOk(ws, acts, i);
    assert Kept(ws[i], k, true) && Kept(ws[i], k, false);
  }

  /** A set flag is always going to be looked at, and at most one thread dispatches. */
  lemma ChangeIsAlwaysWatched(ws: seq<World>, acts: seq<Action>, i: nat, t: nat, u: nat)
    requires IsRun(ws, acts) && i < |ws|
    ensures ws[i].changed ==> exists v :: v in ws[i].threads && WillCheck(ws[i].threads[v])
    ensures t in ws[i].threads && u in ws[i].threads && Dispatches(ws[i].threads[t]) && Dispatches(ws[i].threads[u]) ==>
      t == u
  {
    hide Exact, Registered, AllInformed, NothingLost;
    RunOk(ws, acts, i);
  }

  /** The limits hold at every moment; with no operation in progress the counter is the sum of all retained bytes. */
  lemma BudgetIsExact(ws: seq<World>, acts: seq<Action>, i: nat, k: nat)
    requires IsRun(ws, acts) && i < |ws|
    ensures 0 <= ws[i].used <= ws[i].limit
    ensures (k < |ws[i].caps| ==> 0 <= ws[i].caps[k].retained <= ws[i].connectionLimit)
    ensures (forall j :: 0 <= j < |ws[i].caps| ==> ws[i].caps[j].holder.None?) ==> ws[i].used == Retained(ws[i].caps)
  {
    hide Dispatching;
    RunOk(ws, acts, i);
    var w := ws[i];
    if k < |w.caps| { assert CapOk(w, k); }
    if forall j :: 0 <= j < |w.caps| ==> w.caps[j].holder.None? {
      forall j | 0 <= j < |w.caps| ensures w.caps[j].held == w.caps[j].retained { assert CapOk(w, j); }
      HeldIsRetained(w.caps);
    }
  }

  /** A release never finds less in the counter than it gives back, whatever value its loop has loaded. */
  lemma ReleaseNeverUnderflows(ws: seq<World>, acts: seq<Action>, i: nat, t: nat)
    requires IsRun(ws, acts) && i < |ws| && t in ws[i].threads && ws[i].threads[t].ReleaseTry?
    ensures ws[i].threads[t].n <= ws[i].threads[t].current && ws[i].threads[t].n <= ws[i].used
  {
    hide Dispatching, Exact;
    RunOk(ws, acts, i);
    WorkFacts(ws[i], t);
    EnoughHeld(ws[i], ws[i].threads[t].k);
  }

  /** Every thread can take its next step: the connection it works on exists. */
  lemma NoThreadIsStuck(ws: seq<World>, acts: seq<Action>, i: nat, t: nat, spurious: bool)
    requires IsRun(ws, acts) && i < |ws| && t in ws[i].threads
    ensures if ws[i].threads[t].Scope? then Enabled(ws[i], AExit(t)) else Enabled(ws[i], AStep(t, spurious))
  {
    hide Dispatching, Exact;
    RunOk(ws, acts, i);
    InformedAt(ws[i], t);
    if Works(ws[i].threads[t]) { WorkFacts(ws[i], t); }
  }
}
