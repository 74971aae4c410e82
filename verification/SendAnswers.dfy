/** Why a reservation is refused and why a wait ends: both have a cause that was there at some moment of the call. */
module SendAnswers {
  import opened Common
  import opened SendBudget
  import opened SendDispatch
  import opened SendAccounts

  /** The thread an action belongs to. */
  function Actor(a: Action): Option<nat> { if a.ACancel? || a.AForget? then None else Some(a.t) }

  predicate Evaluating(pc: Pc) { pc.Read? || pc.LoadClosed? || pc.LoadUsed? || pc.LoadRetained? }
  predicate OnQueues(pc: Pc) {
    pc.ReserveLoad? || pc.ReserveTry? || pc.ReserveStore? || pc.ReleaseLoad? || pc.ReleaseTry? || pc.Mark?
  }

  /** The step moves its thread only, and no wait ends by it. */
  ghost predicate Quiet(w: World, w2: World, t: nat) {
    && Moved(w, w2, t) && (t in w2.threads ==> !w2.threads[t].LoadRetained?)
    && forall k :: 0 <= k < |w.caps| && w.caps[k].ticket.Some? ==> w2.caps[k].ticket == w.caps[k].ticket
  }

  lemma ReserveQuiet(w: World, t: nat, spurious: bool)
    requires t in w.threads && Placed(w, w.threads[t])
    requires w.threads[t].ReserveLoad? || w.threads[t].ReserveTry? || w.threads[t].ReserveStore?
    ensures Quiet(w, Advance(w, t, spurious), t)
  {
  }

  lemma ReleaseQuiet(w: World, t: nat, spurious: bool)
    requires t in w.threads && Placed(w, w.threads[t])
    requires w.threads[t].ReleaseLoad? || w.threads[t].ReleaseTry? || w.threads[t].Mark?
    ensures Quiet(w, Advance(w, t, spurious), t)
  {
  }

  lemma PassQuiet(w: World, t: nat, spurious: bool)
    requires t in w.threads && !OnQueues(w.threads[t]) && !Evaluating(w.threads[t]) && Placed(w, w.threads[t])
    requires !w.threads[t].Next?
    ensures Quiet(w, Advance(w, t, spurious), t)
  {
  }

  lemma NextQuiet(w: World, t: nat, spurious: bool)
    requires t in w.threads && w.threads[t].Next?
    ensures Quiet(w, Advance(w, t, spurious), t)
  {
    hide IsNext;
  }

  /** What an evaluating thread's step does: one wait may end, and the shared counter may be read. */
  ghost predicate Evaluated(w: World, w2: World, t: nat)
    requires t in w.threads
  {
    var pc := w.threads[t];
    && Moved(w, w2, t)
    && (t in w2.threads && w2.threads[t].LoadRetained? ==>
          var pc2 := w2.threads[t]; At(w, t, pc2.k, pc2.ticket, pc2.n) && pc2.shared == w.used)
    && (forall k :: 0 <= k < |w.caps| && w.caps[k].ticket.Some? && w2.caps[k].ticket != w.caps[k].ticket ==>
          || (pc.LoadClosed? && pc.k == k && Some(pc.ticket) == w.caps[k].ticket && w.caps[k].closed)
          || (pc.LoadRetained? && pc.k == k && Some(pc.ticket) == w.caps[k].ticket
              && w.caps[k].retained + pc.n <= w.connectionLimit && pc.shared + pc.n <= w.limit))
  }

  lemma ResumeMoves(w: World, w1: World, t: nat, cont: Cont)
    requires w1.threads == w.threads && w1.limit == w.limit && w1.connectionLimit == w.connectionLimit
    requires |w1.caps| == |w.caps|
    ensures Moved(w, Resume(w1, t, cont), t) && Resume(w1, t, cont).caps == w1.caps
    ensures t in Resume(w1, t, cont).threads ==> !Resume(w1, t, cont).threads[t].LoadRetained?
  {
  }

  lemma CompleteIs(w: World, k: nat, ticket: nat)
    requires k < |w.caps|
    ensures var w1 := Complete(w, k, ticket);
      && w1.threads == w.threads && w1.limit == w.limit && w1.connectionLimit == w.connectionLimit
      && |w1.caps| == |w.caps|
      && forall j :: 0 <= j < |w.caps| && w1.caps[j].ticket != w.caps[j].ticket ==> j == k && w.caps[j].ticket == Some(ticket)
  {
  }

  lemma EvaluationIs(w: World, t: nat, spurious: bool)
    requires t in w.threads && Evaluating(w.threads[t]) && Placed(w, w.threads[t])
    ensures Evaluated(w, Advance(w, t, spurious), t)
  {
    hide Resume, Complete;
    var pc := w.threads[t];
    ResumeMoves(w, w, t, pc.cont);
    if pc.LoadClosed? || pc.LoadRetained? {
      CompleteIs(w, pc.k, pc.ticket);
      ResumeMoves(w, Complete(w, pc.k, pc.ticket), t, pc.cont);
    }
  }

  lemma ArrivalQuiet(w: World, a: Action)
    requires Enabled(w, a) && !a.AStep? && !a.ACancel? && !a.AForget?
    ensures Quiet(w, Apply(w, a), a.t)
  {
  }

  lemma StepIs(w: World, a: Action)
    requires Enabled(w, a) && !a.ACancel? && !a.AForget?
    ensures Quiet(w, Apply(w, a), a.t) || (a.AStep? && Evaluating(w.threads[a.t]) && Evaluated(w, Apply(w, a), a.t))
  {
    hide Quiet, Evaluated, Advance;
    if !a.AStep? {
      ArrivalQuiet(w, a);
    } else if Evaluating(w.threads[a.t]) {
      EvaluationIs(w, a.t, a.spurious);
    } else if w.threads[a.t].ReserveLoad? || w.threads[a.t].ReserveTry? || w.threads[a.t].ReserveStore? {
      ReserveQuiet(w, a.t, a.spurious);
    } else if OnQueues(w.threads[a.t]) {
      ReleaseQuiet(w, a.t, a.spurious);
    } else if w.threads[a.t].Next? {
      NextQuiet(w, a.t, a.spurious);
    } else {
      PassQuiet(w, a.t, a.spurious);
    }
  }

  lemma OthersStay(w: World, a: Action, t: nat)
    requires Enabled(w, a) && Actor(a) != Some(t)
    ensures t in w.threads <==> t in Apply(w, a).threads
    ensures t in w.threads ==> Apply(w, a).threads[t] == w.threads[t]
  {
    if !a.ACancel? && !a.AForget? {
      StepIs(w, a);
      hide Apply;
    }
  }

  // Reservations.

  /** The counter held `v` at a position after `i` and up to `j`. */
  ghost predicate HeldBetween(ws: seq<World>, i: nat, j: nat, v: int)
    requires j < |ws|
  {
    exists m :: i < m <= j && ws[m].used == v
  }

  /** Thread `t` is inside the reservation it began at `i`; what it compares with was in the counter since. */
  ghost predicate Trying(ws: seq<World>, i: nat, j: nat, t: nat, k: nat, n: nat)
    requires j < |ws|
  {
    && t in ws[j].threads
    && var pc := ws[j].threads[t];
       pc == ReserveLoad(k, n) || (pc.ReserveTry? && pc.k == k && pc.n == n && HeldBetween(ws, i, j, pc.current))
  }

  lemma HeldLater(ws: seq<World>, i: nat, j: nat, v: int)
    requires i <= j && j + 1 < |ws|
    ensures HeldBetween(ws, i, j, v) ==> HeldBetween(ws, i, j + 1, v)
    ensures i < j && ws[j].used == v ==> HeldBetween(ws, i, j + 1, v)
  {
  }

  lemma TryingStep(ws: seq<World>, acts: seq<Action>, i: nat, j: nat, t: nat, k: nat, n: nat)
    requires IsRun(ws, acts) && i < j < |acts| && Trying(ws, i, j, t, k, n)
    ensures var w, w2 := ws[j], ws[j + 1];
      || Trying(ws, i, j + 1, t, k, n)
      || (t in w2.threads && w2.threads[t] == Scope && w2.used == w.used && exists m :: i < m <= j && ws[m].used + n > w.limit)
      || (t in w2.threads && w2.threads[t] == ReserveStore(k, n) && w2.used == w.used + n <= w.limit)
  {
    assert StepAt(ws, acts, j);
    var a, pc := acts[j], ws[j].threads[t];
    if Actor(a) != Some(t) {
      OthersStay(ws[j], a, t);
      if pc.ReserveTry? { HeldLater(ws, i, j, pc.current); }
    } else {
      HeldLater(ws, i, j, ws[j].used);
    }
  }

  /**
    A reservation is all or nothing, and refused only for want of room: when it ends without the bytes, the shared
    counter had no room for them at some moment of the call.
   */
  lemma RefusedForWantOfRoom(ws: seq<World>, acts: seq<Action>, i: nat, j: nat, t: nat, k: nat, n: nat)
    requires IsRun(ws, acts) && i < j < |acts| && acts[i] == AReserve(t, k, n)
    requires forall m :: i < m <= j ==>
      t in ws[m].threads && (ws[m].threads[t].ReserveLoad? || ws[m].threads[t].ReserveTry?)
    requires t in ws[j + 1].threads && ws[j + 1].threads[t].Scope?
    ensures exists m :: i < m <= j && ws[m].used + n > ws[j].limit
  {
    hide IsRun, HeldBetween;
    Began(ws, acts, i, t, k, n);
    for m := i + 1 to j
      invariant Trying(ws, i, m, t, k, n)
    {
      TryingStep(ws, acts, i, m, t, k, n);
    }
    TryingStep(ws, acts, i, j, t, k, n);
  }

  lemma Began(ws: seq<World>, acts: seq<Action>, i: nat, t: nat, k: nat, n: nat)
    requires IsRun(ws, acts) && i < |acts| && acts[i] == AReserve(t, k, n)
    ensures |ws| == |acts| + 1 && Trying(ws, i, i + 1, t, k, n)
  {
    assert StepAt(ws, acts, i);
  }

  // Waits.

  /** The evaluating thread read the shared counter as `shared` for this very wait. */
  ghost predicate Saw(ws: seq<World>, i: nat, t: nat, k: nat, ticket: nat, n: nat, shared: int)
    requires i < |ws|
  {
    exists m :: 0 <= m < i && ws[m].used == shared && At(ws[m], t, k, ticket, n)
  }

  predicate At(w: World, t: nat, k: nat, ticket: nat, n: nat) {
    && t in w.threads && w.threads[t].LoadUsed? && w.threads[t].k == k && w.threads[t].ticket == ticket
    && w.threads[t].n == n
  }

  ghost predicate Looked(ws: seq<World>, i: nat)
    requires i < |ws|
  {
    forall t :: t in ws[i].threads && ws[i].threads[t].LoadRetained? ==>
      var pc := ws[i].threads[t]; Saw(ws, i, t, pc.k, pc.ticket, pc.n, pc.shared)
  }

  lemma SawLater(ws: seq<World>, i: nat, t: nat, k: nat, ticket: nat, n: nat, shared: int)
    requires i + 1 < |ws|
    requires (Saw(ws, i, t, k, ticket, n, shared) || (ws[i].used == shared && At(ws[i], t, k, ticket, n)))
    ensures Saw(ws, i + 1, t, k, ticket, n, shared)
  {
  }

  lemma LoadsRetained(w: World, a: Action, t: nat)
    requires Enabled(w, a) && Actor(a) == Some(t) && t in Apply(w, a).threads && Apply(w, a).threads[t].LoadRetained?
    ensures var pc := Apply(w, a).threads[t]; At(w, t, pc.k, pc.ticket, pc.n) && pc.shared == w.used
  {
    hide Apply;
    StepIs(w, a);
  }

  lemma LookedStep(ws: seq<World>, acts: seq<Action>, i: nat)
    requires IsRun(ws, acts) && i < |acts| && Looked(ws, i)
    ensures Looked(ws, i + 1)
  {
    assert StepAt(ws, acts, i);
    var w2, a := ws[i + 1], acts[i];
    forall t | t in w2.threads && w2.threads[t].LoadRetained?
      ensures var pc := w2.threads[t]; Saw(ws, i + 1, t, pc.k, pc.ticket, pc.n, pc.shared)
    {
      hide Apply, Enabled;
      var pc := w2.threads[t];
      if Actor(a) == Some(t) { LoadsRetained(ws[i], a, t); } else { OthersStay(ws[i], a, t); }
      SawLater(ws, i, t, pc.k, pc.ticket, pc.n, pc.shared);
    }
  }

  lemma RunLooked(ws: seq<World>, acts: seq<Action>, i: nat)
    requires IsRun(ws, acts) && i < |ws|
    ensures Looked(ws, i)
  {
    assert Looked(ws, 0);
    hide Looked;
    for j := 0 to i
      invariant Looked(ws, j)
    {
      LookedStep(ws, acts, j);
    }
  }

  /** The evaluation by thread `t` completes wait `ticket` of connection `k`. */
  ghost predicate CompletedBy(ws: seq<World>, i: nat, t: nat, k: nat, ticket: nat)
    requires i < |ws| && k < |ws[i].caps|
  {
    && t in ws[i].threads
    && var w, c, pc := ws[i], ws[i].caps[k], ws[i].threads[t];
       || (pc.LoadClosed? && pc.k == k && pc.ticket == ticket && c.closed)
       || (pc.LoadRetained? && pc.k == k && pc.ticket == ticket && c.retained + c.required <= w.connectionLimit
           && exists m :: 0 <= m < i && ws[m].used + c.required <= w.limit && At(ws[m], t, k, ticket, c.required))
  }

  /**
    A wait ends only for a cause: it is cancelled, its connection goes, or an evaluation completes it because the
    connection is closed or because both budgets had room, each at the moment the evaluation read it.
   */
  lemma WaitEndsForACause(ws: seq<World>, acts: seq<Action>, i: nat, k: nat, ticket: nat)
    requires IsRun(ws, acts) && i < |acts| && k < |ws[i].caps| && ws[i].caps[k].ticket == Some(ticket)
    ensures k < |ws[i + 1].caps|
    ensures ws[i + 1].caps[k].ticket != Some(ticket) ==>
      || acts[i] == ACancel(k) || acts[i] == AForget(k)
      || (acts[i].AStep? && CompletedBy(ws, i, acts[i].t, k, ticket))
  {
    assert StepAt(ws, acts, i);
    RunOk(ws, acts, i);
    RunLooked(ws, acts, i);
    assert AllInformed(ws[i]);
    hide Dispatching, Exact;
    EndsFor(ws[i], acts[i], k, ticket);
    if acts[i].AStep? && acts[i].t in ws[i].threads && ws[i].threads[acts[i].t].LoadRetained? {
      var pc := ws[i].threads[acts[i].t];
      assert Saw(ws, i, acts[i].t, pc.k, pc.ticket, pc.n, pc.shared) && Informed(ws[i], pc);
    }
  }

  lemma EndsFor(w: World, a: Action, k: nat, ticket: nat)
    requires Enabled(w, a) && k < |w.caps| && w.caps[k].ticket == Some(ticket) && AllInformed(w)
    ensures k < |Apply(w, a).caps|
    ensures Apply(w, a).caps[k].ticket != Some(ticket) ==>
      || a == ACancel(k) || a == AForget(k)
      || (a.AStep? && var pc := w.threads[a.t];
          || (pc.LoadClosed? && pc.k == k && pc.ticket == ticket && w.caps[k].closed)
          || (pc.LoadRetained? && pc.k == k && pc.ticket == ticket && w.caps[k].retained + pc.n <= w.connectionLimit
              && pc.shared + pc.n <= w.limit))
  {
    if !a.ACancel? && !a.AForget? {
      StepIs(w, a);
      hide Apply;
    }
  }
}
