/** The other half of flow control: a connection with a cause to pause is paused. */
module ReceiveFlowPressure {
  import opened Common
  import opened ReceiveFlow
  import opened ReceiveFlowSafety

  /** The caller wants the pause, or the connection's own budget is full. */
  predicate Cause(x: Peer) { x.userPaused || Full(x.own) }

  /** An update of `p` that will see its causes, or has seen one. */
  predicate Reads(pc: Pc, p: nat) { (pc.ReadGlobal? || pc.ReadOwn? || (pc.Settle? && pc.want)) && pc.p == p }

  predicate Comes(pc: Pc, p: nat) { Plays(pc, Updates(p)) || Reads(pc, p) }

  ghost predicate Coming(w: World, p: nat) { exists t :: t in w.threads && Comes(w.threads[t], p) }

  /** A cause that is not yet followed by a pause is going to be seen. */
  ghost predicate Attended(w: World, p: nat)
    requires p < |w.peers|
  {
    Cause(w.peers[p]) && !w.peers[p].paused ==> Coming(w, p)
  }

  /** An update about to resume has missed no cause that nobody else is coming for. */
  ghost predicate Excused(w: World, t: nat)
    requires t in w.threads
  {
    var pc := w.threads[t];
    pc.Settle? && !pc.want && pc.p < |w.peers| && Cause(w.peers[pc.p]) ==> Some1(w, Updates(pc.p))
  }

  ghost predicate Pressed(w: World) {
    (forall p: nat :: p < |w.peers| ==> Attended(w, p)) && (forall t :: t in w.threads ==> Excused(w, t))
  }

  lemma ComingStays(w: World, w2: World, t: nat, p: nat)
    requires Moved(w, w2, t) && Coming(w, p)
    requires t in w.threads && Comes(w.threads[t], p) ==> t in w2.threads && Comes(w2.threads[t], p)
    ensures Coming(w2, p)
  {
    var u :| u in w.threads && Comes(w.threads[u], p);
    assert u in w2.threads && Comes(w2.threads[u], p);
  }

  /** What a step of thread `t` must do for connection `p`. */
  ghost predicate Serves(w: World, w2: World, t: nat, p: nat)
    requires p < |w.peers| == |w2.peers|
  {
    var x, x2 := w.peers[p], w2.peers[p];
    && (t in w.threads && Plays(w.threads[t], Updates(p)) && Cause(x2) && (!x2.paused || x.holder.Some?) ==>
          t in w2.threads && Comes(w2.threads[t], p))
    && (t in w.threads && Reads(w.threads[t], p) && Cause(x2) && !x2.paused ==> t in w2.threads && Comes(w2.threads[t], p))
    && (Cause(x2) && !Cause(x) ==> t in w2.threads && Plays(w2.threads[t], Updates(p)))
    && (x.paused && !x2.paused && Cause(x2) ==> Coming(w2, p))
    && (x.holder.Some? && x.holder.value != t ==>
          x2.holder == x.holder && Retains(w, w2, t, Updates(p)))
  }

  lemma ServedStep(w: World, w2: World, t: nat)
    requires Safe(w) && Safe(w2) && Pressed(w) && Moved(w, w2, t) && |w2.peers| == |w.peers|
    requires forall p: nat :: p < |w.peers| ==> Serves(w, w2, t, p)
    requires t in w2.threads ==> Excused(w2, t)
    ensures Pressed(w2)
  {
    forall p: nat | p < |w2.peers| ensures Attended(w2, p) {
      assert Serves(w, w2, t, p) && Attended(w, p);
      if Cause(w2.peers[p]) && !w2.peers[p].paused {
        if !Cause(w.peers[p]) {
          assert Comes(w2.threads[t], p);
        } else if !w.peers[p].paused {
          ComingStays(w, w2, t, p);
        }
      }
    }
    forall u | u in w2.threads && u != t ensures Excused(w2, u) { OthersExcused(w, w2, t, u); }
  }

  lemma OthersExcused(w: World, w2: World, t: nat, u: nat)
    requires Safe(w) && Moved(w, w2, t) && |w2.peers| == |w.peers| && u in w2.threads && u != t && u in w.threads
    requires Excused(w, u)
    requires forall p: nat :: p < |w.peers| ==> Serves(w, w2, t, p)
    ensures Excused(w2, u)
  {
    var pc := w2.threads[u];
    assert pc == w.threads[u] && Informed(w, u, pc);
    if pc.Settle? && !pc.want && pc.p < |w2.peers| && Cause(w2.peers[pc.p]) {
      assert Inside(pc, pc.p) && w.peers[pc.p].holder == Some(u) && Serves(w, w2, t, pc.p);
      if Cause(w.peers[pc.p]) {
        RoleKept(w, w2, t, Updates(pc.p));
      } else {
        assert Plays(w2.threads[t], Updates(pc.p));
      }
    }
  }

  // The steps.

  lemma ArrivalServes(w: World, a: Action, p: nat)
    requires Enabled(w, a) && !a.AStep? && p < |w.peers|
    ensures |Apply(w, a).peers| == |w.peers| && Serves(w, Apply(w, a), a.t, p)
  {
  }

  /** Up to the reading of the own budget. */
  lemma EarlyServes(w: World, t: nat, p: nat)
    requires t in w.threads && CanStep(w, w.threads[t]) && p < |w.peers|
    requires w.threads[t].ChargeGlobal? || w.threads[t].Lock? || w.threads[t].ReadGlobal? || w.threads[t].ReadOwn?
    ensures |Advance(w, t).peers| == |w.peers| && Serves(w, Advance(w, t), t, p)
  {
  }

  lemma LateServes(w: World, t: nat, p: nat)
    requires t in w.threads && CanStep(w, w.threads[t]) && p < |w.peers|
    requires w.threads[t].Add? || w.threads[t].Set? || w.threads[t].Recheck? || w.threads[t].Swap? || w.threads[t].Waken?
    requires Informed(w, t, w.threads[t])
    ensures |Advance(w, t).peers| == |w.peers| && Serves(w, Advance(w, t), t, p)
  {
  }

  lemma SettleServes(w: World, t: nat, p: nat)
    requires t in w.threads && CanStep(w, w.threads[t]) && w.threads[t].Settle? && p < |w.peers| && Excused(w, t)
    requires Informed(w, t, w.threads[t]) && Moved(w, Advance(w, t), t)
    ensures |Advance(w, t).peers| == |w.peers| && Serves(w, Advance(w, t), t, p)
  {
    var w2, pc := Advance(w, t), w.threads[t];
    if p == pc.p && w.peers[p].paused && !w2.peers[p].paused && Cause(w2.peers[p]) {
      RoleKept(w, w2, t, Updates(p));
      UpdatersCome(w2, p);
    }
  }

  lemma UpdatersCome(w: World, p: nat)
    requires Some1(w, Updates(p))
    ensures Coming(w, p)
  {
    var u :| u in w.threads && Plays(w.threads[u], Updates(p));
    assert Comes(w.threads[u], p);
  }

  lemma AdvanceExcused(w: World, t: nat)
    requires t in w.threads && CanStep(w, w.threads[t]) && t in Advance(w, t).threads
    ensures Excused(Advance(w, t), t)
  {
  }

  lemma AdvanceMoves(w: World, t: nat)
    requires t in w.threads && CanStep(w, w.threads[t])
    ensures Moved(w, Advance(w, t), t)
  {
  }

  lemma StepPressed(w: World, a: Action)
    requires Safe(w) && Pressed(w) && Enabled(w, a)
    ensures Pressed(Apply(w, a))
  {
    var w2 := Apply(w, a);
    StepSafe(w, a);
    hide Safe, Cared, Noted, Locked, Informed, Advance, Serves, Moved;
    if a.AStep? {
      var t := a.t;
      InformedAt(w, t);
      AdvanceMoves(w, t);
      assert Excused(w, t);
      forall p: nat | p < |w.peers| ensures |w2.peers| == |w.peers| && Serves(w, w2, t, p) {
        match w.threads[t]
        case Settle(_, _, _, _) => SettleServes(w, t, p);
        case ChargeGlobal(_, _) => EarlyServes(w, t, p);
        case Lock(_, _) => EarlyServes(w, t, p);
        case ReadGlobal(_, _) => EarlyServes(w, t, p);
        case ReadOwn(_, _, _) => EarlyServes(w, t, p);
        case _ => LateServes(w, t, p);
      }
      SameCount(w, w2, t);
      if t in w2.threads { AdvanceExcused(w, t); }
      ServedStep(w, w2, t);
    } else {
      ArrivalMoves(w, a);
      SameCount(w, w2, a.t);
      forall p: nat | p < |w.peers| ensures Serves(w, w2, a.t, p) { ArrivalServes(w, a, p); }
      ServedStep(w, w2, a.t);
    }
  }

  lemma ArrivalMoves(w: World, a: Action)
    requires Enabled(w, a) && !a.AStep?
    ensures Moved(w, Apply(w, a), a.t) && (a.t in Apply(w, a).threads ==> Excused(Apply(w, a), a.t))
  {
  }

  /** At the start of a run nobody has a cause to pause. */
  ghost predicate Fresh(w: World) { forall p :: 0 <= p < |w.peers| ==> !Cause(w.peers[p]) }

  /** At rest, a connection the caller wants paused, or whose own budget is full, is paused. */
  lemma CausePauses(ws: seq<World>, acts: seq<Action>, i: nat, p: nat)
    requires IsRun(ws, acts) && Fresh(ws[0]) && i < |ws| && ws[i].threads == map[] && p < |ws[i].peers|
    requires var x := ws[i].peers[p]; x.userPaused || x.own.count >= x.own.maxCount || x.own.bytes >= x.own.maxBytes
    ensures ws[i].peers[p].paused
  {
    RunPressed(ws, acts, i);
    assert Attended(ws[i], p);
  }

  lemma RunPressed(ws: seq<World>, acts: seq<Action>, i: nat)
    requires IsRun(ws, acts) && Fresh(ws[0]) && i < |ws|
    ensures Pressed(ws[i])
  {
    hide Apply, Enabled, Safe;
    assert Pressed(ws[0]);
    hide Pressed, Initial, Fresh;
    for j := 0 to i
      invariant Pressed(ws[j])
    {
      RunSafe(ws, acts, j);
      assert StepAt(ws, acts, j);
      StepPressed(ws[j], acts[j]);
    }
  }

  // The shared budget.

  /** Thread `t` is updating connection `p` after a receive, and has read no shared budget that was not full. */
  ghost predicate Brakes(w: World, t: nat, p: nat) {
    && t in w.threads && p < |w.peers|
    && var pc := w.threads[t];
       || pc == Lock(p, Done) || pc == ReadGlobal(p, Done) || pc == ReadOwn(p, true, Done) || pc == Settle(p, true, true, Done)
       || (pc in {Add(p, Done), ReceiveFlow.Pc.Set(p, Done), Recheck(p, Done)} && w.peers[p].paused)
  }

  lemma OwnBrakes(w: World, t: nat, p: nat)
    requires Enabled(w, AStep(t)) && Brakes(w, t, p) && Full(w.global)
    ensures var w2 := Advance(w, t); Brakes(w2, t, p) || (t !in w2.threads && p < |w2.peers| && w2.peers[p].paused)
  {
    hide Full;
  }

  lemma OtherBrakes(w: World, a: Action, t: nat, p: nat)
    requires Enabled(w, a) && a.t != t && Brakes(w, t, p) && Informed(w, t, w.threads[t])
    requires a.AStep? && w.threads[a.t].Settle? && w.threads[a.t].p < |w.peers| ==>
      w.peers[w.threads[a.t].p].holder == Some(a.t)
    ensures Brakes(Apply(w, a), t, p)
  {
    hide Full, Charge, Release;
  }

  lemma BrakesOn(w: World, a: Action, t: nat, p: nat)
    requires Safe(w) && Enabled(w, a) && Brakes(w, t, p) && Full(w.global)
    ensures var w2 := Apply(w, a); Brakes(w2, t, p) || (t !in w2.threads && p < |w2.peers| && w2.peers[p].paused)
  {
    hide Safe, Full, Informed, Advance;
    InformedAt(w, t);
    if a.t != t {
      if a.AStep? { InformedAt2(w, a.t); }
      OtherBrakes(w, a, t, p);
    } else {
      OwnBrakes(w, t, p);
    }
  }

  lemma InformedAt2(w: World, u: nat)
    requires Safe(w) && u in w.threads
    ensures w.threads[u].Settle? && w.threads[u].p < |w.peers| ==> w.peers[w.threads[u].p].holder == Some(u)
  {
    InformedAt(w, u);
    assert w.threads[u].Settle? ==> Inside(w.threads[u], w.threads[u].p);
  }

  /** Nothing more may be charged. */
  predicate Exhausted(b: Budget) { b.count >= b.maxCount || b.bytes >= b.maxBytes }

  /**
    A receive that finds the shared budget full pauses its connection: if the budget stays full until the receiving thread
    has updated the connection, the connection is paused when that update ends.
   */
  lemma FullBudgetPauses(ws: seq<World>, acts: seq<Action>, i: nat, j: nat, t: nat, p: nat)
    requires IsRun(ws, acts) && i < j < |ws| && t in ws[i].threads && ws[i].threads[t].ChargeGlobal?
    requires ws[i].threads[t].p == p
    requires acts[i] == AStep(t) && forall k :: i < k < j ==> Exhausted(ws[k].global) && t in ws[k].threads
    requires t !in ws[j].threads
    ensures p < |ws[j].peers| && ws[j].peers[p].paused
  {
    hide Apply, Enabled, Safe, Brakes;
    assert StepAt(ws, acts, i);
    RunSafe(ws, acts, i);
    BrakesAfterCharge(ws[i], t, p);
    assert i + 1 < j by { assert t in ws[i + 1].threads by { BrakesThere(ws[i + 1], t, p); } }
    var k := i + 1;
    while k < j - 1
      invariant i < k < j && Brakes(ws[k], t, p)
    {
      StepBrakes(ws, acts, k, t, p);
      k := k + 1;
    }
    StepBrakes(ws, acts, k, t, p);
    if Brakes(ws[j], t, p) { BrakesThere(ws[j], t, p); }
  }

  lemma BrakesThere(w: World, t: nat, p: nat)
    requires Brakes(w, t, p)
    ensures t in w.threads
  {
  }

  lemma BrakesAfterCharge(w: World, t: nat, p: nat)
    requires Safe(w) && Enabled(w, AStep(t)) && w.threads[t].ChargeGlobal? && w.threads[t].p == p
    ensures Brakes(Apply(w, AStep(t)), t, p)
  {
  }

  lemma StepBrakes(ws: seq<World>, acts: seq<Action>, k: nat, t: nat, p: nat)
    requires IsRun(ws, acts) && k < |acts| && Brakes(ws[k], t, p) && Full(ws[k].global)
    ensures Brakes(ws[k + 1], t, p) || (t !in ws[k + 1].threads && p < |ws[k + 1].peers| && ws[k + 1].peers[p].paused)
  {
    hide Apply, Enabled, Safe, Full, Brakes;
    RunSafe(ws, acts, k);
    assert StepAt(ws, acts, k);
    BrakesOn(ws[k], acts[k], t, p);
  }

  // What the budgets count.

  /** Events and bytes charged and not returned. */
  datatype Load = Load(count: int, bytes: int)

  function More(l: Load, size: nat): Load { Load(l.count + 1, l.bytes + size) }
  function Less(l: Load, size: nat): Load { Load(l.count - 1, l.bytes - size) }

  function OwnLoad(l: Load, a: Action, p: nat): Load {
    if a.AReceive? && a.p == p then More(l, a.size) else if a.AReleaseOwn? && a.p == p then Less(l, a.size) else l
  }

  /** A receive reaches the shared budget in a step of its own. */
  function SharedLoad(l: Load, w: World, a: Action): Load {
    if a.AStep? && a.t in w.threads && w.threads[a.t].ChargeGlobal? then More(l, w.threads[a.t].size)
    else if a.AReleaseGlobal? then Less(l, a.size) else l
  }

  ghost function OwnLoads(ws: seq<World>, acts: seq<Action>, i: nat, p: nat): Load
    requires i <= |acts| < |ws| && p < |ws[0].peers|
  {
    if i == 0 then Load(ws[0].peers[p].own.count, ws[0].peers[p].own.bytes)
    else OwnLoad(OwnLoads(ws, acts, i - 1, p), acts[i - 1], p)
  }

  ghost function SharedLoads(ws: seq<World>, acts: seq<Action>, i: nat): Load
    requires i <= |acts| < |ws|
  {
    if i == 0 then Load(ws[0].global.count, ws[0].global.bytes)
    else SharedLoad(SharedLoads(ws, acts, i - 1), ws[i - 1], acts[i - 1])
  }

  lemma StepLoads(w: World, a: Action, p: nat, own: Load, shared: Load)
    requires Enabled(w, a) && p < |w.peers| && own == Load(w.peers[p].own.count, w.peers[p].own.bytes)
    requires shared == Load(w.global.count, w.global.bytes)
    ensures var w2 := Apply(w, a);
      && |w2.peers| == |w.peers| && OwnLoad(own, a, p) == Load(w2.peers[p].own.count, w2.peers[p].own.bytes)
      && SharedLoad(shared, w, a) == Load(w2.global.count, w2.global.bytes)
      && w2.peers[p].own.maxCount == w.peers[p].own.maxCount && w2.peers[p].own.maxBytes == w.peers[p].own.maxBytes
      && w2.global.maxCount == w.global.maxCount && w2.global.maxBytes == w.global.maxBytes
  {
  }

  /** Each budget holds what was charged to it and not returned, and its limits stay. */
  lemma BudgetsHoldWhatIsCharged(ws: seq<World>, acts: seq<Action>, i: nat, p: nat)
    requires IsRun(ws, acts) && i < |ws| && p < |ws[0].peers|
    ensures p < |ws[i].peers|
    ensures ws[i].peers[p].own == ws[0].peers[p].own.(count := OwnLoads(ws, acts, i, p).count, bytes := OwnLoads(ws, acts, i, p).bytes)
    ensures ws[i].global == ws[0].global.(count := SharedLoads(ws, acts, i).count, bytes := SharedLoads(ws, acts, i).bytes)
  {
    hide Apply, Enabled, OwnLoad, SharedLoad;
    for j := 0 to i
      invariant p < |ws[j].peers|
      invariant ws[j].peers[p].own == ws[0].peers[p].own.(count := OwnLoads(ws, acts, j, p).count, bytes := OwnLoads(ws, acts, j, p).bytes)
      invariant ws[j].global == ws[0].global.(count := SharedLoads(ws, acts, j).count, bytes := SharedLoads(ws, acts, j).bytes)
    {
      assert StepAt(ws, acts, j);
      StepLoads(ws[j], acts[j], p, OwnLoads(ws, acts, j, p), SharedLoads(ws, acts, j));
    }
  }
}
