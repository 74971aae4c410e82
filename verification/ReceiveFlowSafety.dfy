/** No connection stays paused without a cause, over every run without allocation failure. */
module ReceiveFlowSafety {
  import opened Common
  import opened ReceiveFlow

  // What a thread stands for.

  predicate Inside(pc: Pc, p: nat) {
    (pc.ReadGlobal? || pc.ReadOwn? || pc.Settle? || pc.Add? || pc.Set? || pc.Recheck?) && pc.p == p
  }

  predicate HasCont(pc: Pc) {
    pc.Lock? || pc.ReadGlobal? || pc.ReadOwn? || pc.Settle? || pc.Add? || pc.Set? || pc.Recheck?
  }

  /** The connections this thread has taken off the waiter list and not yet come to. */
  function Batch(pc: Pc): seq<nat> {
    if pc.Waken? then pc.batch else if HasCont(pc) && pc.cont.Rest? then pc.cont.batch else []
  }

  datatype Role = Updates(p: nat) | Holds(p: nat) | Works(p: nat) | Swaps

  /** Updates: will still enter UpdateFlow of p. Holds: has p in its batch. Works: is inside UpdateFlow of p. */
  predicate Plays(pc: Pc, r: Role) {
    match r
    case Updates(p) => (pc.Lock? && pc.p == p) || (pc.ChargeGlobal? && pc.p == p) || p in Batch(pc)
    case Holds(p) => p in Batch(pc)
    case Works(p) => Inside(pc, p)
    case Swaps => pc.Swap?
  }

  ghost predicate Some1(w: World, r: Role) { exists t :: t in w.threads && Plays(w.threads[t], r) }

  // The invariant.

  predicate NeedsCare(w: World, p: nat)
    requires p < |w.peers|
  {
    var x := w.peers[p];
    x.paused && !x.userPaused && !Full(x.own)
  }

  /** A pause without a cause of its own is going to be reconsidered, or waits for the global budget. */
  ghost predicate Cared(w: World, p: nat)
    requires p < |w.peers|
  {
    NeedsCare(w, p) ==>
      || Some1(w, Updates(p)) || Some1(w, Works(p))
      || (w.peers[p].waiting && p in w.waiters && (Full(w.global) || Some1(w, Swaps)))
  }

  /** A noted wait is on the list or in a batch. */
  ghost predicate Noted(w: World, p: nat)
    requires p < |w.peers|
  {
    w.peers[p].waiting ==> p in w.waiters || Some1(w, Holds(p))
  }

  ghost predicate Locked(w: World, p: nat)
    requires p < |w.peers|
  {
    w.peers[p].holder.Some? ==> w.peers[p].holder.value in w.threads && Inside(w.threads[w.peers[p].holder.value], p)
  }

  /** The readings an update has made are still borne out, or somebody will come after it. */
  ghost predicate Informed(w: World, t: nat, pc: Pc) {
    && (pc.ChargeGlobal? || HasCont(pc) ==> pc.p < |w.peers|)
    && (forall p :: p in Batch(pc) ==> p < |w.peers|)
    && (forall p: nat :: Inside(pc, p) && p < |w.peers| ==> w.peers[p].holder == Some(t))
    && (pc.Settle? && pc.g ==> pc.want)
    && (pc.Settle? && !pc.g && pc.want && pc.p < |w.peers| ==> w.peers[pc.p].userPaused || Full(w.peers[pc.p].own) || Some1(w, Updates(pc.p)))
    && (((pc.ReadOwn? || pc.Settle?) && pc.g && pc.p < |w.peers| && w.peers[pc.p].waiting) ==> Full(w.global) || Some1(w, Swaps) || Some1(w, Holds(pc.p)))
    && ((pc.Add? || pc.Set?) && pc.p < |w.peers| ==> !w.peers[pc.p].waiting)
    && (pc.Set? ==> pc.p in w.waiters || Some1(w, Holds(pc.p)))
    && (pc.Recheck? && pc.p < |w.peers| ==> w.peers[pc.p].waiting)
  }

  ghost predicate Safe(w: World) {
    && (forall p :: p in w.waiters ==> p < |w.peers|)
    && (forall p: nat :: p < |w.peers| ==> Cared(w, p) && Noted(w, p) && Locked(w, p))
    && (forall t :: t in w.threads ==> Informed(w, t, w.threads[t]))
  }

  // One thread moves.

  ghost predicate Moved(w: World, w2: World, t: nat) {
    && (forall u :: u != t ==> (u in w2.threads <==> u in w.threads) && (u in w.threads && u in w2.threads ==> w2.threads[u] == w.threads[u]))
    && |w2.peers| == |w.peers|
  }

  /** The mover still plays the role, if it did. */
  predicate Retains(w: World, w2: World, t: nat, r: Role) {
    t in w.threads && Plays(w.threads[t], r) ==> t in w2.threads && Plays(w2.threads[t], r)
  }

  lemma RoleKept(w: World, w2: World, t: nat, r: Role)
    requires Moved(w, w2, t) && Some1(w, r) && Retains(w, w2, t, r)
    ensures Some1(w2, r)
  {
    var u :| u in w.threads && Plays(w.threads[u], r);
    assert u in w2.threads && Plays(w2.threads[u], r);
  }

  lemma RolePlayed(w: World, t: nat, r: Role)
    requires t in w.threads && Plays(w.threads[t], r)
    ensures Some1(w, r)
  {
  }

  /** What a step must leave to the updates that are under way in other threads. */
  ghost predicate Fair(w: World, w2: World, t: nat, p: nat)
    requires p < |w.peers| == |w2.peers|
  {
    var x, x2 := w.peers[p], w2.peers[p];
    x.holder.Some? && x.holder.value != t ==>
      && x2.holder == x.holder && x2.waiting == x.waiting && x2.userPaused == x.userPaused
      && (Full(x.own) ==> Full(x2.own) || Some1(w2, Updates(p)))
      && (Some1(w, Updates(p)) ==> Some1(w2, Updates(p)))
      && (Some1(w, Holds(p)) ==> Some1(w2, Holds(p)))
      && (p in w.waiters ==> p in w2.waiters || Some1(w2, Holds(p)))
      && (x.waiting && (Full(w.global) || Some1(w, Swaps)) ==> Full(w2.global) || Some1(w2, Swaps) || Some1(w2, Holds(p)))
  }

  lemma OtherInformed(w: World, w2: World, t: nat, u: nat)
    requires Moved(w, w2, t) && u != t && u in w2.threads && Informed(w, u, w2.threads[u]) && forall p: nat :: p < |w.peers| ==>
      Fair(w, w2, t, p)
    ensures Informed(w2, u, w2.threads[u])
  {
    hide Some1, Full, Moved;
    assert |w2.peers| == |w.peers| by { SameCount(w, w2, t); }
    var pc := w2.threads[u];
    forall p: nat | Inside(pc, p) && p < |w2.peers| ensures w2.peers[p].holder == Some(u) { assert Fair(w, w2, t, p); }
    if HasCont(pc) && Inside(pc, pc.p) { assert Fair(w, w2, t, pc.p); }
  }

  lemma SameCount(w: World, w2: World, t: nat)
    requires Moved(w, w2, t)
    ensures |w2.peers| == |w.peers|
  {
  }

  /** What a step has to show of each connection. */
  ghost predicate Fine(w: World, w2: World, t: nat, p: nat)
    requires p < |w.peers| == |w2.peers|
  {
    Fair(w, w2, t, p) && Cared(w2, p) && Noted(w2, p) && Locked(w2, p)
  }

  /** What is known around connection `p` when `t` moves. */
  lemma Surroundings(w: World, w2: World, t: nat, p: nat)
    requires Safe(w) && Moved(w, w2, t) && p < |w.peers|
    ensures Cared(w, p) && Noted(w, p) && Locked(w, p) && (t in w.threads ==> Informed(w, t, w.threads[t]))
    ensures (p in w.waiters ==> p < |w.peers|)
    ensures forall r :: Some1(w, r) && Retains(w, w2, t, r) ==> Some1(w2, r)
    ensures t in w2.threads ==> forall r :: Plays(w2.threads[t], r) ==> Some1(w2, r)
    ensures Some1(w2, Holds(p)) ==> Some1(w2, Updates(p))
  {
    hide Cared, Noted, Locked, Informed, Moved, Retains, Safe;
    Facts(w, t, p);
    HoldersUpdate(w2, p);
    forall r | Some1(w, r) && Retains(w, w2, t, r) ensures Some1(w2, r) { RoleKept(w, w2, t, r); }
  }

  lemma GoodStep(w: World, w2: World, t: nat)
    requires Safe(w) && Moved(w, w2, t) && (t in w2.threads ==> Informed(w2, t, w2.threads[t]))
    requires forall p :: p in w2.waiters ==> p in w.waiters || p < |w2.peers|
    requires forall p: nat :: p < |w.peers| ==> Fine(w, w2, t, p)
    ensures Safe(w2)
  {
    hide Fair, Cared, Noted, Locked, Informed;
    forall p: nat | p < |w.peers|
      ensures Fair(w, w2, t, p) && Cared(w2, p) && Noted(w2, p) && Locked(w2, p)
    {
      assert Fine(w, w2, t, p);
    }
    forall u | u in w2.threads ensures Informed(w2, u, w2.threads[u]) { if u != t { OtherInformed(w, w2, t, u); } }
  }

  /** What is known of connection `p` and thread `t` in a safe world. */
  lemma Facts(w: World, t: nat, p: nat)
    requires Safe(w) && p < |w.peers|
    ensures Cared(w, p) && Noted(w, p) && Locked(w, p) && (t in w.threads ==> Informed(w, t, w.threads[t]))
    ensures (p in w.waiters ==> p < |w.peers|)
  {
    hide Cared, Noted, Locked, Informed;
  }

  /** Who holds a connection in its batch will update it. */
  lemma HoldersUpdate(w: World, p: nat)
    ensures Some1(w, Holds(p)) ==> Some1(w, Updates(p))
  {
    if Some1(w, Holds(p)) {
      var u :| u in w.threads && Plays(w.threads[u], Holds(p));
      RolePlayed(w, u, Updates(p));
    }
  }

  // Calls from outside.

  lemma ReceiveSafe(w: World, t: nat, p: nat, size: nat)
    requires Safe(w) && Enabled(w, AReceive(t, p, size))
    ensures Safe(Apply(w, AReceive(t, p, size)))
  {
    hide Safe, Some1;
    var w2 := Apply(w, AReceive(t, p, size));
    forall q: nat | q < |w.peers| ensures Fine(w, w2, t, q) { Surroundings(w, w2, t, q); }
    GoodStep(w, w2, t);
  }

  lemma Waiters(w: World)
    requires Safe(w)
    ensures forall p :: p in w.waiters ==> p < |w.peers|
  {
  }

  lemma ReleaseOwnSafe(w: World, t: nat, p: nat, size: nat)
    requires Safe(w) && Enabled(w, AReleaseOwn(t, p, size))
    ensures Safe(Apply(w, AReleaseOwn(t, p, size)))
  {
    hide Safe, Some1;
    var w2 := Apply(w, AReleaseOwn(t, p, size));
    forall q: nat | q < |w.peers| ensures Fine(w, w2, t, q) { Surroundings(w, w2, t, q); }
    GoodStep(w, w2, t);
  }

  lemma ReleaseGlobalSafe(w: World, t: nat, size: nat)
    requires Safe(w) && Enabled(w, AReleaseGlobal(t, size))
    ensures Safe(Apply(w, AReleaseGlobal(t, size)))
  {
    hide Safe, Some1;
    var w2 := Apply(w, AReleaseGlobal(t, size));
    forall q: nat | q < |w.peers| ensures Fine(w, w2, t, q) { Surroundings(w, w2, t, q); }
    GoodStep(w, w2, t);
  }

  lemma SetPausedSafe(w: World, t: nat, p: nat, value: bool)
    requires Safe(w) && Enabled(w, ASetPaused(t, p, value))
    ensures Safe(Apply(w, ASetPaused(t, p, value)))
  {
    hide Safe, Some1;
    var w2 := Apply(w, ASetPaused(t, p, value));
    forall q: nat | q < |w.peers| ensures Fine(w, w2, t, q) { Surroundings(w, w2, t, q); }
    GoodStep(w, w2, t);
  }

  // Steps of the threads.

  lemma ChargeGlobalSafe(w: World, t: nat)
    requires Safe(w) && t in w.threads && w.threads[t].ChargeGlobal? && CanStep(w, w.threads[t])
    ensures Safe(Advance(w, t))
  {
    hide Safe, Some1;
    var w2 := Advance(w, t);
    forall q: nat | q < |w.peers| ensures Fine(w, w2, t, q) { Surroundings(w, w2, t, q); }
    GoodStep(w, w2, t);
  }

  lemma LockSafe(w: World, t: nat)
    requires Safe(w) && t in w.threads && w.threads[t].Lock? && CanStep(w, w.threads[t])
    ensures Safe(Advance(w, t))
  {
    hide Safe, Some1;
    var w2 := Advance(w, t);
    Mover(w, w2, t);
    assert t in w2.threads ==> Batch(w2.threads[t]) == Batch(w.threads[t]);
    assert Moved(w, w2, t);
    assert t in w2.threads ==> Informed(w2, t, w2.threads[t]);
    forall q: nat | q < |w.peers| ensures Fine(w, w2, t, q) { Surroundings(w, w2, t, q); }
    GoodStep(w, w2, t);
  }

  lemma ReadGlobalSafe(w: World, t: nat)
    requires Safe(w) && t in w.threads && w.threads[t].ReadGlobal? && CanStep(w, w.threads[t])
    ensures Safe(Advance(w, t))
  {
    hide Safe, Some1;
    var w2 := Advance(w, t);
    Mover(w, w2, t);
    assert t in w2.threads ==> Batch(w2.threads[t]) == Batch(w.threads[t]);
    assert Moved(w, w2, t);
    assert t in w2.threads ==> Informed(w2, t, w2.threads[t]);
    forall q: nat | q < |w.peers| ensures Fine(w, w2, t, q) { Surroundings(w, w2, t, q); }
    GoodStep(w, w2, t);
  }

  lemma ReadOwnSafe(w: World, t: nat)
    requires Safe(w) && t in w.threads && w.threads[t].ReadOwn? && CanStep(w, w.threads[t])
    ensures Safe(Advance(w, t))
  {
    hide Safe, Some1;
    var w2 := Advance(w, t);
    Mover(w, w2, t);
    assert t in w2.threads ==> Batch(w2.threads[t]) == Batch(w.threads[t]);
    assert Moved(w, w2, t);
    assert t in w2.threads ==> Informed(w2, t, w2.threads[t]);
    forall q: nat | q < |w.peers| ensures Fine(w, w2, t, q) { Surroundings(w, w2, t, q); }
    GoodStep(w, w2, t);
  }

  lemma SettleSafe(w: World, t: nat)
    requires Safe(w) && t in w.threads && w.threads[t].Settle? && CanStep(w, w.threads[t])
    ensures Safe(Advance(w, t))
  {
    hide Safe, Some1;
    var w2 := Advance(w, t);
    Mover(w, w2, t);
    assert t in w2.threads ==> Batch(w2.threads[t]) == Batch(w.threads[t]);
    assert Moved(w, w2, t);
    assert t in w2.threads ==> Informed(w2, t, w2.threads[t]);
    forall q: nat | q < |w.peers| ensures Fine(w, w2, t, q) { Surroundings(w, w2, t, q); }
    GoodStep(w, w2, t);
  }

  lemma AddSafe(w: World, t: nat)
    requires Safe(w) && t in w.threads && w.threads[t].Add? && CanStep(w, w.threads[t])
    ensures Safe(Advance(w, t))
  {
    hide Safe, Some1;
    var w2 := Advance(w, t);
    Mover(w, w2, t);
    assert t in w2.threads ==> Batch(w2.threads[t]) == Batch(w.threads[t]);
    assert Moved(w, w2, t);
    assert t in w2.threads ==> Informed(w2, t, w2.threads[t]);
    forall q: nat | q < |w.peers| ensures Fine(w, w2, t, q) { Surroundings(w, w2, t, q); }
    GoodStep(w, w2, t);
  }

  lemma SetSafe(w: World, t: nat)
    requires Safe(w) && t in w.threads && w.threads[t].Set? && CanStep(w, w.threads[t])
    ensures Safe(Advance(w, t))
  {
    hide Safe, Some1;
    var w2 := Advance(w, t);
    Mover(w, w2, t);
    assert t in w2.threads ==> Batch(w2.threads[t]) == Batch(w.threads[t]);
    assert Moved(w, w2, t);
    assert t in w2.threads ==> Informed(w2, t, w2.threads[t]);
    forall q: nat | q < |w.peers| ensures Fine(w, w2, t, q) { Surroundings(w, w2, t, q); }
    GoodStep(w, w2, t);
  }

  lemma RecheckSafe(w: World, t: nat)
    requires Safe(w) && t in w.threads && w.threads[t].Recheck? && CanStep(w, w.threads[t])
    ensures Safe(Advance(w, t))
  {
    hide Safe, Some1;
    var w2 := Advance(w, t);
    Mover(w, w2, t);
    assert t in w2.threads ==> Batch(w2.threads[t]) == Batch(w.threads[t]);
    assert Moved(w, w2, t);
    assert t in w2.threads ==> Informed(w2, t, w2.threads[t]);
    forall q: nat | q < |w.peers| ensures Fine(w, w2, t, q) { Surroundings(w, w2, t, q); }
    GoodStep(w, w2, t);
  }

  lemma SwapSafe(w: World, t: nat)
    requires Safe(w) && t in w.threads && w.threads[t].Swap? && CanStep(w, w.threads[t])
    ensures Safe(Advance(w, t))
  {
    hide Safe, Some1;
    var w2 := Advance(w, t);
    Waiters(w);
    forall q: nat | q < |w.peers| ensures Fine(w, w2, t, q) { Surroundings(w, w2, t, q); }
    GoodStep(w, w2, t);
  }

  lemma WakenSafe(w: World, t: nat)
    requires Safe(w) && t in w.threads && w.threads[t].Waken? && CanStep(w, w.threads[t])
    ensures Safe(Advance(w, t))
  {
    hide Safe, Some1;
    var w2 := Advance(w, t);
    InformedAt(w, t);
    var batch := w.threads[t].batch;
    assert Batch(w.threads[t]) == batch;
    assert batch != [] ==> batch == [batch[0]] + batch[1..];
    if batch != [] {
      assert batch[0] in batch && batch[0] < |w.peers|;
      assert w2.threads[t] == Lock(batch[0], Rest(batch[1..])) && Batch(w2.threads[t]) == batch[1..];
      forall q | q in batch[1..] ensures q < |w2.peers| { assert q in batch; }
    }
    assert Moved(w, w2, t);
    assert t in w2.threads ==> Informed(w2, t, w2.threads[t]);
    forall q: nat | q < |w.peers| ensures Fine(w, w2, t, q) { Surroundings(w, w2, t, q); }
    GoodStep(w, w2, t);
  }

  /** What is known of the connection the moving thread works on. */
  lemma Mover(w: World, w2: World, t: nat)
    requires Safe(w) && t in w.threads && HasCont(w.threads[t]) && w.threads[t].p < |w.peers|
    ensures Informed(w, t, w.threads[t]) && Noted(w, w.threads[t].p) && Cared(w, w.threads[t].p)
    ensures t in w2.threads ==> forall r :: Plays(w2.threads[t], r) ==> Some1(w2, r)
    ensures forall r :: Moved(w, w2, t) && Some1(w, r) && Retains(w, w2, t, r) ==> Some1(w2, r)
  {
    hide Cared, Noted, Locked, Informed, Moved, Retains;
    forall r | Moved(w, w2, t) && Some1(w, r) && Retains(w, w2, t, r) ensures Some1(w2, r) { RoleKept(w, w2, t, r); }
  }

  lemma InformedAt(w: World, t: nat)
    requires Safe(w) && t in w.threads
    ensures Informed(w, t, w.threads[t])
  {
  }

  lemma AdvanceSafe(w: World, t: nat)
    requires Safe(w) && t in w.threads && CanStep(w, w.threads[t])
    ensures Safe(Advance(w, t))
  {
    hide Safe, Advance;
    match w.threads[t]
    case ChargeGlobal(_, _) => ChargeGlobalSafe(w, t);
    case Lock(_, _) => LockSafe(w, t);
    case ReadGlobal(_, _) => ReadGlobalSafe(w, t);
    case ReadOwn(_, _, _) => ReadOwnSafe(w, t);
    case Settle(_, _, _, _) => SettleSafe(w, t);
    case Add(_, _) => AddSafe(w, t);
    case Set(_, _) => SetSafe(w, t);
    case Recheck(_, _) => RecheckSafe(w, t);
    case Swap => SwapSafe(w, t);
    case Waken(_) => WakenSafe(w, t);
  }

  lemma StepSafe(w: World, a: Action)
    requires Safe(w) && Enabled(w, a)
    ensures Safe(Apply(w, a))
  {
    hide Safe, Advance;
    match a
    case AReceive(t, p, size) => ReceiveSafe(w, t, p, size);
    case AReleaseOwn(t, p, size) => ReleaseOwnSafe(w, t, p, size);
    case AReleaseGlobal(t, size) => ReleaseGlobalSafe(w, t, size);
    case ASetPaused(t, p, value) => SetPausedSafe(w, t, p, value);
    case AStep(t) => AdvanceSafe(w, t);
  }

  // Runs.

  ghost predicate Initial(w: World) {
    w.threads == map[] && w.waiters == [] && forall p :: 0 <= p < |w.peers| ==>
        !w.peers[p].paused && !w.peers[p].waiting && w.peers[p].holder.None?
  }

  ghost predicate StepAt(ws: seq<World>, acts: seq<Action>, i: nat)
    requires |ws| == |acts| + 1 && i < |acts|
  {
    Enabled(ws[i], acts[i]) && ws[i + 1] == Apply(ws[i], acts[i])
  }

  ghost predicate IsRun(ws: seq<World>, acts: seq<Action>) {
    |ws| == |acts| + 1 && Initial(ws[0]) && forall i :: 0 <= i < |acts| ==> StepAt(ws, acts, i)
  }

  lemma RunSafe(ws: seq<World>, acts: seq<Action>, i: nat)
    requires IsRun(ws, acts) && i < |ws|
    ensures Safe(ws[i])
  {
    hide Apply, Enabled;
    assert Safe(ws[0]);
    hide Safe, Initial;
    for j := 0 to i
      invariant Safe(ws[j])
    {
      assert StepAt(ws, acts, j);
      StepSafe(ws[j], acts[j]);
    }
  }

  /** At rest, a paused connection is paused by the caller, over its own budget, or waiting for a full global budget. */
  lemma NoPauseWithoutCause(ws: seq<World>, acts: seq<Action>, i: nat, p: nat)
    requires IsRun(ws, acts) && i < |ws| && ws[i].threads == map[] && p < |ws[i].peers| && ws[i].peers[p].paused
    ensures var w := ws[i]; var x := w.peers[p];
      || x.userPaused || x.own.count >= x.own.maxCount || x.own.bytes >= x.own.maxBytes
      || ((w.global.count >= w.global.maxCount || w.global.bytes >= w.global.maxBytes) && x.waiting && p in w.waiters)
  {
    RunSafe(ws, acts, i);
    Facts(ws[i], 0, p);
  }

  /** A connection noted as waiting is on the list or in a batch some thread has taken from it, at every moment. */
  lemma WaitingIsNeverForgotten(ws: seq<World>, acts: seq<Action>, i: nat, p: nat)
    requires IsRun(ws, acts) && i < |ws| && p < |ws[i].peers| && ws[i].peers[p].waiting
    ensures p in ws[i].waiters || exists t :: t in ws[i].threads && p in Batch(ws[i].threads[t])
  {
    hide Safe;
    RunSafe(ws, acts, i);
    Facts(ws[i], 0, p);
    if p !in ws[i].waiters {
      var t :| t in ws[i].threads && Plays(ws[i].threads[t], Holds(p));
      assert p in Batch(ws[i].threads[t]);
    }
  }
}
