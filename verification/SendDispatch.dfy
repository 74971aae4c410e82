/** The dispatcher loses no notification, and the shared counter is the sum of what the connections hold. */
module SendDispatch {
  import opened Common
  import opened SendBudget

  // Which threads stand for what.

  predicate OnQueue(pc: Pc, k: nat) {
    match pc
    case ReserveLoad(j, _) => j == k
    case ReserveTry(j, _, _) => j == k
    case ReserveStore(j, _) => j == k
    case ReleaseLoad(j, _) => j == k
    case ReleaseTry(j, _, _) => j == k
    case _ => false
  }

  /** Bytes reserved but not, or no longer, in the local counter. */
  function Between(pc: Pc): int {
    match pc
    case ReserveStore(_, n) => n
    case ReleaseLoad(_, n) => n
    case ReleaseTry(_, n, _) => n
    case _ => 0
  }

  /** Bytes about to enter the local counter. */
  function Coming(pc: Pc): int {
    match pc
    case ReserveLoad(_, n) => n
    case ReserveTry(_, n, _) => n
    case ReserveStore(_, n) => n
    case _ => 0
  }

  predicate Evaluates(pc: Pc) { pc.Read? || pc.LoadClosed? || pc.LoadUsed? || pc.LoadRetained? }

  predicate Dispatches(pc: Pc) {
    pc.Clear? || pc.Bound? || pc.Next? || pc.Recheck? || pc.Hand? || (Evaluates(pc) && pc.cont.Pass?)
  }

  /** The thread will look at the changed flag before it is gone. */
  predicate WillCheck(pc: Pc) { !(Evaluates(pc) && pc.cont.Return?) }

  /** The thread is going to set the changed flag. */
  predicate Marks(pc: Pc) { pc.ReleaseLoad? || pc.ReleaseTry? || pc.Mark? }

  /** The dispatcher's pass will still come to this registration. */
  predicate Visits(pc: Pc, registration: nat) {
    || pc.Clear? || pc.Bound?
    || (pc.Next? && pc.last < registration <= pc.upper)
    || (Evaluates(pc) && pc.cont.Pass? && pc.cont.last < registration <= pc.cont.upper)
  }

  /** The evaluation under way would complete the wait: because of a close, or because it fits. */
  predicate Sees(limit: nat, pc: Pc, k: nat, c: Cap, fit: bool) {
    || (pc.Read? && pc.k == k)
    || (pc.LoadClosed? && pc.k == k && c.ticket == Some(pc.ticket))
    || (fit && pc.LoadUsed? && pc.k == k && c.ticket == Some(pc.ticket))
    || (fit && pc.LoadRetained? && pc.k == k && c.ticket == Some(pc.ticket) && pc.shared <= limit && pc.n <= limit - pc.shared)
  }

  predicate Covers(limit: nat, pc: Pc, k: nat, c: Cap, fit: bool) {
    Marks(pc) || Visits(pc, c.registration) || Sees(limit, pc, k, c, fit)
  }

  /** The wait of connection `k` ought to be completed. */
  predicate Owed(w: World, k: nat, fit: bool)
    requires k < |w.caps|
  {
    w.caps[k].ticket.Some? && if fit then FitsLocal(w, w.caps[k], w.caps[k].required) && FitsShared(w, w.used, w.caps[k].required) else w.caps[k].closed
  }

  ghost predicate Covered(w: World, k: nat, fit: bool)
    requires k < |w.caps|
  {
    w.changed || exists t :: t in w.threads && Covers(w.limit, w.threads[t], k, w.caps[k], fit)
  }

  ghost predicate Kept(w: World, k: nat, fit: bool)
    requires k < |w.caps|
  {
    Owed(w, k, fit) ==> Covered(w, k, fit)
  }

  ghost predicate NothingLost(w: World) { forall k: nat, fit :: k < |w.caps| ==> Kept(w, k, fit) }

  ghost predicate Watched(w: World) { w.changed ==> exists t :: t in w.threads && WillCheck(w.threads[t]) }

  ghost predicate Flag(w: World) {
    && w.notifying == w.owner.Some?
    && (w.owner.Some? ==> w.owner.value in w.threads && Dispatches(w.threads[w.owner.value]))
    && (forall t :: t in w.threads && Dispatches(w.threads[t]) ==> w.owner == Some(t))
  }

  ghost predicate Registered(w: World) {
    && 0 < w.nextId
    && (forall k :: 0 <= k < |w.caps| ==> w.caps[k].registration < w.nextId && (w.caps[k].ticket.Some? ==> 0 < w.caps[k].registration && w.caps[k].ticket.value < w.nextTicket))
    && (forall j, k :: 0 <= j < k < |w.caps| && w.caps[j].registration == w.caps[k].registration ==> w.caps[j].registration == 0)
  }

  /** An evaluation works on an existing connection, and knows what the wait it read asks for. */
  ghost predicate Informed(w: World, pc: Pc) {
    && (Evaluates(pc) ==> pc.k < |w.caps|)
    && ((pc.LoadClosed? || pc.LoadUsed? || pc.LoadRetained?) && pc.k < |w.caps| ==>
          pc.ticket < w.nextTicket && (w.caps[pc.k].ticket == Some(pc.ticket) ==> pc.n == w.caps[pc.k].required))
    && (pc.Next? ==> pc.upper < w.nextId) && (Evaluates(pc) && pc.cont.Pass? ==> pc.cont.upper < w.nextId)
  }

  ghost predicate AllInformed(w: World) { forall t :: t in w.threads ==> Informed(w, w.threads[t]) }

  ghost predicate Dispatching(w: World) { Flag(w) && Registered(w) && AllInformed(w) && Watched(w) && NothingLost(w) }

  // How one thread's step carries the obligation over.

  /** Thread `t` is at `pc` in `w2`, or gone, and no other thread moved. */
  ghost predicate Moved(w: World, w2: World, t: nat) {
    && (forall u :: u != t ==> (u in w2.threads <==> u in w.threads) && (u in w.threads && u in w2.threads ==> w2.threads[u] == w.threads[u]))
    && w2.limit == w.limit && w2.connectionLimit == w.connectionLimit && |w2.caps| == |w.caps|
  }

  predicate CoversAt(w: World, t: nat, k: nat, fit: bool)
    requires k < |w.caps|
  {
    t in w.threads && Covers(w.limit, w.threads[t], k, w.caps[k], fit)
  }

  /** What must be said of the moving thread alone. */
  ghost predicate Carries(w: World, w2: World, t: nat, k: nat, fit: bool)
    requires k < |w.caps| && |w2.caps| == |w.caps|
  {
    Owed(w2, k, fit) ==>
      || w2.changed || CoversAt(w2, t, k, fit)
      || (Owed(w, k, fit) && !w.changed && !CoversAt(w, t, k, fit) && w2.caps[k].ticket == w.caps[k].ticket && w2.caps[k].registration == w.caps[k].registration)
  }

  lemma Carried(w: World, w2: World, t: nat, k: nat, fit: bool)
    requires k < |w.caps| && Moved(w, w2, t) && Kept(w, k, fit) && Carries(w, w2, t, k, fit)
    ensures Kept(w2, k, fit)
  {
    if Owed(w2, k, fit) && !w2.changed && !CoversAt(w2, t, k, fit) {
      var u :| u in w.threads && Covers(w.limit, w.threads[u], k, w.caps[k], fit);
      assert u in w2.threads && Covers(w2.limit, w2.threads[u], k, w2.caps[k], fit);
    }
  }

  lemma AllCarried(w: World, w2: World, t: nat)
    requires Moved(w, w2, t) && NothingLost(w) && forall k: nat, fit :: k < |w.caps| ==> Carries(w, w2, t, k, fit)
    ensures NothingLost(w2)
  {
    forall k: nat, fit | k < |w2.caps| ensures Kept(w2, k, fit) {
      assert Kept(w, k, fit) && Carries(w, w2, t, k, fit);
      Carried(w, w2, t, k, fit);
    }
  }

  /** The waits and registrations are the same, except that waits may have been completed. */
  ghost predicate SameWaits(w: World, w2: World) {
    && w2.nextId == w.nextId && w2.nextTicket == w.nextTicket && |w2.caps| == |w.caps|
    && forall k :: 0 <= k < |w.caps| ==> SameWait(w.caps[k], w2.caps[k])
  }

  predicate SameWait(c: Cap, c2: Cap) {
    c2.registration == c.registration && c2.required == c.required && (c2.ticket == c.ticket || c2.ticket.None?)
  }

  lemma RegisteredSame(w: World, w2: World)
    requires Registered(w) && SameWaits(w, w2)
    ensures Registered(w2)
  {
    forall k | 0 <= k < |w2.caps| ensures w2.caps[k].registration < w2.nextId && (w2.caps[k].ticket.Some? ==> 0 < w2.caps[k].registration && w2.caps[k].ticket.value < w2.nextTicket) {
      assert SameWait(w.caps[k], w2.caps[k]);
    }
    forall j, k | 0 <= j < k < |w2.caps| && w2.caps[j].registration == w2.caps[k].registration ensures w2.caps[j].registration == 0 {
      assert SameWait(w.caps[j], w2.caps[j]) && SameWait(w.caps[k], w2.caps[k]);
    }
  }

  lemma InformedSame(w: World, w2: World, pc: Pc)
    requires Informed(w, pc) && SameWaits(w, w2)
    ensures Informed(w2, pc)
  {
    if Evaluates(pc) { assert SameWait(w.caps[pc.k], w2.caps[pc.k]); }
  }

  lemma AllInformedMoved(w: World, w2: World, t: nat)
    requires AllInformed(w) && Moved(w, w2, t) && SameWaits(w, w2) && (t in w2.threads ==> Informed(w2, w2.threads[t]))
    ensures AllInformed(w2)
  {
    hide Informed, SameWaits;
    forall u | u in w2.threads ensures Informed(w2, w2.threads[u]) { if u != t { InformedSame(w, w2, w.threads[u]); } }
  }

  lemma FlagMoved(w: World, w2: World, t: nat)
    requires Flag(w) && Moved(w, w2, t) && w2.owner == w.owner && w2.notifying == w.notifying
    requires (t in w.threads && Dispatches(w.threads[t])) == (t in w2.threads && Dispatches(w2.threads[t]))
    ensures Flag(w2)
  {
  }

  lemma WatchedMoved(w: World, w2: World, t: nat)
    requires Watched(w) && Moved(w, w2, t)
    requires w2.changed ==> w.changed || (t in w2.threads && WillCheck(w2.threads[t]))
    requires w2.changed && t in w.threads && WillCheck(w.threads[t]) ==> t in w2.threads && WillCheck(w2.threads[t])
    ensures Watched(w2)
  {
    if w2.changed && !(t in w2.threads && WillCheck(w2.threads[t])) {
      var u :| u in w.threads && WillCheck(w.threads[u]);
      assert u in w2.threads && WillCheck(w2.threads[u]);
    }
  }

  /** A step that keeps waits, registrations and the dispatcher flag. */
  ghost predicate Plain(w: World, w2: World, t: nat) {
    && Moved(w, w2, t) && SameWaits(w, w2) && w2.owner == w.owner && w2.notifying == w.notifying
    && (t in w.threads && Dispatches(w.threads[t])) == (t in w2.threads && Dispatches(w2.threads[t]))
    && (w2.changed ==> w.changed || (t in w2.threads && WillCheck(w2.threads[t])))
    && (w2.changed && t in w.threads && WillCheck(w.threads[t]) ==> t in w2.threads && WillCheck(w2.threads[t]))
    && (t in w2.threads ==> Informed(w2, w2.threads[t]))
  }

  lemma PlainStep(w: World, w2: World, t: nat)
    requires Dispatching(w) && Plain(w, w2, t) && forall k: nat, fit :: k < |w.caps| ==> Carries(w, w2, t, k, fit)
    ensures Dispatching(w2)
  {
    hide Flag, Registered, AllInformed, Watched, NothingLost, SameWaits, Informed, Carries, Moved;
    FlagMoved(w, w2, t);
    RegisteredSame(w, w2);
    AllInformedMoved(w, w2, t);
    WatchedMoved(w, w2, t);
    AllCarried(w, w2, t);
  }

  // The queue operations. None of these threads covers anything, and reserving only makes less fit.

  predicate Blind(pc: Pc) {
    pc.Scope? || pc.ReserveLoad? || pc.ReserveTry? || pc.ReserveStore? || pc.Acquire? || pc.Recheck? || pc.Hand? || pc.Reload? || pc.Reacquire?
  }

  lemma BlindCovers(limit: nat, pc: Pc, k: nat, c: Cap, fit: bool)
    requires Blind(pc)
    ensures !Covers(limit, pc, k, c, fit)
  {
  }

  /** The waits are untouched and no new one is owed. */
  ghost predicate NoMoreOwed(w: World, w2: World) {
    && |w2.caps| == |w.caps|
    && forall k: nat, fit :: k < |w.caps| && Owed(w2, k, fit) ==>
         Owed(w, k, fit) && w2.caps[k].ticket == w.caps[k].ticket && w2.caps[k].registration == w.caps[k].registration
  }

  lemma BlindCarries(w: World, w2: World, t: nat)
    requires t in w.threads && Blind(w.threads[t]) && w2.changed == w.changed && NoMoreOwed(w, w2)
    ensures forall k: nat, fit :: k < |w.caps| ==> Carries(w, w2, t, k, fit)
  {
    hide Owed, Covers;
    forall k: nat, fit | k < |w.caps|
      ensures Carries(w, w2, t, k, fit)
    {
      BlindCovers(w.limit, w.threads[t], k, w.caps[k], fit);
    }
  }

  /** A thread that will set the flag, or visit everything, covers all waits. */
  lemma CoverAllCarries(w: World, w2: World, t: nat)
    requires |w2.caps| == |w.caps|
    requires (w2.changed || (t in w2.threads && (Marks(w2.threads[t]) || w2.threads[t].Clear? || w2.threads[t].Bound?)))
    ensures forall k: nat, fit :: k < |w.caps| ==> Carries(w, w2, t, k, fit)
  {
    hide Owed;
  }

  lemma SameCaps(w: World, w2: World)
    requires w2.caps == w.caps && w2.used == w.used && w2.limit == w.limit && w2.connectionLimit == w.connectionLimit
    ensures NoMoreOwed(w, w2) && (w2.nextId == w.nextId && w2.nextTicket == w.nextTicket ==> SameWaits(w, w2))
  {
  }

  /** A thread moves between two points that cover nothing, and nothing else changes. */
  lemma QuietMove(w: World, t: nat, pc: Pc)
    requires Dispatching(w) && t in w.threads && Blind(w.threads[t]) && Dispatches(w.threads[t]) == Dispatches(pc)
    requires WillCheck(pc) && Informed(w, pc)
    ensures Dispatching(Goto(w, t, pc))
  {
    hide Dispatching, Covers, Owed, Informed;
    var w2 := Goto(w, t, pc);
    SameCaps(w, w2);
    InformedSame(w, w2, pc);
    BlindCarries(w, w2, t);
    assert Plain(w, w2, t);
    PlainStep(w, w2, t);
  }

  /** One capacity record changes, but not its wait. */
  ghost predicate OneCap(w: World, w2: World, k: nat, t: nat, pc: Pc) {
    && k < |w.caps| && |w2.caps| == |w.caps| && SameWait(w.caps[k], w2.caps[k])
    && (forall j :: 0 <= j < |w.caps| && j != k ==> w2.caps[j] == w.caps[j])
    && w2 == w.(used := w2.used, caps := w2.caps, threads := w.threads[t := pc])
  }

  lemma OneCapPlain(w: World, w2: World, k: nat, t: nat, pc: Pc)
    requires OneCap(w, w2, k, t, pc) && t in w.threads && Dispatches(w.threads[t]) == Dispatches(pc) && WillCheck(pc)
    requires !Evaluates(pc) && !pc.Next?
    ensures Plain(w, w2, t)
  {
    assert SameWaits(w, w2);
    assert Informed(w2, pc);
  }

  /** Reserving and storing only make the waits fit less. */
  lemma ReserveOwes(w: World, w2: World, k: nat, t: nat, pc: Pc)
    requires OneCap(w, w2, k, t, pc) && w.used <= w2.used && w.caps[k].retained <= w2.caps[k].retained
    requires w2.caps[k].closed == w.caps[k].closed && w2.caps[k].ticket == w.caps[k].ticket
    ensures NoMoreOwed(w, w2)
  {
  }

  lemma ReserveKeeps(w: World, w2: World, k: nat, t: nat, pc: Pc)
    requires Dispatching(w) && OneCap(w, w2, k, t, pc) && w.used <= w2.used && w.caps[k].retained <= w2.caps[k].retained
    requires w2.caps[k].closed == w.caps[k].closed && w2.caps[k].ticket == w.caps[k].ticket
    requires t in w.threads && Blind(w.threads[t]) && Blind(pc) && !Dispatches(w.threads[t]) && !Dispatches(pc)
    ensures Dispatching(w2)
  {
    hide Dispatching, OneCap, NoMoreOwed, Plain, Carries;
    OneCapPlain(w, w2, k, t, pc);
    ReserveOwes(w, w2, k, t, pc);
    assert w2.changed == w.changed by { OneCapChanged(w, w2, k, t, pc); }
    BlindCarries(w, w2, t);
    PlainStep(w, w2, t);
  }

  lemma OneCapChanged(w: World, w2: World, k: nat, t: nat, pc: Pc)
    requires OneCap(w, w2, k, t, pc)
    ensures w2.changed == w.changed && t in w2.threads && w2.threads[t] == pc && |w2.caps| == |w.caps|
  {
  }

  /** Releasing and closing end at a thread that is going to set the flag. */
  lemma MarkingKeeps(w: World, w2: World, k: nat, t: nat, pc: Pc)
    requires Dispatching(w) && OneCap(w, w2, k, t, pc) && t in w.threads && !Dispatches(w.threads[t]) && Marks(pc)
    ensures Dispatching(w2)
  {
    hide Dispatching, OneCap, Plain, Carries;
    OneCapPlain(w, w2, k, t, pc);
    OneCapChanged(w, w2, k, t, pc);
    CoverAllCarries(w, w2, t);
    PlainStep(w, w2, t);
  }

  lemma MarkKeeps(w: World, t: nat)
    requires Dispatching(w) && t in w.threads && w.threads[t].Mark?
    ensures Dispatching(Goto(w.(changed := true), t, Scope))
  {
    hide Dispatching, Carries;
    var w2 := Goto(w.(changed := true), t, Scope);
    SameCaps(w, w2);
    CoverAllCarries(w, w2, t);
    assert Plain(w, w2, t);
    PlainStep(w, w2, t);
  }

  // The dispatcher.

  /** A thread that covers nothing leaves: the flag is clear, or somebody else will look at it. */
  lemma BlindLeaves(w: World, t: nat)
    requires Dispatching(w) && t in w.threads && Blind(w.threads[t]) && !Dispatches(w.threads[t])
    requires (!w.changed || w.notifying)
    ensures Dispatching(Leave(w, t))
  {
    hide NothingLost, Registered, AllInformed, Carries, Covers, Owed, Informed;
    var w2 := Leave(w, t);
    SameCaps(w, w2);
    FlagMoved(w, w2, t);
    RegisteredSame(w, w2);
    AllInformedMoved(w, w2, t);
    BlindCarries(w, w2, t);
    AllCarried(w, w2, t);
    if w.changed { assert w.owner.value in w2.threads && WillCheck(w2.threads[w.owner.value]); }
  }

  lemma AcquireKeeps(w: World, t: nat)
    requires Dispatching(w) && t in w.threads && (w.threads[t].Acquire? || w.threads[t].Reacquire?)
    ensures Dispatching(AcquireStep(w, t))
  {
    hide NothingLost, Registered, AllInformed, Carries, Covers, Owed;
    if w.notifying {
      BlindLeaves(w, t);
    } else {
      var w2 := Goto(w.(notifying := true, owner := Some(t)), t, Clear);
      SameCaps(w, w2);
      assert Flag(w2);
      RegisteredSame(w, w2);
      AllInformedMoved(w, w2, t);
      CoverAllCarries(w, w2, t);
      AllCarried(w, w2, t);
      WatchedMoved(w, w2, t);
    }
  }

  lemma HandKeeps(w: World, t: nat)
    requires Dispatching(w) && t in w.threads && w.threads[t].Hand?
    ensures Dispatching(Goto(w.(notifying := false, owner := None), t, Reload))
  {
    hide NothingLost, Registered, AllInformed, Carries, Covers, Owed;
    var w2 := Goto(w.(notifying := false, owner := None), t, Reload);
    SameCaps(w, w2);
    assert Flag(w2);
    RegisteredSame(w, w2);
    AllInformedMoved(w, w2, t);
    BlindCarries(w, w2, t);
    AllCarried(w, w2, t);
    WatchedMoved(w, w2, t);
  }

  lemma ClearKeeps(w: World, t: nat)
    requires Dispatching(w) && t in w.threads && w.threads[t].Clear?
    ensures Dispatching(Goto(w.(changed := false), t, Bound))
  {
    hide Dispatching, Carries;
    var w2 := Goto(w.(changed := false), t, Bound);
    SameCaps(w, w2);
    CoverAllCarries(w, w2, t);
    assert Plain(w, w2, t);
    PlainStep(w, w2, t);
  }

  /** The pass covers every wait registered by now. */
  lemma BoundKeeps(w: World, t: nat)
    requires Dispatching(w) && t in w.threads && w.threads[t].Bound?
    ensures Dispatching(Goto(w, t, Next(0, w.nextId - 1)))
  {
    hide Watched, NothingLost, AllInformed, Flag;
    var w2 := Goto(w, t, Next(0, w.nextId - 1));
    SameCaps(w, w2);
    assert Plain(w, w2, t);
    forall k: nat, fit | k < |w.caps| ensures Carries(w, w2, t, k, fit) {
      if w.caps[k].ticket.Some? { assert Visits(w2.threads[t], w.caps[k].registration); }
    }
    PlainStep(w, w2, t);
  }

  lemma NextFound(w: World, t: nat, k: nat, last: nat, upper: int)
    requires Dispatching(w) && t in w.threads && w.threads[t] == Next(last, upper) && IsNext(w, last, upper, k)
    ensures Dispatching(Goto(w, t, Read(k, Pass(w.caps[k].registration, upper))))
  {
    hide Watched, NothingLost, AllInformed, Flag, Owed;
    var w2 := Goto(w, t, Read(k, Pass(w.caps[k].registration, upper)));
    InformedAt(w, t);
    SameCaps(w, w2);
    assert Plain(w, w2, t);
    forall j: nat, fit | j < |w.caps| ensures Carries(w, w2, t, j, fit) { StillVisited(w, k, last, upper, j); }
    PlainStep(w, w2, t);
  }

  lemma StillVisited(w: World, k: nat, last: nat, upper: int, j: nat)
    requires Registered(w) && IsNext(w, last, upper, k) && j < |w.caps|
    ensures last < w.caps[j].registration <= upper ==> j == k || w.caps[k].registration < w.caps[j].registration
  {
  }

  lemma NextDone(w: World, t: nat, last: nat, upper: int)
    requires Dispatching(w) && t in w.threads && w.threads[t] == Next(last, upper) && NoneLeft(w, last, upper)
    ensures Dispatching(Goto(w, t, Recheck))
  {
    hide Watched, NothingLost, AllInformed, Flag, Owed;
    var w2 := Goto(w, t, Recheck);
    SameCaps(w, w2);
    assert Plain(w, w2, t);
    forall j: nat, fit | j < |w.caps| ensures Carries(w, w2, t, j, fit) { assert NoMoreOwed(w, w2); }
    PlainStep(w, w2, t);
  }

  /** If any waiter is left there is one with the lowest registration. */
  lemma LowestExists(w: World, last: nat, upper: int, n: nat) returns (k: nat)
    requires n <= |w.caps| && exists j :: 0 <= j < n && last < w.caps[j].registration <= upper
    ensures k < n && last < w.caps[k].registration <= upper
    ensures forall j :: 0 <= j < n && last < w.caps[j].registration <= upper ==>
      w.caps[k].registration <= w.caps[j].registration
  {
    var i :| 0 <= i < n && last < w.caps[i].registration <= upper;
    k := i;
    for m := 0 to n
      invariant k < n && last < w.caps[k].registration <= upper
      invariant forall j :: 0 <= j < m && last < w.caps[j].registration <= upper ==>
        w.caps[k].registration <= w.caps[j].registration
    {
      if last < w.caps[m].registration <= upper && w.caps[m].registration < w.caps[k].registration { k := m; }
    }
  }

  lemma NextOrNone(w: World, last: nat, upper: int)
    ensures (exists k: nat :: IsNext(w, last, upper, k)) || NoneLeft(w, last, upper)
  {
    if !NoneLeft(w, last, upper) {
      var k := LowestExists(w, last, upper, |w.caps|);
      assert IsNext(w, last, upper, k);
    }
  }

  lemma NextKeeps(w: World, t: nat, last: nat, upper: int)
    requires Dispatching(w) && t in w.threads && w.threads[t] == Next(last, upper)
    ensures Dispatching(NextStep(w, t, last, upper))
  {
    hide Dispatching;
    if exists k: nat :: IsNext(w, last, upper, k) {
      var k: nat :| IsNext(w, last, upper, k) && NextStep(w, t, last, upper) == Goto(w, t, Read(k, Pass(w.caps[k].registration, upper)));
      NextFound(w, t, k, last, upper);
    } else {
      NextOrNone(w, last, upper);
      NextDone(w, t, last, upper);
    }
  }

  // Evaluations.

  /** The thread goes back to its caller or on with its pass; the world may have changed by a completion. */
  lemma ResumePlain(w: World, w1: World, t: nat, cont: Cont)
    requires Flag(w) && AllInformed(w) && t in w.threads && Evaluates(w.threads[t]) && w.threads[t].cont == cont
    requires SameWaits(w, w1)
    requires w1 == w.(caps := w1.caps) && (cont.Pass? ==> cont.upper < w.nextId)
    ensures Plain(w, Resume(w1, t, cont), t) && |Resume(w1, t, cont).caps| == |w.caps|
  {
    var w2 := Resume(w1, t, cont);
    assert SameWaits(w, w2);
  }

  /** A wait that is still owed after the evaluation was not this evaluation's to complete. */
  lemma ResumeCarries(w: World, w1: World, t: nat, cont: Cont, k: nat, fit: bool)
    requires t in w.threads && Evaluates(w.threads[t]) && w.threads[t].cont == cont && w1 == w.(caps := w1.caps)
    requires SameWaits(w, w1) && k < |w.caps|
    requires w1.caps[k] == w.caps[k] || w1.caps[k].ticket.None?
    requires w1.caps[k].ticket.Some? && Owed(w, k, fit) ==> !Sees(w.limit, w.threads[t], k, w.caps[k], fit)
    ensures Carries(w, Resume(w1, t, cont), t, k, fit)
  {
  }

  lemma CompleteWaits(w: World, k: nat, ticket: nat)
    requires k < |w.caps|
    ensures var w1 := Complete(w, k, ticket);
      && w1 == w.(caps := w1.caps) && SameWaits(w, w1)
      && (forall j :: 0 <= j < |w.caps| ==> w1.caps[j] == w.caps[j] || w1.caps[j].ticket.None?)
      && w1.caps[k].ticket != Some(ticket)
  {
  }

  lemma Finished(w: World, w1: World, t: nat, cont: Cont)
    requires Dispatching(w) && t in w.threads && Evaluates(w.threads[t]) && w.threads[t].cont == cont
    requires w1 == w.(caps := w1.caps) && SameWaits(w, w1)
    requires (forall j :: 0 <= j < |w.caps| ==> w1.caps[j] == w.caps[j] || w1.caps[j].ticket.None?)
    requires forall k: nat, fit :: k < |w.caps| && w1.caps[k].ticket.Some? && Owed(w, k, fit) ==>
      !Sees(w.limit, w.threads[t], k, w.caps[k], fit)
    ensures Dispatching(Resume(w1, t, cont))
  {
    hide Registered, Watched, NothingLost, AllInformed, Flag, Owed, Sees, SameWaits, Plain, Carries, Resume;
    InformedAt(w, t);
    ResumePlain(w, w1, t, cont);
    forall k: nat, fit | k < |w.caps|
      ensures Carries(w, Resume(w1, t, cont), t, k, fit)
    {
      ResumeCarries(w, w1, t, cont, k, fit);
    }
    PlainStep(w, Resume(w1, t, cont), t);
  }

  /** An evaluation takes its next step and can still complete what it could. */
  lemma EvaluationMoves(w: World, t: nat, pc: Pc)
    requires Dispatching(w) && t in w.threads && Evaluates(w.threads[t]) && Evaluates(pc)
    requires pc.cont == w.threads[t].cont && Informed(w, pc)
    requires forall k: nat, fit :: k < |w.caps| && Owed(w, k, fit) && Sees(w.limit, w.threads[t], k, w.caps[k], fit) ==>
      Sees(w.limit, pc, k, w.caps[k], fit)
    ensures Dispatching(Goto(w, t, pc))
  {
    hide Registered, Watched, NothingLost, AllInformed, Flag, Sees;
    var w2 := Goto(w, t, pc);
    SameCaps(w, w2);
    assert Plain(w, w2, t) by { InformedSame(w, w2, pc); }
    forall k: nat, fit | k < |w.caps| ensures Carries(w, w2, t, k, fit) { assert Owed(w2, k, fit) == Owed(w, k, fit); }
    PlainStep(w, w2, t);
  }

  lemma ReadKeeps(w: World, t: nat)
    requires Dispatching(w) && t in w.threads && w.threads[t].Read? && Placed(w, w.threads[t])
    ensures Dispatching(ReadStep(w, t, w.threads[t].k, w.threads[t].cont))
  {
    hide Dispatching;
    var pc := w.threads[t];
    var c := w.caps[pc.k];
    if c.ticket.None? {
      SameCaps(w, w);
      Finished(w, w, t, pc.cont);
    } else {
      InformedAt(w, t);
      TicketKnown(w, pc.k);
      EvaluationMoves(w, t, LoadClosed(pc.k, c.ticket.value, c.required, pc.cont));
    }
  }

  lemma TicketKnown(w: World, k: nat)
    requires Dispatching(w) && k < |w.caps|
    ensures w.caps[k].ticket.Some? ==> w.caps[k].ticket.value < w.nextTicket
  {
    hide NothingLost, Watched, Flag, AllInformed;
  }

  lemma InformedAt(w: World, t: nat)
    requires Dispatching(w) && t in w.threads
    ensures Informed(w, w.threads[t])
  {
    hide NothingLost, Watched, Flag, Registered;
  }

  lemma LoadClosedKeeps(w: World, t: nat)
    requires Dispatching(w) && t in w.threads && w.threads[t].LoadClosed? && Placed(w, w.threads[t])
    ensures var pc := w.threads[t]; Dispatching(LoadClosedStep(w, t, pc.k, pc.ticket, pc.n, pc.cont))
  {
    hide Dispatching;
    var pc := w.threads[t];
    InformedAt(w, t);
    if w.caps[pc.k].closed {
      CompleteWaits(w, pc.k, pc.ticket);
      Finished(w, Complete(w, pc.k, pc.ticket), t, pc.cont);
    } else {
      EvaluationMoves(w, t, LoadUsed(pc.k, pc.ticket, pc.n, pc.cont));
    }
  }

  lemma LoadUsedKeeps(w: World, t: nat)
    requires Dispatching(w) && t in w.threads && w.threads[t].LoadUsed?
    ensures var pc := w.threads[t]; Dispatching(Goto(w, t, LoadRetained(pc.k, pc.ticket, pc.n, w.used, pc.cont)))
  {
    hide Dispatching;
    var pc := w.threads[t];
    InformedAt(w, t);
    EvaluationMoves(w, t, LoadRetained(pc.k, pc.ticket, pc.n, w.used, pc.cont));
  }

  lemma LoadRetainedKeeps(w: World, t: nat)
    requires Dispatching(w) && t in w.threads && w.threads[t].LoadRetained? && Placed(w, w.threads[t])
    ensures var pc := w.threads[t]; Dispatching(LoadRetainedStep(w, t, pc.k, pc.ticket, pc.n, pc.shared, pc.cont))
  {
    hide Dispatching;
    var pc := w.threads[t];
    InformedAt(w, t);
    if FitsLocal(w, w.caps[pc.k], pc.n) && FitsShared(w, pc.shared, pc.n) {
      CompleteWaits(w, pc.k, pc.ticket);
      Finished(w, Complete(w, pc.k, pc.ticket), t, pc.cont);
    } else {
      SameCaps(w, w);
      Finished(w, w, t, pc.cont);
    }
  }

  // Waits.

  lemma CancelKeeps(w: World, k: nat)
    requires Dispatching(w) && k < |w.caps|
    ensures Dispatching(SetCap(w, k, w.caps[k].(ticket := None)))
  {
    hide Watched, Flag, Informed, Registered;
    var w2 := SetCap(w, k, w.caps[k].(ticket := None));
    assert SameWaits(w, w2);
    RegisteredSame(w, w2);
    forall t | t in w2.threads ensures Informed(w2, w2.threads[t]) { InformedSame(w, w2, w.threads[t]); }
    FlagSame(w, w2);
    forall j: nat, fit | j < |w2.caps| ensures Kept(w2, j, fit) { if j != k { KeptSame(w, w2, j, fit); } }
  }

  /** A destroyed state leaves no wait behind, whoever is evaluating it. */
  lemma ForgetKeeps(w: World, k: nat)
    requires Dispatching(w) && k < |w.caps|
    ensures Dispatching(SetCap(w, k, Forgotten(w.caps[k])))
  {
    hide Watched, Flag;
    var w2 := SetCap(w, k, Forgotten(w.caps[k]));
    FlagSame(w, w2);
    forall t | t in w2.threads ensures Informed(w2, w2.threads[t]) { assert Informed(w, w.threads[t]); }
    forall j: nat, fit | j < |w2.caps| ensures Kept(w2, j, fit) { if j != k { KeptSame(w, w2, j, fit); } }
  }

  lemma FlagSame(w: World, w2: World)
    requires Flag(w) && Watched(w) && w2.threads == w.threads && w2.owner == w.owner && w2.notifying == w.notifying
    requires w2.changed == w.changed
    ensures Flag(w2) && Watched(w2)
  {
  }

  lemma KeptSame(w: World, w2: World, k: nat, fit: bool)
    requires k < |w.caps| && |w2.caps| == |w.caps| && w2.caps[k] == w.caps[k] && Kept(w, k, fit)
    requires w2.threads == w.threads && w2.used == w.used && w2.changed == w.changed && w2.limit == w.limit
    requires w2.connectionLimit == w.connectionLimit
    ensures Kept(w2, k, fit)
  {
    if Owed(w2, k, fit) && !w2.changed {
      var t :| t in w.threads && Covers(w.limit, w.threads[t], k, w.caps[k], fit);
      assert t in w2.threads && Covers(w2.limit, w2.threads[t], k, w2.caps[k], fit);
    }
  }

  lemma WaitInformed(w: World, w2: World, k: nat, pc: Pc)
    requires Informed(w, pc) && k < |w.caps| && |w2.caps| == |w.caps| && w.nextId <= w2.nextId
    requires w2.nextTicket == w.nextTicket + 1
    requires w2.caps[k].ticket == Some(w.nextTicket) && forall j :: 0 <= j < |w.caps| && j != k ==>
      w2.caps[j] == w.caps[j]
    ensures Informed(w2, pc)
  {
  }

  lemma WaitRegistered(w: World, t: nat, k: nat, n: nat)
    requires Registered(w) && k < |w.caps|
    ensures Registered(WaitBegin(w, t, k, n))
  {
  }

  lemma WaitKeeps(w: World, t: nat, k: nat, n: nat)
    requires Dispatching(w) && t !in w.threads && k < |w.caps|
    ensures Dispatching(WaitBegin(w, t, k, n))
  {
    hide Informed, Registered, NothingLost;
    var c := w.caps[k];
    if !c.closed && c.ticket.None? {
      var w2 := WaitBegin(w, t, k, n);
      WaitRegistered(w, t, k, n);
      assert Flag(w2);
      WatchedMoved(w, w2, t);
      forall u | u in w2.threads ensures Informed(w2, w2.threads[u]) { WaitInformedAt(w, w2, t, k, u); }
      forall j: nat, fit | j < |w.caps| ensures Carries(w, w2, t, j, fit) { }
      AllCarried(w, w2, t);
    }
  }

  lemma WaitInformedAt(w: World, w2: World, t: nat, k: nat, u: nat)
    requires AllInformed(w) && k < |w.caps| && |w2.caps| == |w.caps| && w.nextId <= w2.nextId
    requires w2.nextTicket == w.nextTicket + 1
    requires w2.caps[k].ticket == Some(w.nextTicket) && forall j :: 0 <= j < |w.caps| && j != k ==>
      w2.caps[j] == w.caps[j]
    requires u in w2.threads && (u != t ==> u in w.threads && w2.threads[u] == w.threads[u])
    requires (u == t ==> w2.threads[u] == Read(k, Return))
    ensures Informed(w2, w2.threads[u])
  {
    if u != t { WaitInformed(w, w2, k, w.threads[u]); }
  }

  lemma EnterKeeps(w: World, t: nat)
    requires Dispatching(w) && t !in w.threads
    ensures Dispatching(Goto(w, t, Scope))
  {
    hide Dispatching, Informed, Owed;
    var w2 := Goto(w, t, Scope);
    SameCaps(w, w2);
    assert Informed(w2, Scope) by { ScopeInformed(w2); }
    assert Plain(w, w2, t);
    forall k: nat, fit | k < |w.caps| ensures Carries(w, w2, t, k, fit) { EnterCarries(w, t, k, fit); }
    PlainStep(w, w2, t);
  }

  lemma ScopeInformed(w: World)
    ensures Informed(w, Scope) && Informed(w, Acquire) && Informed(w, Clear) && Informed(w, Hand)
    ensures Informed(w, Reacquire)
  {
  }

  lemma EnterCarries(w: World, t: nat, k: nat, fit: bool)
    requires Dispatching(w) && t !in w.threads && k < |w.caps|
    ensures Carries(w, Goto(w, t, Scope), t, k, fit)
  {
    hide Dispatching;
  }

  // Every step keeps the dispatcher's promises.

  lemma ReserveTryKeeps(w: World, t: nat, spurious: bool)
    requires Dispatching(w) && t in w.threads && Placed(w, w.threads[t]) && w.threads[t].ReserveTry?
    ensures var pc := w.threads[t]; Dispatching(ReserveTryStep(w, t, pc.k, pc.n, pc.current, spurious))
  {
    hide Dispatching;
    var pc := w.threads[t];
    var w2 := ReserveTryStep(w, t, pc.k, pc.n, pc.current, spurious);
    assert pc.current > w.limit || pc.n > w.limit - pc.current || spurious || w.used != pc.current || w2.used == w.used + pc.n;
    ReserveKeeps(w, w2, pc.k, t, w2.threads[t]);
  }

  lemma ReserveStoreKeeps(w: World, t: nat)
    requires Dispatching(w) && t in w.threads && Placed(w, w.threads[t]) && w.threads[t].ReserveStore?
    ensures var pc := w.threads[t]; Dispatching(ReserveStoreStep(w, t, pc.k, pc.n))
  {
    hide Dispatching;
    var pc := w.threads[t];
    ReserveKeeps(w, ReserveStoreStep(w, t, pc.k, pc.n), pc.k, t, Scope);
  }

  lemma ReleaseTryKeeps(w: World, t: nat, spurious: bool)
    requires Dispatching(w) && t in w.threads && Placed(w, w.threads[t]) && w.threads[t].ReleaseTry?
    ensures var pc := w.threads[t]; Dispatching(ReleaseTryStep(w, t, pc.k, pc.n, pc.current, spurious))
  {
    hide Dispatching;
    var pc := w.threads[t];
    var w2 := ReleaseTryStep(w, t, pc.k, pc.n, pc.current, spurious);
    MarkingKeeps(w, w2, pc.k, t, w2.threads[t]);
  }

  lemma AdvanceKeeps(w: World, t: nat, spurious: bool)
    requires Dispatching(w) && t in w.threads && Placed(w, w.threads[t])
    ensures Dispatching(Advance(w, t, spurious))
  {
    hide Dispatching, ReserveTryStep, ReserveStoreStep, ReleaseTryStep, NextStep, LoadClosedStep, LoadRetainedStep, ReadStep, AcquireStep;
    match w.threads[t]
    case Scope =>
    case ReserveLoad(k, n) => QuietMove(w, t, ReserveTry(k, n, w.used));
    case ReserveTry(_, _, _) => ReserveTryKeeps(w, t, spurious);
    case ReserveStore(_, _) => ReserveStoreKeeps(w, t);
    case ReleaseLoad(k, n) => ReleaseLoadKeeps(w, t);
    case ReleaseTry(_, _, _) => ReleaseTryKeeps(w, t, spurious);
    case Mark => MarkKeeps(w, t);
    case Acquire => AcquireKeeps(w, t);
    case Clear => ClearKeeps(w, t);
    case Bound => BoundKeeps(w, t);
    case Next(last, upper) => NextKeeps(w, t, last, upper);
    case Recheck => QuietMove(w, t, if w.changed then Clear else Hand);
    case Hand => HandKeeps(w, t);
    case Reload => if w.changed { QuietMove(w, t, Reacquire); } else { BlindLeaves(w, t); }
    case Reacquire => AcquireKeeps(w, t);
    case Read(_, _) => ReadKeeps(w, t);
    case LoadClosed(_, _, _, _) => LoadClosedKeeps(w, t);
    case LoadUsed(_, _, _, _) => LoadUsedKeeps(w, t);
    case LoadRetained(_, _, _, _, _) => LoadRetainedKeeps(w, t);
  }

  lemma ReleaseLoadKeeps(w: World, t: nat)
    requires Dispatching(w) && t in w.threads && w.threads[t].ReleaseLoad?
    ensures Dispatching(Goto(w, t, ReleaseTry(w.threads[t].k, w.threads[t].n, w.used)))
  {
    hide Dispatching, Carries;
    var w2 := Goto(w, t, ReleaseTry(w.threads[t].k, w.threads[t].n, w.used));
    SameCaps(w, w2);
    CoverAllCarries(w, w2, t);
    assert Plain(w, w2, t);
    PlainStep(w, w2, t);
  }

  lemma StepDispatching(w: World, a: Action)
    requires Dispatching(w) && Enabled(w, a)
    ensures Dispatching(Apply(w, a))
  {
    hide Dispatching, Advance, WaitBegin;
    match a
    case AEnter(t) => EnterKeeps(w, t);
    case AReserve(t, k, n) => ReserveKeeps(w, ReserveBegin(w, t, k, n), k, t, ReserveLoad(k, n));
    case ARelease(t, k, n) => MarkingKeeps(w, ReleaseBegin(w, t, k, n), k, t, ReleaseLoad(k, n));
    case AClose(t, k) => MarkingKeeps(w, CloseBegin(w, t, k), k, t, Mark);
    case AWait(t, k, n) => WaitKeeps(w, t, k, n);
    case ACancel(k) => CancelKeeps(w, k);
    case AForget(k) => ForgetKeeps(w, k);
    case AExit(t) => if w.changed { ScopeInformed(w); QuietMove(w, t, Acquire); } else { BlindLeaves(w, t); }
    case AStep(t, spurious) => AdvanceKeeps(w, t, spurious);
  }
}
