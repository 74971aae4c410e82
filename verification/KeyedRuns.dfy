/** Every run of the keyed executor is safe, and the guarantees that follow for every reachable state. */
module KeyedRuns {
  import opened Common
  import opened KeyedExecutor
  import opened KeyedSafety

  lemma SubmitSafe(w: World, a: Action)
    requires Safe(w) && a.ASubmit? && Enabled(w, a)
    ensures Safe(Apply(w, a))
  {
    if Admission(w.exec, a.key, a.bytes) == Ok {
      AdmitShape(w.exec, a.key, a.bytes, a.deadline, a.early, a.now, a.parent);
      AdmitTotals(w.exec, a.key, a.bytes, a.deadline, a.early, a.now, a.parent);
      AdmitRest(w, a.key, a.bytes, a.deadline, a.early, a.now, a.parent);
    }
  }

  lemma AdmitOnward(e: Exec, k: Key, t: Task)
    requires Core(e) && t.phase.Queued?
    ensures Onward(e, Enqueue(Inserted(e, k, t), k))
  {
    var e1 := Inserted(e, k, t);
    Older(e, k);
    assert Onward(e, e1);
    OnwardQueues(e, e1, Enqueue(e1, k));
  }

  lemma AdmitRest(w: World, k: Key, bytes: nat, deadline: Option<int>, early: ErrorCode, now: int, parent: bool)
    requires Core(w.exec) && Starts(w.exec) && Verdicts(w.exec) && Threads(w) && !w.exec.stopping
    ensures var e2 := Admit(w.exec, k, bytes, deadline, early, now, parent);
      Starts(e2) && Verdicts(e2) && Threads(w.(exec := e2))
  {
    var t := Arriving(k, bytes, deadline, early, now, parent);
    AdmitIsInsert(w.exec, k, bytes, deadline, early, now, parent);
    var e2 := Enqueue(Inserted(w.exec, k, t), k);
    AdmitOnward(w.exec, k, t);
    Older(w.exec, k);
    StartsKept(w.exec, e2);
    VerdictsKept(w.exec, e2);
    AdmitThreads(w, e2);
  }

  lemma TweakOnward(e: Exec, e2: Exec)
    requires AllTweaked(e, e2.info) && forall k :: k in e2.keys ==> k in e.keys && e2.keys[k].queued == e.keys[k].queued
    ensures Onward(e, e2) && forall id :: id in e.info && id in e2.info ==>
      e2.info[id].phase.Terminal? == e.info[id].phase.Terminal?
  {
    forall id | id in e.info ensures id in e2.info && e2.info[id].key == e.info[id].key && e2.info[id].phase == e.info[id].phase {
      assert Tweaked(e.info[id], e2.info[id]);
    }
  }

  /** Steps that change task records only. */
  lemma TweakSafe(w: World, e2: Exec)
    requires Safe(w) && Shape(e2) && Totals(e2) && AllTweaked(w.exec, e2.info) && e2.options == w.exec.options
    requires e2.tasks == w.exec.tasks && (w.exec.stopping ==> e2.stopping) && e2.started == w.exec.started
    requires e2.published == w.exec.published
    requires forall k :: k in e2.keys ==> k in w.exec.keys && e2.keys[k].queued == w.exec.keys[k].queued
    ensures Safe(w.(exec := e2))
  {
    TweakOnward(w.exec, e2);
    StartsKept(w.exec, e2);
    VerdictsKept(w.exec, e2);
    TweakThreads(w, e2);
  }

  /** A live task is in the list, and its key in the table. */
  lemma Live(e: Exec, id: Id)
    requires Core(e) && id in e.info && !e.info[id].phase.Terminal?
    ensures id in e.tasks && e.info[id].key in e.keys && Rising(e.tasks)
  {
    assert TaskOk(e, id);
  }

  /** Writing a reason or a signal changes no total. */
  lemma RecordTotals(e: Exec, id: Id, t: Task)
    requires Core(e) && Totals(e) && id in e.info && !e.info[id].phase.Terminal? && Tweaked(e.info[id], t)
    ensures Totals(e.(info := e.info[id := t])) && AllTweaked(e, e.info[id := t])
  {
    Live(e, id);
    TotalsUpdate(e, e.(info := e.info[id := t]), id);
  }

  lemma CancelSafe(w: World, id: Id, now: int)
    requires Safe(w) && id in w.exec.info
    ensures Safe(w.(exec := Cancel(w.exec, id, now)))
  {
    CancelShape(w.exec, id, now);
    var t := w.exec.info[id];
    if Cancellable(t) {
      RecordTotals(w.exec, id, t.(reason := CancelReason(t, now)));
      TweakSafe(w, Cancel(w.exec, id, now));
    }
  }

  lemma StopSafe(w: World, now: int, parents: set<Id>)
    requires Safe(w)
    ensures Safe(w.(exec := RequestStop(w.exec, now, parents)))
  {
    StopShape(w.exec, now, parents);
    StopTotals(w.exec, now, parents);
    TweakSafe(w, RequestStop(w.exec, now, parents));
  }

  lemma SkipTotals(e: Exec, now: int, parent: bool)
    requires Core(e) && Totals(e) && CanPick(e)
    ensures Totals(Skip(e, now, parent)) && AllTweaked(e, Skip(e, now, parent).info)
  {
    PickFacts(e);
    SkipBudgets(e, now, parent);
    hide Totals, Sum, SlotOk, SameBudgets, Skip, Offered;
    TotalsUpdate(e, Skip(e, now, parent), KeyedExecutor.Front(e));
  }

  lemma SkipBudgets(e: Exec, now: int, parent: bool)
    requires CanPick(e) && e.info[KeyedExecutor.Front(e)].phase.Queued?
    ensures var e2, id := Skip(e, now, parent), KeyedExecutor.Front(e);
      && SameBudgets(e, e2) && id in e2.info && e2.info == e.info[id := e2.info[id]] && e2.pending == e.pending
      && e2.running == e.running
      && e2.info[id].key == e.info[id].key && e2.info[id].bytes == e.info[id].bytes
      && e2.info[id].phase == e.info[id].phase
      && AllTweaked(e, e2.info)
  {
  }

  lemma StartTotals(e: Exec, w: nat)
    requires Core(e) && Totals(e) && CanPick(e)
    ensures Totals(Start(e, w))
  {
    PickFacts(e);
    var e2 := Start(e, w);
    assert SameBudgets(e, e2);
    TotalsUpdate(e, e2, KeyedExecutor.Front(e));
  }

  lemma StartRest(w: World, t: nat)
    requires Core(w.exec) && Verdicts(w.exec) && Threads(w) && CanPick(w.exec) && t in w.workers && w.workers[t].Idle?
    ensures Verdicts(Start(w.exec, t))
    ensures Threads(w.(exec := Start(w.exec, t), workers := w.workers[t := Job(KeyedExecutor.Front(w.exec))]))
  {
    PickFacts(w.exec);
    StartOnward(w.exec, t);
    VerdictsKept(w.exec, Start(w.exec, t));
    WorkerMove(w, w.(exec := Start(w.exec, t), workers := w.workers[t := Job(KeyedExecutor.Front(w.exec))]), t, KeyedExecutor.Front(w.exec));
  }

  lemma SkipFrame(e: Exec, now: int, parent: bool)
    requires CanPick(e)
    ensures var e2 := Skip(e, now, parent);
      && e2.options == e.options && e2.tasks == e.tasks && e2.stopping == e.stopping && e2.started == e.started
      && e2.published == e.published
      && e2.keys.Keys == e.keys.Keys && forall k :: k in e2.keys ==> e2.keys[k].queued == e.keys[k].queued
  {
  }

  lemma SkipSafe(w: World, now: int, parent: bool)
    requires Safe(w) && CanPick(w.exec) && Offered(w.exec, now, parent).reason != Ok
    ensures Safe(w.(exec := Skip(w.exec, now, parent)))
  {
    SkipShape(w.exec, now, parent);
    SkipTotals(w.exec, now, parent);
    SkipFrame(w.exec, now, parent);
    TweakSafe(w, Skip(w.exec, now, parent));
  }

  lemma StartSafe(w: World, t: nat)
    requires Safe(w) && t in w.workers && w.workers[t].Idle? && CanPick(w.exec)
    ensures Safe(w.(exec := Start(w.exec, t), workers := w.workers[t := Job(KeyedExecutor.Front(w.exec))]))
  {
    StartShape(w.exec, t);
    StartTotals(w.exec, t);
    StartStarts(w.exec, t);
    StartRest(w, t);
  }

  lemma FinishTotals(e: Exec, id: Id, now: int, parent: bool)
    requires Core(e) && Totals(e) && id in e.info && e.info[id].phase.Running?
    ensures Totals(FinishJob(e, id, now, parent))
  {
    assert TaskOk(e, id);
    TotalsUpdate(e, FinishJob(e, id, now, parent), id);
  }

  lemma FinishOnward(e: Exec, id: Id, now: int, parent: bool)
    requires id in e.info
    ensures Onward(e, FinishJob(e, id, now, parent))
  {
  }

  lemma FinishHistory(e: Exec, id: Id, now: int, parent: bool)
    requires Core(e) && Starts(e) && Verdicts(e) && id in e.info && e.info[id].phase.Running?
    ensures var e2 := FinishJob(e, id, now, parent); Starts(e2) && Verdicts(e2)
  {
    FinishOnward(e, id, now, parent);
    StartsKept(e, FinishJob(e, id, now, parent));
    VerdictsKept(e, FinishJob(e, id, now, parent));
  }

  lemma FinishThreads(w: World, t: nat, result: ErrorCode, now: int, parent: bool)
    requires Threads(w) && t in w.workers && w.workers[t].Job? && w.workers[t].id in w.exec.info
    ensures w.exec.info[w.workers[t].id].phase.Running? && Threads(FinishStep(w, t, result, now, parent))
  {
    assert WorkerOk(w, t) && Owned(w, w.workers[t].id);
    WorkerMove(w, FinishStep(w, t, result, now, parent), t, w.workers[t].id);
  }

  lemma FinishSafe(w: World, t: nat, result: ErrorCode, now: int, parent: bool)
    requires Safe(w) && t in w.workers && w.workers[t].Job? && w.workers[t].id in w.exec.info
    ensures Safe(FinishStep(w, t, result, now, parent))
  {
    FinishThreads(w, t, result, now, parent);
    FinishShape(w.exec, w.workers[t].id, now, parent);
    FinishTotals(w.exec, w.workers[t].id, now, parent);
    FinishHistory(w.exec, w.workers[t].id, now, parent);
  }

  lemma PublishCounts(e: Exec, id: Id, result: ErrorCode, occupied: bool)
    requires Shape(e) && Totals(e) && Claimed(e, id, result, occupied)
    ensures var e2 := Publish(e, id, result, occupied); Shape(e2) && Totals(e2)
  {
    Live(e, id);
    if Settle(e, id, result, occupied).keys[e.info[id].key].outstanding == 0 { LastOfKey(e, id, result, occupied); }
    PublishShape(e, id, result, occupied);
    PublishTotals(e, id, result, occupied);
  }

  lemma PublishHistory(e: Exec, id: Id, result: ErrorCode, occupied: bool)
    requires Core(e) && Starts(e) && Verdicts(e) && Claimed(e, id, result, occupied)
    ensures var e2 := Publish(e, id, result, occupied); Starts(e2) && Verdicts(e2)
  {
    PublishOnward(e, id, result, occupied);
    PublishFrame(e, id, result, occupied);
    StartsKept(e, Publish(e, id, result, occupied));
    PublishVerdicts(e, id, result, occupied);
  }

  lemma PublishFrame(e: Exec, id: Id, result: ErrorCode, occupied: bool)
    requires Publishable(e, id)
    ensures var e2 := Publish(e, id, result, occupied);
      && e2.info == e.info[id := e.info[id].(phase := Terminal, result := result)] && e2.tasks == Without(e.tasks, id)
      && e2.stopping == e.stopping && e2.options == e.options && e2.started == e.started
  {
  }

  lemma PublishSafe(w: World, t: nat)
    requires Safe(w) && t in w.workers && w.workers[t].Publishing?
    ensures Publishable(w.exec, w.workers[t].id)
    ensures Safe(w.(exec := Publish(w.exec, w.workers[t].id, w.workers[t].code, true), workers := w.workers[t := Idle]))
  {
    var id, code := w.workers[t].id, w.workers[t].code;
    assert WorkerOk(w, t) && TaskOk(w.exec, id);
    PublishCounts(w.exec, id, code, true);
    PublishHistory(w.exec, id, code, true);
    PublishFrame(w.exec, id, code, true);
    WorkerMove(w, w.(exec := Publish(w.exec, id, code, true), workers := w.workers[t := Idle]), t, id);
  }

  lemma DeliverSafe(w: World)
    requires Safe(w) && w.coordinator.Delivering?
    ensures Publishable(w.exec, w.coordinator.id)
    ensures Safe(w.(exec := Publish(w.exec, w.coordinator.id, w.coordinator.code, false), coordinator := Scanning))
  {
    var id, code := w.coordinator.id, w.coordinator.code;
    assert TaskOk(w.exec, id);
    PublishCounts(w.exec, id, code, false);
    PublishHistory(w.exec, id, code, false);
    PublishFrame(w.exec, id, code, false);
    CoordinatorMove(w, w.(exec := Publish(w.exec, id, code, false), coordinator := Scanning), id);
  }

  lemma SignalSafe(w: World, id: Id, now: int, parent: bool)
    requires Safe(w) && id in w.exec.info && w.exec.info[id].phase.Running? && Due(w.exec.info[id], now, parent)
    ensures Safe(w.(exec := SignalRunning(w.exec, id, now, parent)))
  {
    SignalShape(w.exec, id, now, parent);
    RecordTotals(w.exec, id, Observe(w.exec.info[id], now, parent).(signalSent := true));
    TweakSafe(w, SignalRunning(w.exec, id, now, parent));
  }

  lemma TakeBudgets(e: Exec, id: Id, now: int, parent: bool)
    requires Publishable(e, id)
    ensures SameBudgets(e, TakeQueued(e, id, now, parent)) && TakeQueued(e, id, now, parent).pending == e.pending - 1
    ensures TakeQueued(e, id, now, parent).running == e.running
    ensures TakeQueued(e, id, now, parent).info == Taken(e, id, now, parent).info
  {
  }

  lemma TakeTotals(e: Exec, id: Id, now: int, parent: bool)
    requires Core(e) && Totals(e) && id in e.info && e.info[id].phase.Queued? && e.info[id].key in e.keys
    ensures Totals(TakeQueued(e, id, now, parent))
  {
    TakeBudgets(e, id, now, parent);
    TakenSlot(e, id);
    Live(e, id);
    TotalsUpdate(e, TakeQueued(e, id, now, parent), id);
  }

  lemma TakeOnward(e: Exec, id: Id, now: int, parent: bool)
    requires Publishable(e, id)
    ensures Onward(e, TakeQueued(e, id, now, parent))
  {
    var e1 := Taken(e, id, now, parent);
    assert Onward(e, e1);
    OnwardQueues(e, e1, TakeQueued(e, id, now, parent));
  }

  lemma TakeHistory(e: Exec, id: Id, now: int, parent: bool)
    requires Core(e) && Starts(e) && Verdicts(e) && Publishable(e, id) && e.info[id].phase.Queued?
    ensures var e2 := TakeQueued(e, id, now, parent); Starts(e2) && Verdicts(e2)
  {
    TakeOnward(e, id, now, parent);
    TakeBudgets(e, id, now, parent);
    StartsKept(e, TakeQueued(e, id, now, parent));
    VerdictsKept(e, TakeQueued(e, id, now, parent));
  }

  lemma TakeThreads(w: World, id: Id, now: int, parent: bool)
    requires Threads(w) && Publishable(w.exec, id) && w.exec.info[id].phase.Queued?
    requires w.coordinator.Scanning? && Due(w.exec.info[id], now, parent)
    ensures var e2 := TakeQueued(w.exec, id, now, parent);
      Threads(w.(exec := e2, coordinator := Delivering(id, e2.info[id].reason)))
  {
    var e2 := TakeQueued(w.exec, id, now, parent);
    TakeBudgets(w.exec, id, now, parent);
    CoordinatorMove(w, w.(exec := e2, coordinator := Delivering(id, e2.info[id].reason)), id);
  }

  lemma TakeSafe(w: World, id: Id, now: int, parent: bool)
    requires Safe(w) && Publishable(w.exec, id) && w.exec.info[id].phase.Queued?
    requires w.coordinator.Scanning? && Due(w.exec.info[id], now, parent)
    ensures var e2 := TakeQueued(w.exec, id, now, parent);
      Safe(w.(exec := e2, coordinator := Delivering(id, e2.info[id].reason)))
  {
    TakeShape(w.exec, id, now, parent);
    TakeTotals(w.exec, id, now, parent);
    TakeHistory(w.exec, id, now, parent);
    TakeThreads(w, id, now, parent);
  }

  lemma ScanReady(e: Exec)
    requires Core(e)
    ensures Known(e) && Located(e)
  {
    forall id | id in e.tasks ensures e.info[id].key in e.keys { assert TaskOk(e, id); }
  }

  lemma ScanFinds(e: Exec, now: int, parents: set<Id>)
    requires Core(e) && Known(e) && FirstDue(e, now, parents, 0) < |e.tasks|
    ensures var id := e.tasks[FirstDue(e, now, parents, 0)];
      && Publishable(e, id) && Due(e.info[id], now, id in parents)
      && (e.info[id].phase.Queued? || e.info[id].phase.Running?)
  {
    var id := e.tasks[FirstDue(e, now, parents, 0)];
    assert id in e.tasks && TaskOk(e, id);
  }

  lemma ActSafe(w: World, id: Id, now: int, parent: bool)
    requires Safe(w) && w.coordinator.Scanning? && Publishable(w.exec, id) && Due(w.exec.info[id], now, parent)
    requires w.exec.info[id].phase.Queued? || w.exec.info[id].phase.Running?
    ensures Safe(ActStep(w, id, now, parent))
  {
    if w.exec.info[id].phase.Queued? { TakeSafe(w, id, now, parent); } else { SignalSafe(w, id, now, parent); }
  }

  lemma ScanSafe(w: World, now: int, parents: set<Id>)
    requires Safe(w) && w.coordinator.Scanning? && Known(w.exec) && Located(w.exec)
    ensures Safe(ScanStep(w, now, parents))
  {
    var i := FirstDue(w.exec, now, parents, 0);
    if i < |w.exec.tasks| {
      ScanFinds(w.exec, now, parents);
      hide Safe;
      ActSafe(w, w.exec.tasks[i], now, w.exec.tasks[i] in parents);
    } else {
      QuietScan(w);
    }
  }

  /** A scan that finds nothing leaves, or changes nothing. */
  lemma QuietScan(w: World)
    requires Safe(w) && w.coordinator.Scanning?
    ensures w.exec.stopping && w.exec.tasks == [] ==> Safe(w.(coordinator := Done))
  {
    var w2 := w.(coordinator := Done);
    forall id | id in w.exec.info ensures Owned(w2, id) { assert Owned(w, id); }
    forall t | t in w.workers ensures WorkerOk(w2, t) { assert WorkerOk(w, t); }
  }

  lemma ExitSafe(w: World, t: nat)
    requires Safe(w) && t in w.workers && w.workers[t].Idle? && w.exec.stopping
    ensures Safe(w.(workers := w.workers[t := Exited]))
  {
    var w2 := w.(workers := w.workers[t := Exited]);
    forall id | id in w.exec.info ensures Owned(w2, id) { assert Owned(w, id); }
    forall u | u in w2.workers ensures WorkerOk(w2, u) { assert WorkerOk(w, u); }
  }

  lemma OpenSafe(w: World)
    requires Safe(w)
    ensures Safe(w.(exec := w.exec.(open := true)))
  {
    hide Totals, Rising, Sum, Starts, Verdicts, Threads;
    var e2 := w.exec.(open := true);
    TweakShape(w.exec, w.exec.info, w.exec.stopping);
    forall id | id in e2.info ensures TaskOk(e2, id) { assert TaskOk(w.exec, id); }
    forall k | k in e2.keys
      ensures SlotOk(e2, k) && !Stranded(e2, k)
    {
      assert SlotOk(w.exec, k) && !Stranded(w.exec, k);
    }
    TotalsSame(w.exec, e2);
    TweakSafe(w, e2);
  }

  lemma StepSafe(w: World, a: Action)
    requires Safe(w) && Enabled(w, a)
    ensures Safe(Apply(w, a))
  {
    match a
    case AOpen => OpenSafe(w);
    case ASubmit(_, _, _, _, _, _) => SubmitSafe(w, a);
    case ACancel(id, now) => CancelSafe(w, id, now);
    case AStop(now, parents) => StopSafe(w, now, parents);
    case APick(t, now, parent) => if Offered(w.exec, now, parent).reason != Ok { SkipSafe(w, now, parent); } else { StartSafe(w, t); }
    case AExit(t) => ExitSafe(w, t);
    case AFinish(t, result, now, parent) => FinishSafe(w, t, result, now, parent);
    case APublish(t) => PublishSafe(w, t);
    case AScan(now, parents) => ScanSafe(w, now, parents);
    case ADeliver => DeliverSafe(w);
  }

  // Runs.

  ghost predicate Initial(w: World) {
    && ValidOptions(w.exec.options) && w.exec == Empty(w.exec.options) && w.coordinator.Scanning?
    && forall t :: t in w.workers ==> w.workers[t].Idle?
  }

  ghost predicate StepAt(ws: seq<World>, acts: seq<Action>, i: nat)
    requires |ws| == |acts| + 1 && i < |acts|
  {
    Enabled(ws[i], acts[i]) && ws[i + 1] == Apply(ws[i], acts[i])
  }

  ghost predicate IsRun(ws: seq<World>, acts: seq<Action>) {
    |ws| == |acts| + 1 && Initial(ws[0]) && forall i :: 0 <= i < |acts| ==> StepAt(ws, acts, i)
  }

  lemma InitialSafe(w: World)
    requires Initial(w)
    ensures Safe(w)
  {
    var e := w.exec;
    assert Sum(e.info, e.tasks, None) == ZERO;
    assert Shape(e);
    assert Totals(e);
    assert Starts(e) && Verdicts(e);
    forall t | t in w.workers ensures WorkerOk(w, t) { }
    assert Threads(w);
  }

  lemma Follow(w: World, a: Action, w2: World)
    requires Safe(w) && Enabled(w, a) && w2 == Apply(w, a)
    ensures Safe(w2)
  {
    StepSafe(w, a);
  }

  lemma RunSafe(ws: seq<World>, acts: seq<Action>, i: nat)
    requires IsRun(ws, acts) && i < |ws|
    ensures Safe(ws[i])
  {
    InitialSafe(ws[0]);
    for j := 0 to i
      invariant Safe(ws[j])
    {
      RunStep(ws, acts, j);
    }
  }

  lemma RunStep(ws: seq<World>, acts: seq<Action>, i: nat)
    requires IsRun(ws, acts) && i < |acts| && Safe(ws[i])
    ensures Safe(ws[i + 1])
  {
    assert StepAt(ws, acts, i);
    Follow(ws[i], acts[i], ws[i + 1]);
  }

  /** The task a worker is running or publishing. */
  ghost predicate Handles(w: World, t: nat, id: Id) {
    t in w.workers && (w.workers[t].Job? || w.workers[t].Publishing?) && w.workers[t].id == id
  }

  /** At most one worker is ever inside a job, or publishing one, of any given key. */
  lemma OneJobPerKey(ws: seq<World>, acts: seq<Action>, i: nat, t1: nat, id1: Id, t2: nat, id2: Id)
    requires IsRun(ws, acts) && i < |ws| && t1 != t2 && Handles(ws[i], t1, id1) && Handles(ws[i], t2, id2)
    ensures id1 in ws[i].exec.info && id2 in ws[i].exec.info && ws[i].exec.info[id1].key != ws[i].exec.info[id2].key
  {
    RunSafe(ws, acts, i);
    var w := ws[i];
    assert WorkerOk(w, t1) && WorkerOk(w, t2);
    assert TaskOk(w.exec, id1) && TaskOk(w.exec, id2);
  }

  /** Tasks are named in submission order, and the starts of one key follow that order. */
  lemma StartsInSubmissionOrder(ws: seq<World>, acts: seq<Action>, n: nat, i: nat, j: nat)
    requires IsRun(ws, acts) && n < |ws| && i < j < |ws[n].exec.started|
    ensures var e := ws[n].exec; e.started[i] in e.info && e.started[j] in e.info
    ensures var e := ws[n].exec; e.info[e.started[i]].key == e.info[e.started[j]].key ==> e.started[i] < e.started[j]
  {
    RunSafe(ws, acts, n);
    var e := ws[n].exec;
    assert e.started[i] in e.started && e.started[j] in e.started;
    assert Key0(e, i) == e.info[e.started[i]].key && Key0(e, j) == e.info[e.started[j]].key;
  }

  /** The ready list holds live idle keys with work, each once, and exactly the keys flagged ready. */
  lemma ReadyListWellFormed(ws: seq<World>, acts: seq<Action>, n: nat, k: Key)
    requires IsRun(ws, acts) && n < |ws|
    ensures var e := ws[n].exec; Distinct(e.readyKeys) && (k in e.readyKeys <==> k in e.keys && e.keys[k].ready)
    ensures var e := ws[n].exec;
      k in e.readyKeys ==> !e.keys[k].busy && e.keys[k].queued != [] && e.keys[k].outstanding > 0
  {
    RunSafe(ws, acts, n);
    var e := ws[n].exec;
    if k in e.keys { assert SlotOk(e, k) && KeyTotals(e, k); }
  }

  /**
    An idle key with queued work is in the ready list, or its front task is cancelled and unsignalled;
    then the coordinator has not left and its next scan, whenever it happens, acts on some task.
   */
  lemma NoKeyStranded(ws: seq<World>, acts: seq<Action>, n: nat, k: Key, now: int, parents: set<Id>)
    requires IsRun(ws, acts) && n < |ws| && k in ws[n].exec.keys && !ws[n].exec.keys[k].busy
    requires ws[n].exec.keys[k].queued != []
    requires k !in ws[n].exec.readyKeys
    ensures var e := ws[n].exec; var id := e.keys[k].queued[0];
      id in e.info && e.info[id].phase.Queued? && e.info[id].reason != Ok && !e.info[id].signalSent
    ensures !ws[n].coordinator.Done? && Known(ws[n].exec) && FirstDue(ws[n].exec, now, parents, 0) < |ws[n].exec.tasks|
  {
    RunSafe(ws, acts, n);
    var e := ws[n].exec;
    var id := e.keys[k].queued[0];
    assert SlotOk(e, k) && !Stranded(e, k) && id in e.keys[k].queued;
    assert TaskOk(e, id);
    var i :| 0 <= i < |e.tasks| && e.tasks[i] == id;
    assert Due(e.info[e.tasks[i]], now, e.tasks[i] in parents);
  }

  /** Counters are the sums over live tasks and stay within the configured limits. */
  lemma AccountsExact(ws: seq<World>, acts: seq<Action>, n: nat, k: Key)
    requires IsRun(ws, acts) && n < |ws|
    ensures var e := ws[n].exec;
      && Known(e) && Sum(e.info, e.tasks, None).count == |e.tasks| == e.outstanding <= e.options.maxTasks
      && Sum(e.info, e.tasks, None).bytes == e.retained <= e.options.maxBytes
      && Sum(e.info, e.tasks, None).pending == e.pending && Sum(e.info, e.tasks, None).running == e.running
      && |e.keys| <= e.options.maxKeys
      && (k in e.keys ==> KeyTotals(e, k)) && (k !in e.keys ==> Sum(e.info, e.tasks, Some(k)).count == 0)
  {
    RunSafe(ws, acts, n);
    var e := ws[n].exec;
    SumCounts(e.info, e.tasks, None);
    if k !in e.keys { Foreign(e, k); }
  }

  /** Whatever a thread is about to do, the records it needs are there. */
  lemma NothingDangles(ws: seq<World>, acts: seq<Action>, n: nat, t: nat, now: int, parents: set<Id>, result: ErrorCode)
    requires IsRun(ws, acts) && n < |ws|
    ensures var w := ws[n]; t in w.workers && w.workers[t].Job? ==> Enabled(w, AFinish(t, result, now, false))
    ensures var w := ws[n]; t in w.workers && w.workers[t].Publishing? ==> Enabled(w, APublish(t))
    ensures var w := ws[n]; w.coordinator.Delivering? ==> Enabled(w, ADeliver)
    ensures var w := ws[n]; w.coordinator.Scanning? ==> Enabled(w, AScan(now, parents))
    ensures var e := ws[n].exec; e.readyKeys != [] && e.open && !e.stopping ==> CanPick(e)
  {
    RunSafe(ws, acts, n);
    var w := ws[n];
    if t in w.workers { Handled(w, t); }
    if w.coordinator.Delivering? { DeliverSafe(w); }
    ScanReady(w.exec);
    HeadReady(w.exec);
  }

  lemma Handled(w: World, t: nat)
    requires Safe(w) && t in w.workers
    ensures w.workers[t].Job? || w.workers[t].Publishing? ==> Publishable(w.exec, w.workers[t].id)
  {
    assert WorkerOk(w, t);
    if w.workers[t].Job? || w.workers[t].Publishing? { Live(w.exec, w.workers[t].id); }
  }

  lemma HeadReady(e: Exec)
    requires Core(e)
    ensures e.readyKeys != [] && e.open && !e.stopping ==> CanPick(e)
  {
    if e.readyKeys != [] {
      assert e.readyKeys[0] in e.readyKeys;
      assert SlotOk(e, e.readyKeys[0]);
      assert e.keys[e.readyKeys[0]].queued[0] in e.keys[e.readyKeys[0]].queued;
    }
  }
}
