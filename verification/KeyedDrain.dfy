/** Cancel reasons are written once, and a stop request drains the executor with exactly one result per task. */
module KeyedDrain {
  import opened Common
  import opened KeyedExecutor
  import opened KeyedSafety
  import opened KeyedRuns

  // Reasons are written once; records never change owner-visible facts.

  /** What later steps may do to the record of an accepted task. */
  ghost predicate Evolves(t: Task, t2: Task) {
    && t2.key == t.key && t2.bytes == t.bytes && t2.deadline == t.deadline
    && (t.reason != Ok ==> t2.reason == t.reason)
    && (t.phase.Completing? || t.phase.Terminal? ==> t2.reason == t.reason && !t2.phase.Queued? && !t2.phase.Running?)
    && (t.phase.Terminal? ==> t2 == t)
  }

  ghost predicate AllEvolve(e: Exec, e2: Exec) {
    && e.next <= e2.next && (e.stopping ==> e2.stopping && e2.next == e.next)
    && forall id :: id in e.info ==> id in e2.info && Evolves(e.info[id], e2.info[id])
  }

  lemma OneEvolves(e: Exec, e2: Exec, id: Id)
    requires id in e2.info && e2.info == e.info[id := e2.info[id]]
    requires (id in e.info ==> Evolves(e.info[id], e2.info[id]))
    requires e2.stopping == e.stopping && e2.next == e.next
    ensures AllEvolve(e, e2)
  {
  }

  lemma AdmitEvolves(e: Exec, k: Key, bytes: nat, deadline: Option<int>, early: ErrorCode, now: int, parent: bool)
    requires Core(e) && !e.stopping
    ensures AllEvolve(e, Admit(e, k, bytes, deadline, early, now, parent))
  {
    Older(e, k);
  }

  lemma StopEvolves(e: Exec, now: int, parents: set<Id>)
    requires Core(e)
    ensures AllEvolve(e, RequestStop(e, now, parents))
  {
    var e2 := RequestStop(e, now, parents);
    forall id | id in e.info ensures Evolves(e.info[id], e2.info[id]) { assert TaskOk(e, id); }
  }

  lemma PickEvolves(w: World, t: nat, now: int, parent: bool)
    requires Core(w.exec) && CanPick(w.exec)
    ensures AllEvolve(w.exec, PickStep(w, t, now, parent).exec)
  {
    PickFacts(w.exec);
    OneEvolves(w.exec, PickStep(w, t, now, parent).exec, KeyedExecutor.Front(w.exec));
  }

  lemma ActEvolves(w: World, id: Id, now: int, parent: bool)
    requires Publishable(w.exec, id) && (w.exec.info[id].phase.Queued? || w.exec.info[id].phase.Running?)
    ensures AllEvolve(w.exec, ActStep(w, id, now, parent).exec)
  {
    TakeBudgets(w.exec, id, now, parent);
    TakeFrame(w.exec, id, now, parent);
    OneEvolves(w.exec, ActStep(w, id, now, parent).exec, id);
  }

  lemma TakeFrame(e: Exec, id: Id, now: int, parent: bool)
    requires Publishable(e, id)
    ensures TakeQueued(e, id, now, parent).stopping == e.stopping && TakeQueued(e, id, now, parent).next == e.next
  {
  }

  lemma ScanEvolves(w: World, now: int, parents: set<Id>)
    requires Core(w.exec) && Known(w.exec) && Located(w.exec)
    ensures AllEvolve(w.exec, ScanStep(w, now, parents).exec)
  {
    var i := FirstDue(w.exec, now, parents, 0);
    if i < |w.exec.tasks| {
      ScanFinds(w.exec, now, parents);
      ActEvolves(w, w.exec.tasks[i], now, w.exec.tasks[i] in parents);
    }
  }

  lemma PublishEvolves(e: Exec, id: Id, result: ErrorCode, occupied: bool)
    requires Publishable(e, id) && e.info[id].phase.Completing?
    ensures AllEvolve(e, Publish(e, id, result, occupied))
  {
    PublishFrame(e, id, result, occupied);
    OneEvolves(e, Publish(e, id, result, occupied), id);
  }

  lemma HandledPhase(w: World, t: nat)
    requires Threads(w) && t in w.workers
    ensures w.workers[t].Job? ==> w.workers[t].id in w.exec.info && w.exec.info[w.workers[t].id].phase.Running?
    ensures w.workers[t].Publishing? ==>
      w.workers[t].id in w.exec.info && w.exec.info[w.workers[t].id].phase.Completing?
  {
    assert WorkerOk(w, t);
  }

  lemma FinishEvolves(w: World, t: nat, result: ErrorCode, now: int, parent: bool)
    requires Threads(w) && t in w.workers && w.workers[t].Job? && w.workers[t].id in w.exec.info
    ensures AllEvolve(w.exec, FinishStep(w, t, result, now, parent).exec)
  {
    HandledPhase(w, t);
    OneEvolves(w.exec, FinishStep(w, t, result, now, parent).exec, w.workers[t].id);
  }

  lemma PublishJobEvolves(w: World, t: nat)
    requires Threads(w) && t in w.workers && w.workers[t].Publishing? && Publishable(w.exec, w.workers[t].id)
    ensures AllEvolve(w.exec, Publish(w.exec, w.workers[t].id, w.workers[t].code, true))
  {
    HandledPhase(w, t);
    PublishEvolves(w.exec, w.workers[t].id, w.workers[t].code, true);
  }

  lemma CancelEvolves(e: Exec, id: Id, now: int)
    requires id in e.info
    ensures AllEvolve(e, Cancel(e, id, now))
  {
  }

  lemma StepEvolves(w: World, a: Action)
    requires Core(w.exec) && Threads(w) && Enabled(w, a)
    ensures AllEvolve(w.exec, Apply(w, a).exec)
  {
    match a
    case AOpen =>
    case ASubmit(k, bytes, deadline, early, now, parent) =>
      if Admission(w.exec, k, bytes) == Ok { AdmitEvolves(w.exec, k, bytes, deadline, early, now, parent); }
    case ACancel(id, now) => CancelEvolves(w.exec, id, now);
    case AStop(now, parents) => StopEvolves(w.exec, now, parents);
    case APick(t, now, parent) => PickEvolves(w, t, now, parent);
    case AExit(t) =>
    case AFinish(t, result, now, parent) => FinishEvolves(w, t, result, now, parent);
    case APublish(t) => PublishJobEvolves(w, t);
    case AScan(now, parents) => ScanEvolves(w, now, parents);
    case ADeliver => PublishEvolves(w.exec, w.coordinator.id, w.coordinator.code, false);
  }

  lemma RunEvolves(ws: seq<World>, acts: seq<Action>, i: nat)
    requires IsRun(ws, acts) && i < |acts| && Core(ws[i].exec) && Threads(ws[i])
    ensures AllEvolve(ws[i].exec, ws[i + 1].exec)
  {
    assert StepAt(ws, acts, i);
    StepEvolves(ws[i], acts[i]);
  }

  lemma RunCore(ws: seq<World>, acts: seq<Action>, i: nat)
    requires IsRun(ws, acts) && i < |ws|
    ensures Core(ws[i].exec) && Threads(ws[i])
  {
    RunSafe(ws, acts, i);
  }

  /**
    A cancel reason is never overwritten or cleared, a result is never changed, and after a stop nothing is admitted.
   */
  lemma WrittenOnce(ws: seq<World>, acts: seq<Action>, i: nat, j: nat, id: Id)
    requires IsRun(ws, acts) && i <= j < |ws| && id in ws[i].exec.info
    ensures id in ws[j].exec.info && Evolves(ws[i].exec.info[id], ws[j].exec.info[id])
    ensures ws[i].exec.stopping ==> ws[j].exec.stopping && ws[j].exec.next == ws[i].exec.next
  {
    for n := i to j
      invariant id in ws[n].exec.info && Evolves(ws[i].exec.info[id], ws[n].exec.info[id])
      invariant ws[i].exec.stopping ==> ws[n].exec.stopping && ws[n].exec.next == ws[i].exec.next
    {
      RunCore(ws, acts, n);
      RunEvolves(ws, acts, n);
    }
  }

  // After a stop request, every thread step brings the executor closer to its end.

  ghost function Present(workers: map<nat, WorkerPc>): set<nat> { set t | t in workers && !workers[t].Exited? }

  ghost function Remaining(w: World): int
    requires Known(w.exec)
  {
    Sum(w.exec.info, w.exec.tasks, None).work + |Present(w.workers)| + if w.coordinator.Done? then 0 else 1
  }

  /** Steps of the executor's own threads. */
  predicate ThreadAction(a: Action) { a.APick? || a.AExit? || a.AFinish? || a.APublish? || a.AScan? || a.ADeliver? }

  lemma UpdateWork(e: Exec, e2: Exec, id: Id)
    requires Known(e) && Rising(e.tasks) && id in e.tasks && id in e2.info && e2.info == e.info[id := e2.info[id]]
    requires e2.tasks == e.tasks
    ensures Known(e2)
    ensures Sum(e2.info, e2.tasks, None).work == Sum(e.info, e.tasks, None).work - Work(e.info[id]) + Work(e2.info[id])
  {
    SumUpdate(e.info, e.tasks, id, e2.info[id], None);
  }

  lemma PublishWork(e: Exec, id: Id, result: ErrorCode, occupied: bool)
    requires Known(e) && Rising(e.tasks) && id in e.tasks && Publishable(e, id) && e.info[id].phase.Completing?
    ensures var e2 := Publish(e, id, result, occupied);
      Known(e2) && Sum(e2.info, e2.tasks, None).work == Sum(e.info, e.tasks, None).work - 1
  {
    hide Publish, Sum;
    var e2 := Publish(e, id, result, occupied);
    PublishFrame(e, id, result, occupied);
    SumWithout(e.info, e.tasks, id, None);
    SumSame(e.info, e2.info, e2.tasks, None);
  }

  lemma SamePresent(a: map<nat, WorkerPc>, t: nat, pc: WorkerPc)
    requires t in a && !a[t].Exited? && !pc.Exited?
    ensures Present(a[t := pc]) == Present(a)
  {
  }

  lemma ActWork(w: World, id: Id, now: int, parent: bool)
    requires Core(w.exec) && Publishable(w.exec, id) && Due(w.exec.info[id], now, parent)
    requires w.exec.info[id].phase.Queued? || w.exec.info[id].phase.Running?
    ensures var e2 := ActStep(w, id, now, parent).exec;
      Known(e2) && Sum(e2.info, e2.tasks, None).work < Sum(w.exec.info, w.exec.tasks, None).work
  {
    Live(w.exec, id);
    TakeBudgets(w.exec, id, now, parent);
    UpdateWork(w.exec, ActStep(w, id, now, parent).exec, id);
  }

  lemma FinishWork(w: World, t: nat, result: ErrorCode, now: int, parent: bool)
    requires Core(w.exec) && Threads(w) && t in w.workers && w.workers[t].Job? && w.workers[t].id in w.exec.info
    ensures var w2 := FinishStep(w, t, result, now, parent); Known(w2.exec) && Remaining(w2) < Remaining(w)
  {
    HandledPhase(w, t);
    Live(w.exec, w.workers[t].id);
    UpdateWork(w.exec, FinishStep(w, t, result, now, parent).exec, w.workers[t].id);
    SamePresent(w.workers, t, FinishStep(w, t, result, now, parent).workers[t]);
  }

  lemma PublishProgress(w: World, t: nat)
    requires Core(w.exec) && Threads(w) && Enabled(w, APublish(t))
    ensures Known(Apply(w, APublish(t)).exec) && Remaining(Apply(w, APublish(t))) < Remaining(w)
  {
    HandledPhase(w, t);
    Live(w.exec, w.workers[t].id);
    PublishWork(w.exec, w.workers[t].id, w.workers[t].code, true);
    SamePresent(w.workers, t, Idle);
  }

  lemma DeliverProgress(w: World)
    requires Core(w.exec) && Threads(w) && Enabled(w, ADeliver)
    ensures Known(Apply(w, ADeliver).exec) && Remaining(Apply(w, ADeliver)) < Remaining(w)
  {
    Live(w.exec, w.coordinator.id);
    PublishWork(w.exec, w.coordinator.id, w.coordinator.code, false);
  }

  lemma ExitProgress(w: World, t: nat)
    requires Known(w.exec) && Enabled(w, AExit(t))
    ensures Remaining(Apply(w, AExit(t))) < Remaining(w)
  {
    assert Present(w.workers[t := Exited]) == Present(w.workers) - {t};
    assert t in Present(w.workers);
  }

  lemma ScanProgress(w: World, now: int, parents: set<Id>)
    requires Core(w.exec) && Enabled(w, AScan(now, parents))
    ensures Known(ScanStep(w, now, parents).exec)
    ensures ScanStep(w, now, parents) == w || Remaining(ScanStep(w, now, parents)) < Remaining(w)
    ensures FirstDue(w.exec, now, parents, 0) < |w.exec.tasks| ==> Remaining(ScanStep(w, now, parents)) < Remaining(w)
  {
    var i := FirstDue(w.exec, now, parents, 0);
    if i < |w.exec.tasks| {
      ScanFinds(w.exec, now, parents);
      ActWork(w, w.exec.tasks[i], now, w.exec.tasks[i] in parents);
    }
  }

  /** After a stop request every thread step that changes anything strictly decreases the remaining work. */
  lemma StopMakesProgress(ws: seq<World>, acts: seq<Action>, i: nat)
    requires IsRun(ws, acts) && i < |acts| && ws[i].exec.stopping && ThreadAction(acts[i]) && ws[i + 1] != ws[i]
    ensures Known(ws[i].exec) && Known(ws[i + 1].exec) && Remaining(ws[i + 1]) < Remaining(ws[i])
  {
    RunCore(ws, acts, i);
    assert StepAt(ws, acts, i);
    match acts[i]
    case AExit(t) => ExitProgress(ws[i], t);
    case AFinish(t, result, now, parent) => FinishWork(ws[i], t, result, now, parent);
    case APublish(t) => PublishProgress(ws[i], t);
    case AScan(now, parents) => ScanProgress(ws[i], now, parents);
    case ADeliver => DeliverProgress(ws[i]);
  }

  /** Requests from outside add no work once a stop was requested. */
  lemma StopAddsNoWork(ws: seq<World>, acts: seq<Action>, i: nat)
    requires IsRun(ws, acts) && i < |acts| && ws[i].exec.stopping && !ThreadAction(acts[i])
    ensures Known(ws[i].exec) && Known(ws[i + 1].exec) && Remaining(ws[i + 1]) == Remaining(ws[i])
  {
    RunCore(ws, acts, i);
    assert StepAt(ws, acts, i);
    match acts[i]
    case AOpen =>
    case ASubmit(_, _, _, _, _, _) =>
    case ACancel(id, now) => assert TaskOk(ws[i].exec, id);
    case AStop(now, parents) => StopShape(ws[i].exec, now, parents);
        SumSame(ws[i].exec.info, ws[i + 1].exec.info, ws[i].exec.tasks, None);
  }

  ghost predicate Advances(w: World, a: Action) {
    && ThreadAction(a) && Enabled(w, a) && Known(w.exec) && Known(Apply(w, a).exec)
    && Remaining(Apply(w, a)) < Remaining(w)
  }

  lemma DeliverAdvances(w: World)
    requires Core(w.exec) && Threads(w) && w.coordinator.Delivering?
    ensures Advances(w, ADeliver)
  {
    Live(w.exec, w.coordinator.id);
    DeliverProgress(w);
  }

  lemma ScanAdvances(w: World, i: nat)
    requires Core(w.exec) && w.coordinator.Scanning? && i < |w.exec.tasks|
    requires var t := w.exec.info[w.exec.tasks[i]]; t.phase.Queued? && t.reason != Ok && !t.signalSent
    ensures Advances(w, AScan(0, {}))
  {
    ScanReady(w.exec);
    assert Due(w.exec.info[w.exec.tasks[i]], 0, w.exec.tasks[i] in {});
    ScanProgress(w, 0, {});
  }

  /** A cancelled queued task is handled: the coordinator delivers what it took, or its next scan acts. */
  lemma CoordinatorAdvances(w: World, id: Id)
    requires Core(w.exec) && Threads(w) && id in w.exec.info && w.exec.info[id].phase.Queued?
    requires w.exec.info[id].reason != Ok
    ensures exists a :: Advances(w, a)
  {
    assert TaskOk(w.exec, id);
    if w.coordinator.Delivering? {
      DeliverAdvances(w);
    } else {
      var i :| 0 <= i < |w.exec.tasks| && w.exec.tasks[i] == id;
      ScanAdvances(w, i);
    }
  }

  lemma JobAdvances(w: World, t: nat)
    requires Core(w.exec) && Threads(w) && t in w.workers && (w.workers[t].Job? || w.workers[t].Publishing?)
    ensures exists a :: Advances(w, a)
  {
    HandledPhase(w, t);
    Live(w.exec, w.workers[t].id);
    if w.workers[t].Job? {
      FinishWork(w, t, Ok, 0, false);
      assert Advances(w, AFinish(t, Ok, 0, false));
    } else {
      PublishProgress(w, t);
      assert Advances(w, APublish(t));
    }
  }

  lemma OwnerAdvances(w: World, id: Id)
    requires Core(w.exec) && Threads(w) && id in w.exec.info
    requires (w.exec.info[id].phase.Running? || w.exec.info[id].phase.Completing?)
    ensures exists a :: Advances(w, a)
  {
    assert TaskOk(w.exec, id) && Owned(w, id);
    if w.exec.info[id].owner.Worker? {
      JobAdvances(w, w.exec.info[id].owner.w);
    } else {
      DeliverAdvances(w);
    }
  }

  /** With no live task left, the coordinator leaves and so does every worker. */
  lemma LastAdvances(w: World)
    requires Core(w.exec) && Threads(w) && w.exec.stopping && w.exec.tasks == [] && Remaining(w) > 0
    ensures exists a :: Advances(w, a)
  {
    if w.coordinator.Scanning? {
      assert ScanStep(w, 0, {}) == w.(coordinator := Done);
      assert Advances(w, AScan(0, {}));
    } else {
      assert w.coordinator.Done? by { if w.coordinator.Delivering? { Live(w.exec, w.coordinator.id); } }
      assert Present(w.workers) != {};
      var t :| t in Present(w.workers);
      HandledPhase(w, t);
      if w.workers[t].Job? || w.workers[t].Publishing? { Live(w.exec, w.workers[t].id); }
      ExitProgress(w, t);
      assert Advances(w, AExit(t));
    }
  }

  /**
    Until the executor has ended, some thread can take a step that decreases the remaining work, so a stop never stalls.
   */
  lemma StopNeverStalls(ws: seq<World>, acts: seq<Action>, i: nat)
    requires IsRun(ws, acts) && i < |ws| && ws[i].exec.stopping
    ensures Known(ws[i].exec) && 0 <= Remaining(ws[i])
    ensures Remaining(ws[i]) > 0 ==> exists a :: Advances(ws[i], a)
  {
    var w := ws[i];
    RunCore(ws, acts, i);
    SumCounts(w.exec.info, w.exec.tasks, None);
    if Remaining(w) > 0 {
      if w.exec.tasks == [] {
        LastAdvances(w);
      } else {
        var id := w.exec.tasks[0];
        assert id in w.exec.tasks && TaskOk(w.exec, id);
        if w.exec.info[id].phase.Queued? { CoordinatorAdvances(w, id); } else { OwnerAdvances(w, id); }
      }
    }
  }

  /** A task that is not completing carries a reason once a stop was requested. */
  lemma StopReachesEveryTask(ws: seq<World>, acts: seq<Action>, i: nat, id: Id)
    requires IsRun(ws, acts) && i < |ws| && ws[i].exec.stopping && id in ws[i].exec.info
    requires ws[i].exec.info[id].phase.Queued? || ws[i].exec.info[id].phase.Running?
    ensures ws[i].exec.info[id].reason != Ok
  {
    RunCore(ws, acts, i);
    assert TaskOk(ws[i].exec, id);
  }

  lemma NoKeys(e: Exec)
    requires Totals(e) && e.tasks == []
    ensures e.keys == map[]
  {
    assert forall k :: k in e.keys ==> KeyTotals(e, k);
  }

  /**
    When the coordinator has left, no live task, key or charge remains: each accepted task was published exactly once,
    and a task that was ever given a reason ended with that reason.
   */
  lemma DrainedExactlyOnce(ws: seq<World>, acts: seq<Action>, i: nat, id: Id)
    requires IsRun(ws, acts) && i < |ws| && ws[i].coordinator.Done?
    ensures var e := ws[i].exec;
      e.stopping && e.tasks == [] && e.keys == map[] && e.outstanding == e.retained == e.pending == e.running == 0
    ensures var e := ws[i].exec; e.published[id] == if id < e.next then 1 else 0
    ensures var e := ws[i].exec; id < e.next ==> id in e.info && e.info[id].phase.Terminal?
    ensures var e := ws[i].exec; id < e.next && e.info[id].reason != Ok ==> e.info[id].result == e.info[id].reason
  {
    RunSafe(ws, acts, i);
    var e := ws[i].exec;
    if id in e.info { assert TaskOk(e, id); }
    NoKeys(e);
  }

  /** At every moment a task has at most one result, and it has one exactly when it is terminal. */
  lemma AtMostOneResult(ws: seq<World>, acts: seq<Action>, i: nat, id: Id)
    requires IsRun(ws, acts) && i < |ws|
    ensures ws[i].exec.published[id] <= 1
    ensures ws[i].exec.published[id] == 1 <==> id in ws[i].exec.info && ws[i].exec.info[id].phase.Terminal?
  {
    RunSafe(ws, acts, i);
    if id !in ws[i].exec.info { assert id !in ws[i].exec.published; }
  }
}
