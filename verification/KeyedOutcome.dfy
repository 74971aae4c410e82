/** What becomes of one task: the result its caller reads, the reason it was cancelled for, and who was admitted. */
module KeyedOutcome {
  import opened Common
  import opened KeyedExecutor
  import opened KeyedSafety
  import opened KeyedRuns
  import opened KeyedDrain

  // The result of a job nobody cancelled.

  /** The job of `id` returns to its worker. */
  predicate Finishes(w: World, a: Action, id: Id) {
    a.AFinish? && a.w in w.workers && w.workers[a.w] == Job(id)
  }

  /** The job of `id` returned `code`. */
  ghost predicate Returned(ws: seq<World>, acts: seq<Action>, i: nat, id: Id, code: ErrorCode)
    requires i <= |acts| < |ws|
  {
    exists j :: 0 <= j < i && Finishes(ws[j], acts[j], id) && acts[j].result == code
  }

  lemma ReturnedLater(ws: seq<World>, acts: seq<Action>, i: nat, id: Id, code: ErrorCode)
    requires i < |acts| < |ws|
    requires Returned(ws, acts, i, id, code) || (Finishes(ws[i], acts[i], id) && acts[i].result == code)
    ensures Returned(ws, acts, i + 1, id, code)
  {
  }

  /** What worker `t` is about to publish for a task nobody cancelled is what its job returned. */
  ghost predicate Holds(ws: seq<World>, acts: seq<Action>, i: nat, t: nat)
    requires i <= |acts| < |ws|
  {
    var w := ws[i];
    t in w.workers && w.workers[t].Publishing? && w.workers[t].id in w.exec.info && w.exec.info[w.workers[t].id].reason == Ok ==>
      Returned(ws, acts, i, w.workers[t].id, w.workers[t].code)
  }

  ghost predicate Ended(ws: seq<World>, acts: seq<Action>, i: nat, id: Id)
    requires i <= |acts| < |ws|
  {
    var e := ws[i].exec;
    id in e.info && e.info[id].phase.Terminal? && e.info[id].reason == Ok ==>
        Returned(ws, acts, i, id, e.info[id].result)
  }

  ghost predicate Faithful(ws: seq<World>, acts: seq<Action>, i: nat)
    requires i <= |acts| < |ws|
  {
    && (forall t :: t in ws[i].workers ==> Holds(ws, acts, i, t))
    && (forall id :: id in ws[i].exec.info ==> Ended(ws, acts, i, id))
  }

  /** A step moves a worker, or ends a task, only by a finish or a publication. */
  ghost predicate Moved(w: World, a: Action, w2: World) {
    && (forall t :: t in w2.workers && w2.workers[t].Publishing? ==>
          || (t in w.workers && w2.workers[t] == w.workers[t])
          || (a.AFinish? && a.w == t && t in w.workers && w.workers[t] == Job(w2.workers[t].id)
              && w2.workers[t].id in w2.exec.info
              && (w2.exec.info[w2.workers[t].id].reason == Ok ==> w2.workers[t].code == a.result)))
    && (forall id :: id in w2.exec.info && w2.exec.info[id].phase.Terminal? ==>
          || (id in w.exec.info && w.exec.info[id].phase.Terminal?)
          || (a.APublish? && a.w in w.workers && w.workers[a.w] == Publishing(id, w2.exec.info[id].result))
          || w2.exec.info[id].reason != Ok)
  }

  lemma PublishMoves(e: Exec, id: Id, result: ErrorCode, occupied: bool)
    requires Publishable(e, id)
    ensures var e2 := Publish(e, id, result, occupied);
      e2.info == e.info[id := e.info[id].(phase := Terminal, result := result)]
  {
    PublishFrame(e, id, result, occupied);
  }

  lemma ScanMoves(w: World, now: int, parents: set<Id>)
    requires Core(w.exec) && Known(w.exec) && Located(w.exec)
    ensures Moved(w, AScan(now, parents), ScanStep(w, now, parents))
  {
    var i := FirstDue(w.exec, now, parents, 0);
    if i < |w.exec.tasks| {
      ScanFinds(w.exec, now, parents);
      TakeBudgets(w.exec, w.exec.tasks[i], now, w.exec.tasks[i] in parents);
    }
  }

  /** A step of no worker's that ends no task. */
  lemma QuietMoves(w: World, a: Action, w2: World)
    requires forall t :: t in w2.workers && w2.workers[t].Publishing? ==>
      t in w.workers && w2.workers[t] == w.workers[t]
    requires forall id :: id in w2.exec.info && w2.exec.info[id].phase.Terminal? ==>
      id in w.exec.info && w.exec.info[id].phase.Terminal?
    ensures Moved(w, a, w2)
  {
  }

  lemma CallMoves(w: World, a: Action)
    requires Core(w.exec) && Enabled(w, a) && (a.AOpen? || a.ASubmit? || a.ACancel?)
    ensures Moved(w, a, Apply(w, a))
  {
    hide Moved;
    QuietMoves(w, a, Apply(w, a));
  }

  lemma StopMoves(w: World, now: int, parents: set<Id>)
    ensures Moved(w, AStop(now, parents), Apply(w, AStop(now, parents)))
  {
    hide Moved;
    QuietMoves(w, AStop(now, parents), Apply(w, AStop(now, parents)));
  }

  lemma PickMoves(w: World, a: Action)
    requires Core(w.exec) && Enabled(w, a) && (a.APick? || a.AExit?)
    ensures Moved(w, a, Apply(w, a))
  {
    hide Moved;
    if a.APick? { PickFacts(w.exec); }
    QuietMoves(w, a, Apply(w, a));
  }

  lemma JobMoves(w: World, a: Action)
    requires Threads(w) && Enabled(w, a) && (a.AFinish? || a.APublish?)
    ensures Moved(w, a, Apply(w, a))
  {
    HandledPhase(w, a.w);
    if a.APublish? { PublishMoves(w.exec, w.workers[a.w].id, w.workers[a.w].code, true); }
    hide Publish;
  }

  lemma DeliverMoves(w: World)
    requires Threads(w) && Enabled(w, ADeliver)
    ensures Moved(w, ADeliver, Apply(w, ADeliver))
  {
    PublishMoves(w.exec, w.coordinator.id, w.coordinator.code, false);
    hide Publish;
  }

  lemma StepMoves(w: World, a: Action)
    requires Core(w.exec) && Threads(w) && Enabled(w, a)
    ensures Moved(w, a, Apply(w, a))
  {
    hide Moved, Core, Threads;
    match a
    case AScan(now, parents) => ScanMoves(w, now, parents);
    case ADeliver => DeliverMoves(w);
    case AStop(now, parents) => StopMoves(w, now, parents);
    case APick(_, _, _) => PickMoves(w, a);
    case AExit(_) => PickMoves(w, a);
    case AFinish(_, _, _, _) => JobMoves(w, a);
    case APublish(_) => JobMoves(w, a);
    case _ => CallMoves(w, a);
  }

  lemma FaithfulStep(ws: seq<World>, acts: seq<Action>, i: nat)
    requires IsRun(ws, acts) && i < |acts| && Faithful(ws, acts, i)
    ensures Faithful(ws, acts, i + 1)
  {
    var w, a, w2 := ws[i], acts[i], ws[i + 1];
    assert StepAt(ws, acts, i);
    RunCore(ws, acts, i);
    StepMoves(w, a);
    StepEvolves(w, a);
    forall t | t in w2.workers ensures Holds(ws, acts, i + 1, t) { KeptHold(ws, acts, i, t); }
    forall id | id in w2.exec.info ensures Ended(ws, acts, i + 1, id) { KeptEnd(ws, acts, i, id); }
  }

  lemma KeptHold(ws: seq<World>, acts: seq<Action>, i: nat, t: nat)
    requires i < |acts| < |ws| && Faithful(ws, acts, i) && Threads(ws[i]) && t in ws[i + 1].workers
    requires Moved(ws[i], acts[i], ws[i + 1]) && AllEvolve(ws[i].exec, ws[i + 1].exec)
    ensures Holds(ws, acts, i + 1, t)
  {
    var w, a, w2 := ws[i], acts[i], ws[i + 1];
    if w2.workers[t].Publishing? && w2.workers[t].id in w2.exec.info && w2.exec.info[w2.workers[t].id].reason == Ok {
      if t in w.workers && w2.workers[t] == w.workers[t] {
        assert WorkerOk(w, t) && Holds(ws, acts, i, t);
      } else {
        assert Finishes(w, a, w2.workers[t].id);
      }
      ReturnedLater(ws, acts, i, w2.workers[t].id, w2.workers[t].code);
    }
  }

  lemma KeptEnd(ws: seq<World>, acts: seq<Action>, i: nat, id: Id)
    requires i < |acts| < |ws| && Faithful(ws, acts, i) && Threads(ws[i]) && id in ws[i + 1].exec.info
    requires Moved(ws[i], acts[i], ws[i + 1]) && AllEvolve(ws[i].exec, ws[i + 1].exec)
    ensures Ended(ws, acts, i + 1, id)
  {
    var w, a, w2 := ws[i], acts[i], ws[i + 1];
    if w2.exec.info[id].phase.Terminal? && w2.exec.info[id].reason == Ok {
      if id in w.exec.info && w.exec.info[id].phase.Terminal? {
        assert Ended(ws, acts, i, id);
      } else {
        assert WorkerOk(w, a.w) && Holds(ws, acts, i, a.w);
      }
      ReturnedLater(ws, acts, i, id, w2.exec.info[id].result);
    }
  }

  lemma RunFaithful(ws: seq<World>, acts: seq<Action>, i: nat)
    requires IsRun(ws, acts) && i < |ws|
    ensures Faithful(ws, acts, i)
  {
    hide StepAt, Faithful;
    assert Faithful(ws, acts, 0) by { InitiallyFaithful(ws, acts); }
    for j := 0 to i
      invariant Faithful(ws, acts, j)
    {
      FaithfulStep(ws, acts, j);
    }
  }

  lemma InitiallyFaithful(ws: seq<World>, acts: seq<Action>)
    requires IsRun(ws, acts)
    ensures Faithful(ws, acts, 0)
  {
  }

  lemma ReturnCompletes(ws: seq<World>, acts: seq<Action>, j: nat, id: Id)
    requires IsRun(ws, acts) && j < |acts| && Finishes(ws[j], acts[j], id)
    ensures id in ws[j].exec.info && ws[j].exec.info[id].phase.Running?
    ensures id in ws[j + 1].exec.info && ws[j + 1].exec.info[id].phase.Completing?
  {
    RunCore(ws, acts, j);
    HandledPhase(ws[j], acts[j].w);
    assert StepAt(ws, acts, j);
  }

  /** A job returns at most once. */
  lemma ReturnsOnce(ws: seq<World>, acts: seq<Action>, j: nat, k: nat, id: Id)
    requires IsRun(ws, acts) && j < |acts| && k < |acts| && Finishes(ws[j], acts[j], id) && Finishes(ws[k], acts[k], id)
    ensures j == k
  {
    hide StepAt;
    ReturnCompletes(ws, acts, j, id);
    ReturnCompletes(ws, acts, k, id);
    if j < k {
      WrittenOnce(ws, acts, j + 1, k, id);
    } else if k < j {
      WrittenOnce(ws, acts, k + 1, j, id);
    }
  }

  /**
    The result of a task nobody cancelled is what its job returned: exactly one return of that job came before, and
    the result is its code.
   */
  lemma ResultIsTheJobs(ws: seq<World>, acts: seq<Action>, i: nat, id: Id)
    requires IsRun(ws, acts) && i < |ws| && id in ws[i].exec.info
    requires ws[i].exec.info[id].phase.Terminal? && ws[i].exec.info[id].reason == Ok
    ensures exists j :: 0 <= j < i && Finishes(ws[j], acts[j], id) && acts[j].result == ws[i].exec.info[id].result
    ensures forall j, k :: 0 <= j < |acts| && 0 <= k < |acts| && Finishes(ws[j], acts[j], id) && Finishes(ws[k], acts[k], id) ==>
      j == k
  {
    RunFaithful(ws, acts, i);
    assert Ended(ws, acts, i, id);
    forall j, k | 0 <= j < |acts| && 0 <= k < |acts| && Finishes(ws[j], acts[j], id) && Finishes(ws[k], acts[k], id)
      ensures j == k
    {
      ReturnsOnce(ws, acts, j, k, id);
    }
  }
}
