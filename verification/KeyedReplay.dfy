/** The executor object driven through any run: the linked ready list is well formed at every position. */
module KeyedReplay {
  import opened Common
  import opened KeyedExecutor
  import opened KeyedList
  import opened KeyedRuns
  import opened KeyedSafety
  import opened KeyedState
  import opened KeyedTable

  /** The executor and what each of its threads remembers between two sections. */
  class KeyedSystem {
    const exec: KeyedExecutorState
    var workers: map<nat, WorkerPc>
    var coordinator: CoordinatorPc

    constructor (o: Options, idle: map<nat, WorkerPc>)
      ensures exec.Valid() && Now() == World(Empty(o), idle, Scanning)
      ensures fresh(exec) && fresh(exec.table) && fresh(exec.table.list) && fresh(exec.table.nodes)
    {
      exec := new KeyedExecutorState(o);
      workers, coordinator := idle, Scanning;
    }

    ghost function Now(): World
      reads this, exec
    {
      World(exec.View(), workers, coordinator)
    }

    /** Calls from outside. */
    method Outside(a: Action)
      requires exec.Valid() && Safe(Now()) && Enabled(Now(), a) && (a.AOpen? || a.ASubmit? || a.ACancel? || a.AStop?)
      modifies exec, exec.table, exec.table.list, exec.table.nodes
      ensures exec.Valid() && Now() == Apply(old(Now()), a) && fresh(exec.table.nodes - old(exec.table.nodes))
    {
      hide Safe, KeyedExecutorState.Valid, Known, Rising, Admission, Admit, Cancel, RequestStop;
      StopFacts(Now());
      match a
      case AOpen => exec.OpenForWork();
      case ASubmit(k, bytes, deadline, early, now, parent) => var _ := exec.Submit(k, bytes, deadline, early, now, parent);
      case ACancel(id, now) => var _ := exec.CancelTask(id, now);
      case AStop(now, parents) => exec.StopAll(now, parents);
    }

    /** A worker's sections. */
    method Work(a: Action)
      requires exec.Valid() && Safe(Now()) && Enabled(Now(), a) && (a.APick? || a.AExit? || a.AFinish? || a.APublish?)
      modifies this`workers, exec, exec.table`keys, exec.table.list, exec.table.nodes
      ensures exec.Valid() && Now() == Apply(old(Now()), a)
    {
      hide Safe, KeyedExecutorState.Valid;
      match a
      case APick(t, now, parent) =>
        var task := exec.Pick(t, now, parent);
        if task.Some? { workers := workers[t := Job(task.value)]; }
      case AExit(t) => workers := workers[t := Exited];
      case AFinish(t, result, now, parent) =>
        var id := workers[t].id;
        var reason := exec.Finish(id, now, parent);
        workers := workers[t := Publishing(id, if reason != Ok then reason else result)];
      case APublish(t) =>
        exec.PublishTask(workers[t].id, workers[t].code, true);
        workers := workers[t := Idle];
    }

    /** The coordinator's sections. */
    method Coordinate(a: Action)
      requires exec.Valid() && Safe(Now()) && Enabled(Now(), a) && (a.AScan? || a.ADeliver?)
      modifies this`coordinator, exec, exec.table`keys, exec.table.list, exec.table.nodes
      ensures exec.Valid() && Now() == Apply(old(Now()), a)
    {
      hide Safe, KeyedExecutorState.Valid, Known, Located, Publish, SignalRunning, IsWake, KeyedTable.KeyTable.Valid;
      ScanFacts(Now());
      match a
      case AScan(now, parents) =>
        var selected, queued, _ := exec.Scan(now, parents);
        if selected.Some? {
          if queued { coordinator := Delivering(selected.value, exec.info[selected.value].reason); }
        } else if exec.stopping && exec.tasks == [] {
          coordinator := Done;
        }
      case ADeliver =>
        exec.PublishTask(coordinator.id, coordinator.code, false);
        coordinator := Scanning;
    }

    /** Any run, played on the object, keeps the nodes and links in step with the run. */
    method Replay(acts: seq<Action>, ghost ws: seq<World>)
      requires IsRun(ws, acts) && exec.Valid() && Now() == ws[0]
      modifies this, exec, exec.table, exec.table.list, exec.table.nodes
      ensures exec.Valid() && Now() == ws[|acts|] && fresh(exec.table.nodes - old(exec.table.nodes))
      ensures WellLinked(exec.table, ws[|acts|].exec)
    {
      hide Safe, KeyedExecutorState.Valid, IsRun, StepAt, Apply, Enabled, WellLinked;
      RunLength(ws, acts);
      for i := 0 to |acts|
        invariant exec.Valid() && Now() == ws[i] && fresh(exec.table.nodes - old(exec.table.nodes))
      {
        RunStepOf(ws, acts, i);
        var a := acts[i];
        if a.AOpen? || a.ASubmit? || a.ACancel? || a.AStop? {
          Outside(a);
        } else if a.AScan? || a.ADeliver? {
          Coordinate(a);
        } else {
          Work(a);
        }
      }
      Links(ws, acts);
    }

    lemma Links(ws: seq<World>, acts: seq<Action>)
      requires IsRun(ws, acts) && exec.Valid() && Now() == ws[|acts|]
      ensures WellLinked(exec.table, ws[|acts|].exec)
    {
      forall i | 0 <= i < |exec.table.list.order| ensures WorksAt(exec.table, i) {
        assert exec.table.list.Linked(i);
        var k := exec.table.list.order[i].name;
        assert exec.readyKeys[i] == k;
        ReadyListWellFormed(ws, acts, |acts|, k);
      }
    }
  }

  /** The node at a place of the list belongs to a live idle key that has work. */
  ghost predicate WorksAt(t: KeyTable, i: nat)
    requires i < |t.list.order|
    reads t, t.list, t.nodes, t.list.nodes
  {
    var node := t.list.order[i];
    && t.Holds(node) && node in t.list.nodes && !node.record.busy && node.record.queued != []
    && node.record.outstanding > 0
  }

  /**
    Head, tail and both links of every node spell out the run's ready list, and every listed node is a live idle key
    with work.
   */
  ghost predicate WellLinked(t: KeyTable, e: Exec)
    reads t, t.list, t.nodes, t.list.nodes
  {
    && t.list.Valid() && Names(t.list.order) == e.readyKeys
    && (forall i :: 0 <= i < |t.list.order| ==> WorksAt(t, i))
    && (forall k :: k in t.keys ==> t.keys[k] in t.nodes && (t.keys[k].ready <==> t.keys[k] in t.list.nodes))
  }

  lemma RunLength(ws: seq<World>, acts: seq<Action>)
    requires IsRun(ws, acts)
    ensures |ws| == |acts| + 1
  {
  }

  lemma RunStepOf(ws: seq<World>, acts: seq<Action>, i: nat)
    requires IsRun(ws, acts) && i < |acts|
    ensures Safe(ws[i]) && Enabled(ws[i], acts[i]) && ws[i + 1] == Apply(ws[i], acts[i])
  {
    hide Safe, Apply, Enabled;
    RunSafe(ws, acts, i);
    assert StepAt(ws, acts, i);
  }

  lemma StopFacts(w: World)
    requires Safe(w)
    ensures Known(w.exec) && Rising(w.exec.tasks)
  {
  }

  lemma ScanFacts(w: World)
    requires Safe(w)
    ensures Known(w.exec)
    ensures forall id :: id in w.exec.tasks && w.exec.info[id].signalSent ==> w.exec.info[id].reason != Ok
  {
    forall id | id in w.exec.tasks && w.exec.info[id].signalSent ensures w.exec.info[id].reason != Ok {
      assert TaskOk(w.exec, id);
    }
  }
}
