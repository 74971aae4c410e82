/** Why a task is cancelled, when it is started and whom the coordinator turns to, told from the task's side. */
module KeyedReasons {
  import opened Common
  import opened KeyedExecutor
  import opened KeyedSafety
  import opened KeyedRuns
  import opened KeyedDrain

  predicate Passed(deadline: Option<int>, now: int) { deadline.Some? && deadline.value <= now }

  /** What a step means for one task: a look at its deadline and its parent token, or a request to cancel it. */
  datatype Notice = Nothing | Look(now: int, parent: bool) | Ask(now: int)

  function Heard(deadline: Option<int>, n: Notice): ErrorCode {
    match n
    case Nothing => Ok
    case Look(now, parent) => if Passed(deadline, now) then Timeout else if parent then Cancelled else Ok
    case Ask(now) => if Passed(deadline, now) then Timeout else Cancelled
  }

  /** The coordinator owes `t` a signal. */
  predicate Overdue(t: Task, now: int, parent: bool) {
    !t.phase.Completing? && !t.signalSent && (t.reason != Ok || Passed(t.deadline, now) || parent)
  }

  /** `id` is the oldest live task the coordinator owes a signal. */
  ghost predicate FirstOverdue(e: Exec, now: int, parents: set<Id>, id: Id) {
    && id in e.tasks && id in e.info && Overdue(e.info[id], now, id in parents)
    && forall x :: x in e.tasks && x in e.info && x < id ==> !Overdue(e.info[x], now, x in parents)
  }

  /** `id` is the oldest waiting task of the key that has been ready longest. */
  predicate AtHead(e: Exec, id: Id) {
    && e.readyKeys != [] && e.readyKeys[0] in e.keys && e.keys[e.readyKeys[0]].queued != []
    && e.keys[e.readyKeys[0]].queued[0] == id
  }

  ghost function NoticeOf(w: World, a: Action, id: Id): Notice {
    match a
    case ACancel(x, now) => if x == id then Ask(now) else Nothing
    case AStop(now, _) => Ask(now)
    case APick(_, now, parent) => if AtHead(w.exec, id) then Look(now, parent) else Nothing
    case AFinish(t, _, now, parent) => if t in w.workers && w.workers[t] == Job(id) then Look(now, parent) else Nothing
    case AScan(now, parents) => if FirstOverdue(w.exec, now, parents, id) then Look(now, id in parents) else Nothing
    case _ => Nothing
  }

  /** A task's reason after a step, from its reason before and what the step tells it. */
  ghost predicate Follows(w: World, a: Action, w2: World, id: Id)
    requires id in w.exec.info
  {
    var t := w.exec.info[id];
    && id in w2.exec.info
    && w2.exec.info[id].reason ==
         if t.reason != Ok || t.phase.Completing? || t.phase.Terminal? then t.reason
         else Heard(t.deadline, NoticeOf(w, a, id))
  }

  lemma CallFollows(w: World, a: Action, id: Id)
    requires Core(w.exec) && Enabled(w, a) && (a.AOpen? || a.ASubmit? || a.ACancel?) && id in w.exec.info
    ensures Follows(w, a, Apply(w, a), id)
  {
    assert TaskOk(w.exec, id);
  }

  lemma StopFollows(w: World, a: Action, id: Id)
    requires Core(w.exec) && a.AStop? && id in w.exec.info
    ensures Follows(w, a, Apply(w, a), id)
  {
    assert TaskOk(w.exec, id);
  }

  lemma PickInfo(w: World, t: nat, now: int, parent: bool)
    requires CanPick(w.exec)
    ensures var e2, id := PickStep(w, t, now, parent).exec, KeyedExecutor.Front(w.exec);
      e2.info == w.exec.info[id := e2.info[id]] && e2.info[id].reason == Offered(w.exec, now, parent).reason
  {
  }

  lemma PickFollows(w: World, a: Action, id: Id)
    requires Core(w.exec) && Enabled(w, a) && (a.APick? || a.AExit?) && id in w.exec.info
    ensures Follows(w, a, Apply(w, a), id)
  {
    hide PickStep, Core, TaskOk, SlotOk;
    if a.APick? {
      PickFacts(w.exec);
      PickInfo(w, a.w, a.now, a.parent);
    }
  }

  lemma JobFollows(w: World, a: Action, id: Id)
    requires Threads(w) && Enabled(w, a) && (a.AFinish? || a.APublish?) && id in w.exec.info
    ensures Follows(w, a, Apply(w, a), id)
  {
    HandledPhase(w, a.w);
    if a.APublish? { PublishFrame(w.exec, w.workers[a.w].id, w.workers[a.w].code, true); }
    hide Publish;
  }

  lemma DeliverFollows(w: World, id: Id)
    requires Threads(w) && Enabled(w, ADeliver) && id in w.exec.info
    ensures Follows(w, ADeliver, Apply(w, ADeliver), id)
  {
    PublishFrame(w.exec, w.coordinator.id, w.coordinator.code, false);
    hide Publish;
  }

  lemma DueIsOverdue(e: Exec, now: int, parents: set<Id>, id: Id)
    requires Core(e) && Known(e)
    ensures var i := FirstDue(e, now, parents, 0);
      FirstOverdue(e, now, parents, id) <==> i < |e.tasks| && e.tasks[i] == id
  {
    var i := FirstDue(e, now, parents, 0);
    if i < |e.tasks| {
      assert e.tasks[i] in e.tasks;
      forall x | x in e.tasks && x < e.tasks[i] ensures !Overdue(e.info[x], now, x in parents) {
        var j :| 0 <= j < |e.tasks| && e.tasks[j] == x;
      }
      assert FirstOverdue(e, now, parents, e.tasks[i]);
    }
    if FirstOverdue(e, now, parents, id) {
      var j :| 0 <= j < |e.tasks| && e.tasks[j] == id;
      assert i <= j;
      assert e.tasks[i] in e.tasks;
    }
  }

  /** What acting on the due task `id` does to the records. */
  lemma ActInfo(w: World, id: Id, now: int, parent: bool)
    requires Publishable(w.exec, id) && (w.exec.info[id].phase.Queued? || w.exec.info[id].phase.Running?)
    ensures var w2, t := ActStep(w, id, now, parent), w.exec.info[id];
      && w2.exec.info.Keys == w.exec.info.Keys && w2.exec.next == w.exec.next
      && (forall x :: x in w.exec.info && x != id ==> w2.exec.info[x] == w.exec.info[x])
      && w2.exec.info[id].reason == (if t.reason != Ok then t.reason else Heard(t.deadline, Look(now, parent)))
      && w2.exec.info[id].signalSent
      && (if t.phase.Queued?
          then w2.coordinator == Delivering(id, w2.exec.info[id].reason) && w2.exec.info[id].phase.Completing?
          else w2.coordinator == w.coordinator && w2.exec.info[id].phase.Running?)
  {
    TakeBudgets(w.exec, id, now, parent);
    TakeFrame(w.exec, id, now, parent);
    hide TakeQueued;
  }

  lemma ScanFollows(w: World, a: Action, id: Id)
    requires Core(w.exec) && Enabled(w, a) && a.AScan? && id in w.exec.info
    ensures Follows(w, a, Apply(w, a), id)
  {
    DueIsOverdue(w.exec, a.now, a.parents, id);
    var i := FirstDue(w.exec, a.now, a.parents, 0);
    if i < |w.exec.tasks| {
      ScanFinds(w.exec, a.now, a.parents);
      ActInfo(w, w.exec.tasks[i], a.now, w.exec.tasks[i] in a.parents);
    }
    hide FirstOverdue, ActStep, Core;
  }

  lemma StepFollows(w: World, a: Action, id: Id)
    requires Core(w.exec) && Threads(w) && Enabled(w, a) && id in w.exec.info
    ensures Follows(w, a, Apply(w, a), id)
  {
    hide Follows, Core, Threads;
    match a
    case AScan(_, _) => ScanFollows(w, a, id);
    case ADeliver => DeliverFollows(w, id);
    case APick(_, _, _) => PickFollows(w, a, id);
    case AExit(_) => PickFollows(w, a, id);
    case AFinish(_, _, _, _) => JobFollows(w, a, id);
    case APublish(_) => JobFollows(w, a, id);
    case AStop(_, _) => StopFollows(w, a, id);
    case _ => CallFollows(w, a, id);
  }

  /**
    A task's reason is the first one it is told of: a step changes it exactly when the task still has none, is not
    completing, and the step finds its deadline passed, its parent token set, or asks to cancel it.
   */
  lemma ReasonHasItsCause(ws: seq<World>, acts: seq<Action>, i: nat, id: Id)
    requires IsRun(ws, acts) && i < |acts| && id in ws[i].exec.info
    ensures Follows(ws[i], acts[i], ws[i + 1], id)
  {
    hide Follows;
    RunCore(ws, acts, i);
    assert StepAt(ws, acts, i);
    StepFollows(ws[i], acts[i], id);
  }

  /** A new task: what it carries, and with which reason it is born. */
  lemma AdmittedAsPassed(ws: seq<World>, acts: seq<Action>, i: nat)
    requires IsRun(ws, acts) && i < |acts| && ws[i + 1].exec.next != ws[i].exec.next
    ensures acts[i].ASubmit?
    ensures var a, id, e := acts[i], ws[i].exec.next, ws[i + 1].exec;
      && e.next == id + 1 && id in e.info && e.info[id].key == a.key && e.info[id].bytes == a.bytes
      && e.info[id].deadline == a.deadline && e.info[id].phase.Queued?
      && e.info[id].reason == if a.early != Ok then a.early else Heard(a.deadline, Look(a.now, a.parent))
  {
    RunCore(ws, acts, i);
    assert StepAt(ws, acts, i);
    if !acts[i].ASubmit? { NextOnlySubmits(ws[i], acts[i]); }
  }

  lemma PublishNext(e: Exec, id: Id, result: ErrorCode, occupied: bool)
    requires Publishable(e, id)
    ensures Publish(e, id, result, occupied).next == e.next
  {
  }

  lemma NextOnlySubmits(w: World, a: Action)
    requires Core(w.exec) && Enabled(w, a) && !a.ASubmit?
    ensures Apply(w, a).exec.next == w.exec.next
  {
    hide Core, Publish;
    match a
    case APublish(t) => PublishNext(w.exec, w.workers[t].id, w.workers[t].code, true);
    case ADeliver => PublishNext(w.exec, w.coordinator.id, w.coordinator.code, false);
    case AScan(now, parents) =>
      var i := FirstDue(w.exec, now, parents, 0);
      if i < |w.exec.tasks| {
        ScanFinds(w.exec, now, parents);
        ActInfo(w, w.exec.tasks[i], now, w.exec.tasks[i] in parents);
      }
      hide ActStep;
    case _ =>
  }

  /**
    A worker that looks for work gets the oldest waiting task of the key that has been ready longest, exactly when that
    task has no reason, its deadline has not passed and its parent token is not set; otherwise it stays idle.
   */
  lemma StartsOnlyUncancelled(ws: seq<World>, acts: seq<Action>, i: nat)
    requires IsRun(ws, acts) && i < |acts| && acts[i].APick?
    ensures exists id :: AtHead(ws[i].exec, id)
    ensures forall id :: AtHead(ws[i].exec, id) ==>
      var a, t := acts[i], ws[i].exec.info;
      && id in t && a.w in ws[i + 1].workers && a.w in ws[i].workers
      && (ws[i + 1].workers[a.w] == Job(id) <==> t[id].reason == Ok && Heard(t[id].deadline, Look(a.now, a.parent)) == Ok)
      && (ws[i + 1].workers[a.w] == Job(id) || ws[i + 1].workers[a.w] == ws[i].workers[a.w])
  {
    assert StepAt(ws, acts, i);
    assert AtHead(ws[i].exec, KeyedExecutor.Front(ws[i].exec));
  }

  /**
    The coordinator's scan turns to the oldest live task it owes a signal: a waiting one is taken to be published with
    its reason, a running one is signalled.  With none, it leaves exactly when a stop was requested and no task is live.
   */
  lemma ScanServesTheOldest(ws: seq<World>, acts: seq<Action>, i: nat, id: Id)
    requires IsRun(ws, acts) && i < |acts| && acts[i].AScan?
    ensures var a, w, w2 := acts[i], ws[i], ws[i + 1];
      FirstOverdue(w.exec, a.now, a.parents, id) ==>
        && id in w2.exec.info && w2.exec.info[id].signalSent
        && (w.exec.info[id].phase.Queued? ==> w2.coordinator == Delivering(id, w2.exec.info[id].reason))
        && (w.exec.info[id].phase.Queued? ==> w2.exec.info[id].phase.Completing?)
        && (!w.exec.info[id].phase.Queued? ==> w2.coordinator.Scanning? && w2.exec.info[id].phase.Running?)
    ensures var a, w, w2 := acts[i], ws[i], ws[i + 1];
      (forall x :: !FirstOverdue(w.exec, a.now, a.parents, x)) ==>
        w2 == if w.exec.stopping && w.exec.tasks == [] then w.(coordinator := Done) else w
  {
    RunCore(ws, acts, i);
    assert StepAt(ws, acts, i);
    ScanServes(ws[i], acts[i], id);
  }

  lemma ScanServes(w: World, a: Action, id: Id)
    requires Core(w.exec) && Enabled(w, a) && a.AScan?
    ensures var w2 := Apply(w, a);
      FirstOverdue(w.exec, a.now, a.parents, id) ==>
        && id in w2.exec.info && w2.exec.info[id].signalSent
        && (w.exec.info[id].phase.Queued? ==> w2.coordinator == Delivering(id, w2.exec.info[id].reason))
        && (w.exec.info[id].phase.Queued? ==> w2.exec.info[id].phase.Completing?)
        && (!w.exec.info[id].phase.Queued? ==> w2.coordinator.Scanning? && w2.exec.info[id].phase.Running?)
    ensures var w2 := Apply(w, a);
      (forall x :: !FirstOverdue(w.exec, a.now, a.parents, x)) ==>
        w2 == if w.exec.stopping && w.exec.tasks == [] then w.(coordinator := Done) else w
  {
    var i := FirstDue(w.exec, a.now, a.parents, 0);
    DueIsOverdue(w.exec, a.now, a.parents, id);
    if i < |w.exec.tasks| {
      DueIsOverdue(w.exec, a.now, a.parents, w.exec.tasks[i]);
      ScanFinds(w.exec, a.now, a.parents);
      ActInfo(w, w.exec.tasks[i], a.now, w.exec.tasks[i] in a.parents);
    }
    hide ActStep, Core, FirstOverdue;
  }

  // Who is admitted.

  /** Room for one more task of `bytes` under key `k`, over the live tasks. */
  ghost predicate Room(e: Exec, k: Key, bytes: nat)
    requires Known(e)
  {
    && |e.tasks| < e.options.maxTasks && Sum(e.info, e.tasks, None).bytes + bytes <= e.options.maxBytes
    && (if k in e.keys
        then Sum(e.info, e.tasks, Some(k)).count < e.options.maxTasksPerKey
             && Sum(e.info, e.tasks, Some(k)).bytes + bytes <= e.options.maxBytesPerKey
        else |e.keys| < e.options.maxKeys)
  }

  /**
    A submission is admitted if and only if it fits the limits by itself, the executor is open and there is room beside
    the live tasks; each refusal has its own code, and a key is in the table exactly while it has a live task.
   */
  lemma AdmittedIff(ws: seq<World>, acts: seq<Action>, i: nat, k: Key, bytes: nat)
    requires IsRun(ws, acts) && i < |ws|
    ensures Known(ws[i].exec)
    ensures var e := ws[i].exec;
      Admission(e, k, bytes) ==
        if bytes > e.options.maxBytes || bytes > e.options.maxBytesPerKey then TooLarge
        else if !e.open || e.stopping then Closed
        else if Room(e, k, bytes) then Ok else WouldBlock
    ensures k in ws[i].exec.keys <==> exists id :: id in ws[i].exec.tasks && ws[i].exec.info[id].key == k
  {
    RunSafe(ws, acts, i);
    var e := ws[i].exec;
    SumCounts(e.info, e.tasks, None);
    if k in e.keys {
      assert KeyTotals(e, k) && SlotOk(e, k);
      KeyIsUsed(e, k);
    }
    forall id | id in e.tasks && e.info[id].key == k ensures k in e.keys { assert TaskOk(e, id); }
  }

  lemma {:induction false} SomeCounted(info: map<Id, Task>, s: seq<Id>, k: Key)
    requires (forall x :: x in s ==> x in info) && Sum(info, s, Some(k)).count > 0
    ensures exists id :: id in s && info[id].key == k
  {
    if s != [] && info[s[|s| - 1]].key != k {
      SomeCounted(info, s[..|s| - 1], k);
      var id :| id in s[..|s| - 1] && info[id].key == k;
      assert id in s;
    }
  }

  lemma KeyIsUsed(e: Exec, k: Key)
    requires Known(e) && k in e.keys && KeyTotals(e, k)
    ensures exists id :: id in e.tasks && e.info[id].key == k
  {
    SomeCounted(e.info, e.tasks, k);
  }
}
