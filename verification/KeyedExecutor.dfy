/** Data model and lock-held sections of the keyed executor: one section per critical region of the scheduler mutex. */
module KeyedExecutor {
  import opened Common

  type Key = nat
  /** Tasks are named by their position in admission order. */
  type Id = nat

  datatype Options = Options(maxKeys: nat, maxTasks: nat, maxBytes: nat, maxTasksPerKey: nat, maxBytesPerKey: nat)

  predicate ValidOptions(o: Options) {
    0 < o.maxKeys && 0 < o.maxTasks && 0 < o.maxBytes && 0 < o.maxTasksPerKey && 0 < o.maxBytesPerKey
  }

  datatype Phase = Queued | Running | Completing | Terminal

  /** Which thread is responsible for a task; history only, no section branches on it. */
  datatype Owner = Nobody | Worker(w: nat) | Coordinator

  datatype Task = Task(key: Key, bytes: nat, deadline: Option<int>, phase: Phase, reason: ErrorCode, signalSent: bool,
      owner: Owner, result: ErrorCode)

  /** `holder` is history: the task that makes the key busy. */
  datatype Slot = Slot(queued: seq<Id>, outstanding: int, bytes: int, busy: bool, ready: bool, holder: Option<Id>)

  /** `info` keeps every accepted task; `next`, `started` and `published` are history. */
  datatype Exec = Exec(
    options: Options, keys: map<Key, Slot>, tasks: seq<Id>, info: map<Id, Task>, readyKeys: seq<Key>, open: bool, stopping: bool,
    pending: int, running: int, outstanding: int, retained: int, next: Id, started: seq<Id>, published: multiset<Id>)

  function Empty(o: Options): Exec { Exec(o, map[], [], map[], [], false, false, 0, 0, 0, 0, 0, [], multiset{}) }

  function Without(s: seq<nat>, x: nat): (r: seq<nat>)
    ensures forall y :: y in r <==> y in s && y != x
    ensures |r| <= |s|
  {
    if s == [] then [] else
    var rest := Without(s[..|s| - 1], x);
    if s[|s| - 1] == x then rest else rest + [s[|s| - 1]]
  }

  /** ObserveCancellation: a reason is written only over Ok, the deadline before the parent token. */
  function Observe(t: Task, now: int, parent: bool): Task {
    if t.reason != Ok then t
    else if t.deadline.Some? && t.deadline.value <= now then t.(reason := Timeout)
    else if parent then t.(reason := Cancelled)
    else t
  }

  function Enqueue(e: Exec, k: Key): Exec
    requires k in e.keys
  {
    var slot := e.keys[k];
    if slot.ready || slot.busy || slot.queued == [] then e
    else e.(keys := e.keys[k := slot.(ready := true)], readyKeys := e.readyKeys + [k])
  }

  function RemoveReady(e: Exec, k: Key): Exec
    requires k in e.keys
  {
    var slot := e.keys[k];
    if !slot.ready then e
    else e.(keys := e.keys[k := slot.(ready := false)], readyKeys := Without(e.readyKeys, k))
  }

  function Admission(e: Exec, k: Key, bytes: nat): ErrorCode {
    if bytes > e.options.maxBytes || bytes > e.options.maxBytesPerKey then TooLarge
    else if !e.open || e.stopping then Closed
    else if e.outstanding >= e.options.maxTasks || bytes > e.options.maxBytes - e.retained then WouldBlock
    else if k !in e.keys then (if |e.keys| >= e.options.maxKeys then WouldBlock else Ok)
    else if e.keys[k].outstanding >= e.options.maxTasksPerKey || bytes > e.options.maxBytesPerKey - e.keys[k].bytes then WouldBlock
    else Ok
  }

  function SlotOf(e: Exec, k: Key): Slot { if k in e.keys then e.keys[k] else Slot([], 0, 0, false, false, None) }

  /** The committing half of Submit. `early` is a reason the parent token may have left before admission. */
  function Admit(e: Exec, k: Key, bytes: nat, deadline: Option<int>, early: ErrorCode, now: int, parent: bool): Exec {
    var task := Observe(Task(k, bytes, deadline, Queued, early, false, Nobody, WouldBlock), now, parent);
    var slot := SlotOf(e, k);
    var slot2 := slot.(queued := slot.queued + [e.next], outstanding := slot.outstanding + 1, bytes := slot.bytes + bytes);
    Enqueue(e.(keys := e.keys[k := slot2], tasks := e.tasks + [e.next], info := e.info[e.next := task],
               outstanding := e.outstanding + 1, pending := e.pending + 1, retained := e.retained + bytes, next := e.next + 1), k)
  }

  predicate Cancellable(t: Task) { (t.phase.Queued? || t.phase.Running?) && t.reason == Ok }

  function CancelReason(t: Task, now: int): ErrorCode {
    if t.deadline.Some? && t.deadline.value <= now then Timeout else Cancelled
  }

  function Cancel(e: Exec, id: Id, now: int): Exec
    requires id in e.info
  {
    var t := e.info[id];
    if Cancellable(t) then e.(info := e.info[id := t.(reason := CancelReason(t, now))]) else e
  }

  function StopTask(t: Task, now: int, parent: bool): Task {
    if t.phase.Completing? then t
    else var seen := Observe(t, now, parent); if seen.reason == Ok then seen.(reason := Cancelled) else seen
  }

  function RequestStop(e: Exec, now: int, parents: set<Id>): Exec {
    e.(stopping := true, info := map id | id in e.info :: if id in e.tasks then StopTask(e.info[id], now, id in parents) else e.info[id])
  }

  predicate CanPick(e: Exec) {
    && !e.stopping && e.open && e.readyKeys != []
    && e.readyKeys[0] in e.keys && e.keys[e.readyKeys[0]].queued != [] && e.keys[e.readyKeys[0]].queued[0] in e.info
  }

  function Front(e: Exec): Id
    requires CanPick(e)
  {
    e.keys[e.readyKeys[0]].queued[0]
  }

  /** The front task of the first ready key, as the worker sees it. */
  function Offered(e: Exec, now: int, parent: bool): Task
    requires CanPick(e)
  {
    Observe(e.info[Front(e)], now, parent)
  }

  /** The key leaves the ready list, but its front task is cancelled: it is left to the coordinator. */
  function Skip(e: Exec, now: int, parent: bool): Exec
    requires CanPick(e)
  {
    RemoveReady(e, e.readyKeys[0]).(info := e.info[Front(e) := Offered(e, now, parent)])
  }

  /** The key leaves the ready list and worker `w` starts its front task. */
  function Start(e: Exec, w: nat): Exec
    requires CanPick(e)
  {
    var k, id := e.readyKeys[0], Front(e);
    var e1 := RemoveReady(e, k);
    var slot := e1.keys[k];
    e1.(keys := e1.keys[k := slot.(queued := slot.queued[1..], busy := true, holder := Some(id))],
        info := e.info[id := e.info[id].(phase := Running, owner := Worker(w))],
        pending := e.pending - 1, running := e.running + 1, started := e.started + [id])
  }

  /** The job returned: the reason is read one last time and the task is completing from here on. */
  function FinishJob(e: Exec, id: Id, now: int, parent: bool): Exec
    requires id in e.info
  {
    e.(info := e.info[id := Observe(e.info[id], now, parent).(phase := Completing)])
  }

  function Outcome(t: Task, result: ErrorCode): ErrorCode { if t.reason != Ok then t.reason else result }

  /** The locked part of Publish, `e.keys` and the counters before the key is listed again or erased. */
  function Settle(e: Exec, id: Id, result: ErrorCode, occupied: bool): Exec
    requires id in e.info && e.info[id].key in e.keys
  {
    var t := e.info[id];
    var slot := e.keys[t.key];
    var slot2 := slot.(outstanding := slot.outstanding - 1, bytes := slot.bytes - t.bytes,
                       busy := slot.busy && !occupied, holder := if occupied then None else slot.holder);
    e.(keys := e.keys[t.key := slot2], outstanding := e.outstanding - 1, retained := e.retained - t.bytes,
       running := if occupied then e.running - 1 else e.running,
       info := e.info[id := t.(phase := Terminal, result := result)], tasks := Without(e.tasks, id), published := e.published + multiset{id})
  }

  function Publish(e: Exec, id: Id, result: ErrorCode, occupied: bool): Exec
    requires id in e.info && e.info[id].key in e.keys
  {
    var k := e.info[id].key;
    var e1 := Settle(e, id, result, occupied);
    if e1.keys[k].outstanding == 0 then var e2 := RemoveReady(e1, k); e2.(keys := e2.keys - {k}) else Enqueue(e1, k)
  }

  /** The coordinator must act on `t`: it is not completing, it is cancelled and nobody has signalled it. */
  predicate Due(t: Task, now: int, parent: bool) {
    !t.phase.Completing? && Observe(t, now, parent).reason != Ok && !t.signalSent
  }

  predicate Known(e: Exec) { forall id :: id in e.tasks ==> id in e.info }

  /** The first due task of the list from position `i`, or its length. */
  function FirstDue(e: Exec, now: int, parents: set<Id>, i: nat): (r: nat)
    requires Known(e) && i <= |e.tasks|
    ensures i <= r <= |e.tasks|
    ensures r < |e.tasks| ==> Due(e.info[e.tasks[r]], now, e.tasks[r] in parents)
    ensures forall j :: i <= j < r ==> !Due(e.info[e.tasks[j]], now, e.tasks[j] in parents)
    decreases |e.tasks| - i
  {
    if i == |e.tasks| || Due(e.info[e.tasks[i]], now, e.tasks[i] in parents) then i
    else FirstDue(e, now, parents, i + 1)
  }

  /** The coordinator signals a running task. */
  function SignalRunning(e: Exec, id: Id, now: int, parent: bool): Exec
    requires id in e.info
  {
    e.(info := e.info[id := Observe(e.info[id], now, parent).(signalSent := true)])
  }

  /** The coordinator takes a queued task out of its key's queue. */
  function TakeQueued(e: Exec, id: Id, now: int, parent: bool): Exec
    requires id in e.info && e.info[id].key in e.keys
  {
    var k := e.info[id].key;
    var slot := e.keys[k];
    var e1 := e.(info := e.info[id := Observe(e.info[id], now, parent).(signalSent := true, phase := Completing, owner := Coordinator)],
                 pending := e.pending - 1, keys := e.keys[k := slot.(queued := Without(slot.queued, id))]);
    if e1.keys[k].queued == [] then RemoveReady(e1, k) else Enqueue(e1, k)
  }

  // What each thread is doing between two sections.
  datatype WorkerPc = Idle | Job(id: Id) | Publishing(id: Id, code: ErrorCode) | Exited
  datatype CoordinatorPc = Scanning | Delivering(id: Id, code: ErrorCode) | Done

  datatype World = World(exec: Exec, workers: map<nat, WorkerPc>, coordinator: CoordinatorPc)

  datatype Action =
    | AOpen
    | ASubmit(key: Key, bytes: nat, deadline: Option<int>, early: ErrorCode, now: int, parent: bool)
    | ACancel(id: Id, now: int)
    | AStop(now: int, parents: set<Id>)
    | APick(w: nat, now: int, parent: bool)
    | AExit(w: nat)
    | AFinish(w: nat, result: ErrorCode, now: int, parent: bool)
    | APublish(w: nat)
    | AScan(now: int, parents: set<Id>)
    | ADeliver

  predicate Enabled(w: World, a: Action) {
    match a
    case AOpen => true
    case ASubmit(_, _, _, early, _, _) => early == Ok || early == Timeout || early == Cancelled
    case ACancel(id, _) => id in w.exec.info
    case AStop(_, _) => true
    case APick(t, _, _) => t in w.workers && w.workers[t].Idle? && CanPick(w.exec)
    case AExit(t) => t in w.workers && w.workers[t].Idle? && w.exec.stopping
    case AFinish(t, _, _, _) => t in w.workers && w.workers[t].Job? && w.workers[t].id in w.exec.info
    case APublish(t) => t in w.workers && w.workers[t].Publishing? && Publishable(w.exec, w.workers[t].id)
    case AScan(_, _) => w.coordinator.Scanning? && Known(w.exec) && Located(w.exec)
    case ADeliver => w.coordinator.Delivering? && Publishable(w.exec, w.coordinator.id)
  }

  predicate Publishable(e: Exec, id: Id) { id in e.info && e.info[id].key in e.keys }
  predicate Located(e: Exec) { forall id :: id in e.tasks && id in e.info ==> e.info[id].key in e.keys }

  /** The coordinator acts on the due task `id`. */
  function ActStep(w: World, id: Id, now: int, parent: bool): World
    requires Publishable(w.exec, id)
  {
    if w.exec.info[id].phase.Queued? then
      var e := TakeQueued(w.exec, id, now, parent);
      w.(exec := e, coordinator := Delivering(id, e.info[id].reason))
    else w.(exec := SignalRunning(w.exec, id, now, parent))
  }

  function ScanStep(w: World, now: int, parents: set<Id>): World
    requires Known(w.exec) && Located(w.exec)
  {
    var e := w.exec;
    var i := FirstDue(e, now, parents, 0);
    if i < |e.tasks| then ActStep(w, e.tasks[i], now, e.tasks[i] in parents)
    else if e.stopping && e.tasks == [] then w.(coordinator := Done)
    else w
  }

  function PickStep(w: World, t: nat, now: int, parent: bool): World
    requires CanPick(w.exec)
  {
    if Offered(w.exec, now, parent).reason != Ok then w.(exec := Skip(w.exec, now, parent))
    else w.(exec := Start(w.exec, t), workers := w.workers[t := Job(Front(w.exec))])
  }

  function FinishStep(w: World, t: nat, result: ErrorCode, now: int, parent: bool): World
    requires t in w.workers && w.workers[t].Job? && w.workers[t].id in w.exec.info
  {
    var id := w.workers[t].id;
    var e := FinishJob(w.exec, id, now, parent);
    w.(exec := e, workers := w.workers[t := Publishing(id, Outcome(e.info[id], result))])
  }

  function Apply(w: World, a: Action): World
    requires Enabled(w, a)
  {
    match a
    case AOpen => w.(exec := w.exec.(open := true))
    case ASubmit(k, bytes, deadline, early, now, parent) =>
      if Admission(w.exec, k, bytes) == Ok then w.(exec := Admit(w.exec, k, bytes, deadline, early, now, parent)) else w
    case ACancel(id, now) => w.(exec := Cancel(w.exec, id, now))
    case AStop(now, parents) => w.(exec := RequestStop(w.exec, now, parents))
    case APick(t, now, parent) => PickStep(w, t, now, parent)
    case AExit(t) => w.(workers := w.workers[t := Exited])
    case AFinish(t, result, now, parent) => FinishStep(w, t, result, now, parent)
    case APublish(t) => w.(exec := Publish(w.exec, w.workers[t].id, w.workers[t].code, true), workers := w.workers[t := Idle])
    case AScan(now, parents) => ScanStep(w, now, parents)
    case ADeliver => w.(exec := Publish(w.exec, w.coordinator.id, w.coordinator.code, false), coordinator := Scanning)
  }
}
