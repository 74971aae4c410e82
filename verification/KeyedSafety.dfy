/**
  Safety of the keyed executor over all runs: serial keys, a well-formed ready list, no stranded key, exact accounting.
 */
module KeyedSafety {
  import opened Common
  import opened KeyedExecutor

  // Sums over the task list.

  /** What one live task adds to the totals; `work` bounds what is left to do for it. */
  datatype Tally = Tally(count: int, bytes: int, pending: int, running: int, work: int)

  function Add(a: Tally, b: Tally): Tally {
    Tally(a.count + b.count, a.bytes + b.bytes, a.pending + b.pending, a.running + b.running, a.work + b.work)
  }

  function Minus(a: Tally, b: Tally): Tally {
    Tally(a.count - b.count, a.bytes - b.bytes, a.pending - b.pending, a.running - b.running, a.work - b.work)
  }

  const ZERO := Tally(0, 0, 0, 0, 0)

  predicate Occupied(t: Task) { t.owner.Worker? && (t.phase.Running? || t.phase.Completing?) }

  function Work(t: Task): int {
    match t.phase
    case Queued => 3
    case Running => if t.signalSent then 2 else 3
    case Completing => 1
    case Terminal => 0
  }

  function Weigh(t: Task, k: Option<Key>): Tally {
    if k.Some? && k.value != t.key then ZERO
    else Tally(1, t.bytes, if t.phase.Queued? then 1 else 0, if Occupied(t) then 1 else 0, Work(t))
  }

  /** The totals over the listed tasks, of one key or of all. */
  function Sum(info: map<Id, Task>, s: seq<Id>, k: Option<Key>): Tally
    requires forall id :: id in s ==> id in info
  {
    if s == [] then ZERO else Add(Sum(info, s[..|s| - 1], k), Weigh(info[s[|s| - 1]], k))
  }

  ghost predicate Rising(s: seq<nat>) { forall i, j :: 0 <= i < j < |s| ==> s[i] < s[j] }
  ghost predicate Distinct(s: seq<nat>) { forall i, j :: 0 <= i < j < |s| ==> s[i] != s[j] }

  lemma {:induction false} SumSame(info: map<Id, Task>, info2: map<Id, Task>, s: seq<Id>, k: Option<Key>)
    requires forall id :: id in s ==> id in info && id in info2 && Weigh(info[id], k) == Weigh(info2[id], k)
    ensures Sum(info, s, k) == Sum(info2, s, k)
  {
    if s != [] { SumSame(info, info2, s[..|s| - 1], k); }
  }

  lemma Front(s: seq<nat>)
    requires s != [] && Rising(s)
    ensures Rising(s[..|s| - 1]) && s[|s| - 1] !in s[..|s| - 1]
    ensures forall x :: x in s <==> x in s[..|s| - 1] || x == s[|s| - 1]
  {
    assert s == s[..|s| - 1] + [s[|s| - 1]];
  }

  lemma Swap(a: Tally, b: Tally, x: Tally, y: Tally, z: Tally)
    requires b == Add(Minus(a, x), y)
    ensures Add(b, z) == Add(Minus(Add(a, z), x), y)
  {
  }

  lemma Trade(a: Tally, x: Tally, y: Tally)
    ensures Add(a, y) == Add(Minus(Add(a, x), x), y)
  {
  }

  lemma {:induction false} SumUpdate(info: map<Id, Task>, s: seq<Id>, id: Id, t: Task, k: Option<Key>)
    requires (forall x :: x in s ==> x in info) && Rising(s) && id in s
    ensures Sum(info[id := t], s, k) == Add(Minus(Sum(info, s, k), Weigh(info[id], k)), Weigh(t, k))
  {
    var init, last := s[..|s| - 1], s[|s| - 1];
    Front(s);
    var info2 := info[id := t];
    assert Sum(info2, s, k) == Add(Sum(info2, init, k), Weigh(info2[last], k));
    if last == id {
      SumSame(info, info2, init, k);
      Trade(Sum(info, init, k), Weigh(info[id], k), Weigh(t, k));
    } else {
      SumUpdate(info, init, id, t, k);
      Swap(Sum(info, init, k), Sum(info2, init, k), Weigh(info[id], k), Weigh(t, k), Weigh(info[last], k));
    }
  }

  lemma Drop(a: Tally, b: Tally, x: Tally, z: Tally)
    requires b == Minus(a, x)
    ensures Add(b, z) == Minus(Add(a, z), x)
  {
  }

  lemma {:induction false} SumWithout(info: map<Id, Task>, s: seq<Id>, id: Id, k: Option<Key>)
    requires (forall x :: x in s ==> x in info) && Rising(s)
    ensures Sum(info, Without(s, id), k) == if id in s then Minus(Sum(info, s, k), Weigh(info[id], k))
      else Sum(info, s, k)
  {
    if s != [] {
      var init, last := s[..|s| - 1], s[|s| - 1];
      Front(s);
      SumWithout(info, init, id, k);
      var rest := Without(init, id);
      assert Sum(info, s, k) == Add(Sum(info, init, k), Weigh(info[last], k));
      if last != id {
        assert (rest + [last])[..|rest|] == rest;
        assert Sum(info, rest + [last], k) == Add(Sum(info, rest, k), Weigh(info[last], k));
        if id in s { Drop(Sum(info, init, k), Sum(info, rest, k), Weigh(info[id], k), Weigh(info[last], k)); }
      }
    }
  }

  lemma {:induction false} SumCounts(info: map<Id, Task>, s: seq<Id>, k: Option<Key>)
    requires forall x :: x in s ==> x in info
    ensures 0 <= Sum(info, s, k).count && 0 <= Sum(info, s, k).bytes && 0 <= Sum(info, s, k).work
    ensures 0 <= Sum(info, s, k).pending && 0 <= Sum(info, s, k).running
    ensures k.None? ==> Sum(info, s, k).count == |s|
    ensures forall x :: x in s && (k.None? || info[x].key == k.value) ==> Sum(info, s, k).count > 0
  {
    if s != [] {
      hide Work;
      var init, last := s[..|s| - 1], s[|s| - 1];
      SumCounts(info, init, k);
      WeighBounds(info[last], k);
      hide Weigh;
      assert s == init + [last];
    }
  }

  lemma WeighBounds(t: Task, k: Option<Key>)
    ensures var x := Weigh(t, k); 0 <= x.count && 0 <= x.bytes && 0 <= x.work && 0 <= x.pending && 0 <= x.running
    ensures k.None? || t.key == k.value ==> Weigh(t, k).count == 1
  {
  }

  lemma {:induction false} WithoutRising(s: seq<nat>, x: nat)
    requires Rising(s)
    ensures Rising(Without(s, x))
  {
    if s != [] {
      var init, last := s[..|s| - 1], s[|s| - 1];
      Front(s);
      WithoutRising(init, x);
      var rest := Without(init, x);
      forall i | 0 <= i < |rest| ensures rest[i] < last { assert rest[i] in init; }
    }
  }

  lemma {:induction false} WithoutDistinct(s: seq<nat>, x: nat)
    requires Distinct(s)
    ensures Distinct(Without(s, x))
  {
    if s != [] {
      var init, last := s[..|s| - 1], s[|s| - 1];
      WithoutDistinct(init, x);
      var rest := Without(init, x);
      forall i | 0 <= i < |rest| ensures rest[i] != last { assert rest[i] in init; }
    }
  }

  // The invariant of the scheduler's state.

  ghost predicate TaskOk(e: Exec, id: Id)
    requires id in e.info
  {
    var t := e.info[id];
    && id < e.next
    && (id in e.tasks <==> !t.phase.Terminal?)
    && (!t.phase.Terminal? ==> t.key in e.keys)
    && (t.phase.Queued? ==> t.owner.Nobody? && !t.signalSent && t.key in e.keys && id in e.keys[t.key].queued)
    && (t.phase.Running? ==> t.owner.Worker?)
    && (t.phase.Completing? ==> !t.owner.Nobody?)
    && (Occupied(t) ==> t.key in e.keys && e.keys[t.key].holder == Some(id))
    && (t.signalSent ==> t.reason != Ok)
    && (e.stopping && (t.phase.Queued? || t.phase.Running?) ==> t.reason != Ok)
    && (t.phase.Terminal? && t.reason != Ok ==> t.result == t.reason)
  }

  ghost predicate SlotOk(e: Exec, k: Key)
    requires k in e.keys
  {
    var slot := e.keys[k];
    && Rising(slot.queued)
    && (forall q :: q in slot.queued ==> q in e.info && e.info[q].phase.Queued? && e.info[q].key == k)
    && slot.busy == slot.holder.Some?
    && (slot.busy ==> slot.holder.value in e.info && e.info[slot.holder.value].key == k && Occupied(e.info[slot.holder.value]))
    && (slot.ready <==> k in e.readyKeys)
    && (slot.ready ==> !slot.busy && slot.queued != [])
  }

  /** The key has queued work, nothing running, and no worker would find it; the coordinator must not be needed. */
  ghost predicate Stranded(e: Exec, k: Key)
    requires k in e.keys
  {
    var slot := e.keys[k];
    !slot.ready && !slot.busy && slot.queued != [] && slot.queued[0] in e.info && e.info[slot.queued[0]].reason == Ok
  }

  ghost predicate Core(e: Exec) {
    && Rising(e.tasks) && Distinct(e.readyKeys)
    && (forall id :: id in e.tasks ==> id in e.info)
    && (forall id :: id in e.info ==> TaskOk(e, id))
    && (forall k :: k in e.keys ==> SlotOk(e, k))
    && (forall k :: k in e.readyKeys ==> k in e.keys)
    && (forall id: Id :: id < e.next ==> id in e.info)
  }

  ghost predicate Shape(e: Exec) { Core(e) && forall k :: k in e.keys ==> !Stranded(e, k) }

  ghost predicate KeyTotals(e: Exec, k: Key)
    requires k in e.keys && Known(e)
  {
    && e.keys[k].outstanding == Sum(e.info, e.tasks, Some(k)).count
    && e.keys[k].bytes == Sum(e.info, e.tasks, Some(k)).bytes
    && 0 < e.keys[k].outstanding <= e.options.maxTasksPerKey && e.keys[k].bytes <= e.options.maxBytesPerKey
  }

  ghost predicate Totals(e: Exec) {
    && Known(e)
    && e.outstanding == Sum(e.info, e.tasks, None).count <= e.options.maxTasks
    && e.retained == Sum(e.info, e.tasks, None).bytes <= e.options.maxBytes
    && e.pending == Sum(e.info, e.tasks, None).pending
    && e.running == Sum(e.info, e.tasks, None).running
    && |e.keys| <= e.options.maxKeys
    && (forall k :: k in e.keys ==> KeyTotals(e, k))
  }

  /** Starts follow submission order per key. */
  ghost predicate Starts(e: Exec) {
    && (forall id :: id in e.started ==> id in e.info && !e.info[id].phase.Queued?)
    && (forall id, k :: id in e.started && id in e.info && k in e.keys && e.info[id].key == k ==> Before(id, e.keys[k].queued))
    && (forall i, j :: 0 <= i < j < |e.started| && Key0(e, i) == Key0(e, j) ==> e.started[i] < e.started[j])
  }

  /** Every terminal task was published once, and no other task was. */
  ghost predicate Verdicts(e: Exec) {
    && (forall id :: id in e.info ==> e.published[id] == if e.info[id].phase.Terminal? then 1 else 0)
    && (forall id :: id in e.published ==> id in e.info)
  }

  ghost predicate Before(id: Id, s: seq<Id>) { forall q :: q in s ==> id < q }

  function Key0(e: Exec, i: nat): Key
    requires i < |e.started|
  {
    if e.started[i] in e.info then e.info[e.started[i]].key else 0
  }

  /** Tasks and the threads responsible for them point at each other. */
  ghost predicate Owned(w: World, id: Id)
    requires id in w.exec.info
  {
    var t := w.exec.info[id];
    && (t.phase.Running? && t.owner.Worker? ==> t.owner.w in w.workers && w.workers[t.owner.w] == Job(id))
    && (t.phase.Completing? && t.owner.Worker? ==> t.owner.w in w.workers && w.workers[t.owner.w].Publishing? && w.workers[t.owner.w].id == id)
    && (t.phase.Completing? && t.owner.Coordinator? ==> w.coordinator.Delivering? && w.coordinator.id == id)
  }

  ghost predicate WorkerOk(w: World, t: nat)
    requires t in w.workers
  {
    var pc := w.workers[t];
    && (pc.Job? ==> pc.id in w.exec.info && w.exec.info[pc.id].phase.Running? && w.exec.info[pc.id].owner == Worker(t))
    && (pc.Publishing? ==> pc.id in w.exec.info && w.exec.info[pc.id].phase.Completing? && w.exec.info[pc.id].owner == Worker(t))
    && (pc.Publishing? && pc.id in w.exec.info ==> pc.code == Outcome(w.exec.info[pc.id], pc.code))
    && (pc.Exited? ==> w.exec.stopping)
  }

  ghost predicate CoordinatorOk(w: World) {
    var pc := w.coordinator;
    && (pc.Delivering? ==> pc.id in w.exec.info && w.exec.info[pc.id].phase.Completing? && w.exec.info[pc.id].owner == Coordinator)
    && (pc.Delivering? && pc.id in w.exec.info ==> pc.code == w.exec.info[pc.id].reason != Ok)
    && (pc.Done? ==> w.exec.stopping && w.exec.tasks == [])
  }

  ghost predicate Threads(w: World) {
    && (forall id :: id in w.exec.info ==> Owned(w, id))
    && (forall t :: t in w.workers ==> WorkerOk(w, t))
    && CoordinatorOk(w)
  }

  ghost predicate Safe(w: World) {
    ValidOptions(w.exec.options) && Shape(w.exec) && Totals(w.exec) && Starts(w.exec) && Verdicts(w.exec) && Threads(w)
  }

  // The ready list.

  lemma EnqueueCore(e: Exec, k: Key)
    requires Core(e) && k in e.keys
    requires forall j :: j in e.keys && j != k ==> !Stranded(e, j)
    ensures Shape(Enqueue(e, k))
  {
    var e2 := Enqueue(e, k);
    forall id | id in e2.info ensures TaskOk(e2, id) { assert TaskOk(e, id); }
    forall j | j in e2.keys ensures SlotOk(e2, j) && !Stranded(e2, j) { assert SlotOk(e, j); }
  }

  // Changes to task records only.

  /** A record may gain a reason, and a running task may be signalled. */
  ghost predicate Tweaked(t: Task, t2: Task) {
    && t2.key == t.key && t2.bytes == t.bytes && t2.phase == t.phase && t2.owner == t.owner && t2.result == t.result
    && (t.reason != Ok ==> t2.reason == t.reason)
    && (t2.signalSent == t.signalSent || (t.phase.Running? && t2.signalSent && t2.reason != Ok))
    && ((t.phase.Terminal? || t.phase.Completing?) ==> t2 == t)
  }

  ghost predicate AllTweaked(e: Exec, info: map<Id, Task>) {
    info.Keys == e.info.Keys && forall id :: id in info ==> Tweaked(e.info[id], info[id])
  }

  lemma TweakShape(e: Exec, info: map<Id, Task>, stopping: bool)
    requires Shape(e) && AllTweaked(e, info) && (e.stopping ==> stopping)
    requires stopping && !e.stopping ==>
      forall id :: id in info && (info[id].phase.Queued? || info[id].phase.Running?) ==> info[id].reason != Ok
    ensures Shape(e.(info := info, stopping := stopping))
  {
    var e2 := e.(info := info, stopping := stopping);
    forall id | id in e2.info ensures TaskOk(e2, id) { assert TaskOk(e, id) && Tweaked(e.info[id], info[id]); }
    forall k | k in e2.keys ensures SlotOk(e2, k) && !Stranded(e2, k) {
      assert SlotOk(e, k) && !Stranded(e, k);
      var slot := e.keys[k];
      forall q | q in slot.queued
        ensures q in e2.info && e2.info[q].phase.Queued? && e2.info[q].key == k
      {
        assert Tweaked(e.info[q], info[q]);
      }
      if slot.busy { assert Tweaked(e.info[slot.holder.value], info[slot.holder.value]); }
      if slot.queued != [] { assert Tweaked(e.info[slot.queued[0]], info[slot.queued[0]]); }
    }
  }

  // Each section keeps the shape.

  lemma CancelShape(e: Exec, id: Id, now: int)
    requires Shape(e) && id in e.info
    ensures Shape(Cancel(e, id, now))
  {
    TweakShape(e, Cancel(e, id, now).info, e.stopping);
    assert Cancel(e, id, now) == e.(info := Cancel(e, id, now).info, stopping := e.stopping);
  }

  lemma StopShape(e: Exec, now: int, parents: set<Id>)
    requires Shape(e)
    ensures Shape(RequestStop(e, now, parents)) && AllTweaked(e, RequestStop(e, now, parents).info)
  {
    var info := RequestStop(e, now, parents).info;
    forall id | id in info ensures Tweaked(e.info[id], info[id]) { assert TaskOk(e, id); }
    forall id | id in info && (info[id].phase.Queued? || info[id].phase.Running?)
      ensures info[id].reason != Ok
    {
      assert TaskOk(e, id);
    }
    TweakShape(e, info, true);
  }

  lemma SignalShape(e: Exec, id: Id, now: int, parent: bool)
    requires Shape(e) && id in e.info && e.info[id].phase.Running? && Due(e.info[id], now, parent)
    ensures Shape(SignalRunning(e, id, now, parent))
  {
    TweakShape(e, SignalRunning(e, id, now, parent).info, e.stopping);
    assert SignalRunning(e, id, now, parent) == e.(info := SignalRunning(e, id, now, parent).info, stopping := e.stopping);
  }

  lemma FinishShape(e: Exec, id: Id, now: int, parent: bool)
    requires Shape(e) && id in e.info && e.info[id].phase.Running?
    ensures Shape(FinishJob(e, id, now, parent))
  {
    var e2 := FinishJob(e, id, now, parent);
    assert TaskOk(e, id);
    forall j | j in e2.info ensures TaskOk(e2, j) { assert TaskOk(e, j); }
    forall k | k in e2.keys ensures SlotOk(e2, k) && !Stranded(e2, k) { assert SlotOk(e, k) && !Stranded(e, k); }
  }

  /** The task record and queue entry of an admission, before the key is listed. */
  function Inserted(e: Exec, k: Key, t: Task): Exec {
    var slot := SlotOf(e, k);
    e.(keys := e.keys[k := slot.(queued := slot.queued + [e.next], outstanding := slot.outstanding + 1, bytes := slot.bytes + t.bytes)],
       tasks := e.tasks + [e.next], info := e.info[e.next := t],
       outstanding := e.outstanding + 1, pending := e.pending + 1, retained := e.retained + t.bytes, next := e.next + 1)
  }

  /** `e2` differs from `e` at key `k` and at one task of that key only. */
  ghost predicate Local(e: Exec, e2: Exec, k: Key, id: Id) {
    && k in e2.keys && id in e2.info && e2.info[id].key == k && (id in e.info ==> e.info[id].key == k)
    && e2.keys == e.keys[k := e2.keys[k]] && e2.info == e.info[id := e2.info[id]]
    && (forall j :: j != k ==> (j in e2.readyKeys <==> j in e.readyKeys))
    && (forall j :: j != id ==> (j in e2.tasks <==> j in e.tasks))
    && e2.stopping == e.stopping && e.next <= e2.next
  }

  lemma LocalTask(e: Exec, e2: Exec, k: Key, id: Id, j: Id)
    requires Local(e, e2, k, id) && j in e.info && j != id && TaskOk(e, j)
    requires e.info[j].phase.Queued? && e.info[j].key == k && k in e.keys && j in e.keys[k].queued ==>
      j in e2.keys[k].queued
    requires Occupied(e.info[j]) && e.info[j].key == k && k in e.keys && e.keys[k].holder == Some(j) ==>
      e2.keys[k].holder == Some(j)
    ensures TaskOk(e2, j)
  {
  }

  lemma LocalSlot(e: Exec, e2: Exec, k: Key, id: Id, j: Key)
    requires Local(e, e2, k, id) && j in e.keys && j != k && SlotOk(e, j)
    ensures SlotOk(e2, j) && Stranded(e2, j) == Stranded(e, j)
  {
  }

  /** Nobody else's place in the queue of `k` or hold on it is lost. */
  ghost predicate Kept(e: Exec, e2: Exec, k: Key, id: Id)
    requires k in e2.keys
  {
    && (forall j :: k in e.keys && j in e.keys[k].queued && j != id ==> j in e2.keys[k].queued)
    && (k in e.keys && e.keys[k].holder.Some? && e.keys[k].holder.value != id ==> e2.keys[k].holder == e.keys[k].holder)
  }

  lemma LocalCore(e: Exec, e2: Exec, k: Key, id: Id)
    requires Core(e) && Local(e, e2, k, id) && Kept(e, e2, k, id)
    requires TaskOk(e2, id) && SlotOk(e2, k) && Rising(e2.tasks) && Distinct(e2.readyKeys)
    requires e2.next == e.next || (e2.next == e.next + 1 && id == e.next)
    ensures Core(e2)
    ensures forall j :: j in e2.keys && j != k && !Stranded(e, j) ==> !Stranded(e2, j)
  {
    forall j | j in e2.info ensures TaskOk(e2, j) { if j != id { LocalTask(e, e2, k, id, j); } }
    forall j | j in e2.keys
      ensures SlotOk(e2, j) && (j != k ==> Stranded(e2, j) == Stranded(e, j))
    {
      if j != k { LocalSlot(e, e2, k, id, j); }
    }
  }

  ghost predicate Newcomer(e: Exec, k: Key, t: Task) {
    t.key == k && t.phase.Queued? && t.owner.Nobody? && !t.signalSent && !e.stopping
  }

  /** Every known task was admitted before `e.next`. */
  lemma Older(e: Exec, k: Key)
    requires Core(e)
    ensures e.next !in e.info
    ensures forall q :: q in SlotOf(e, k).queued ==> q < e.next
    ensures forall q :: q in e.tasks ==> q < e.next
  {
    assert e.next in e.info ==> TaskOk(e, e.next);
    forall q | q in SlotOf(e, k).queued ensures q < e.next { assert SlotOk(e, k) && TaskOk(e, q); }
    forall q | q in e.tasks ensures q < e.next { assert TaskOk(e, q); }
  }

  lemma RisingAppend(s: seq<nat>, x: nat)
    requires Rising(s) && forall q :: q in s ==> q < x
    ensures Rising(s + [x])
  {
    assert forall i :: 0 <= i < |s| ==> s[i] in s;
  }

  lemma InsertedSlot(e: Exec, k: Key, t: Task)
    requires Core(e) && Newcomer(e, k, t)
    ensures SlotOk(Inserted(e, k, t), k) && Kept(e, Inserted(e, k, t), k, e.next)
  {
    Older(e, k);
    if k in e.keys { assert SlotOk(e, k); }
    RisingAppend(SlotOf(e, k).queued, e.next);
  }

  lemma InsertedCore(e: Exec, k: Key, t: Task)
    requires Core(e) && Newcomer(e, k, t)
    ensures Core(Inserted(e, k, t)) && Local(e, Inserted(e, k, t), k, e.next)
    ensures forall j :: j in Inserted(e, k, t).keys && j != k && !Stranded(e, j) ==> !Stranded(Inserted(e, k, t), j)
  {
    InsertedSlot(e, k, t);
    Older(e, k);
    RisingAppend(e.tasks, e.next);
    LocalCore(e, Inserted(e, k, t), k, e.next);
  }

  function Arriving(k: Key, bytes: nat, deadline: Option<int>, early: ErrorCode, now: int, parent: bool): Task {
    Observe(Task(k, bytes, deadline, Queued, early, false, Nobody, WouldBlock), now, parent)
  }

  lemma AdmitIsInsert(e: Exec, k: Key, bytes: nat, deadline: Option<int>, early: ErrorCode, now: int, parent: bool)
    ensures Admit(e, k, bytes, deadline, early, now, parent) == Enqueue(Inserted(e, k, Arriving(k, bytes, deadline, early, now, parent)), k)
    ensures !e.stopping ==> Newcomer(e, k, Arriving(k, bytes, deadline, early, now, parent))
  {
  }

  lemma AdmitShape(e: Exec, k: Key, bytes: nat, deadline: Option<int>, early: ErrorCode, now: int, parent: bool)
    requires Shape(e) && !e.stopping
    ensures Shape(Admit(e, k, bytes, deadline, early, now, parent))
  {
    var t := Arriving(k, bytes, deadline, early, now, parent);
    AdmitIsInsert(e, k, bytes, deadline, early, now, parent);
    InsertedCore(e, k, t);
    assert forall j :: j in Inserted(e, k, t).keys && j != k ==> j in e.keys;
    EnqueueCore(Inserted(e, k, t), k);
  }

  lemma PickFacts(e: Exec)
    requires Core(e) && CanPick(e)
    ensures e.info[KeyedExecutor.Front(e)].phase.Queued? && e.info[KeyedExecutor.Front(e)].key == e.readyKeys[0]
    ensures e.keys[e.readyKeys[0]].ready && !e.keys[e.readyKeys[0]].busy && SlotOk(e, e.readyKeys[0])
    ensures TaskOk(e, KeyedExecutor.Front(e))
  {
    assert e.readyKeys[0] in e.readyKeys;
    assert SlotOk(e, e.readyKeys[0]);
    assert e.keys[e.readyKeys[0]].queued[0] in e.keys[e.readyKeys[0]].queued;
  }

  lemma SkipShape(e: Exec, now: int, parent: bool)
    requires Shape(e) && CanPick(e) && Offered(e, now, parent).reason != Ok
    ensures Shape(Skip(e, now, parent))
  {
    PickFacts(e);
    var k := e.readyKeys[0];
    WithoutDistinct(e.readyKeys, k);
    var e2 := Skip(e, now, parent);
    LocalCore(e, e2, k, KeyedExecutor.Front(e));
    assert !Stranded(e2, k);
  }

  lemma StartShape(e: Exec, w: nat)
    requires Shape(e) && CanPick(e)
    ensures Shape(Start(e, w))
  {
    hide Totals, Sum;
    PickFacts(e);
    var k, id := e.readyKeys[0], KeyedExecutor.Front(e);
    WithoutDistinct(e.readyKeys, k);
    var e2 := Start(e, w);
    var queued := e.keys[k].queued;
    assert forall q :: q in queued <==> q == id || q in queued[1..] by { assert queued == [id] + queued[1..]; }
    LocalCore(e, e2, k, id);
    assert !Stranded(e2, k);
  }

  lemma TakenSlot(e: Exec, id: Id)
    requires Core(e) && id in e.info && e.info[id].phase.Queued?
    ensures e.info[id].key in e.keys && id in e.keys[e.info[id].key].queued && !Occupied(e.info[id])
    ensures Rising(Without(e.keys[e.info[id].key].queued, id)) && SlotOk(e, e.info[id].key)
  {
    assert TaskOk(e, id);
    assert SlotOk(e, e.info[id].key);
    WithoutRising(e.keys[e.info[id].key].queued, id);
  }

  lemma ListingLocal(e: Exec, e1: Exec, k: Key, id: Id)
    requires Local(e, e1, k, id) && Kept(e, e1, k, id)
    ensures Local(e, RemoveReady(e1, k), k, id) && Kept(e, RemoveReady(e1, k), k, id)
    ensures Local(e, Enqueue(e1, k), k, id) && Kept(e, Enqueue(e1, k), k, id)
  {
  }

  /** TakeQueued before the key is listed again or dropped from the ready list. */
  function Taken(e: Exec, id: Id, now: int, parent: bool): Exec
    requires id in e.info && e.info[id].key in e.keys
  {
    var slot := e.keys[e.info[id].key];
    e.(info := e.info[id := Observe(e.info[id], now, parent).(signalSent := true, phase := Completing, owner := Coordinator)],
       pending := e.pending - 1, keys := e.keys[e.info[id].key := slot.(queued := Without(slot.queued, id))])
  }

  lemma TakeLocal(e: Exec, id: Id, now: int, parent: bool)
    requires id in e.info && e.info[id].key in e.keys
    ensures var e2 := TakeQueued(e, id, now, parent);
      Local(e, e2, e.info[id].key, id) && Kept(e, e2, e.info[id].key, id)
  {
    TakenLocal(e, id, now, parent);
    hide Local, Kept, Observe, Without;
    ListingLocal(e, Taken(e, id, now, parent), e.info[id].key, id);
    hide RemoveReady, Enqueue;
  }

  lemma TakenLocal(e: Exec, id: Id, now: int, parent: bool)
    requires id in e.info && e.info[id].key in e.keys
    ensures var e1 := Taken(e, id, now, parent); Local(e, e1, e.info[id].key, id) && Kept(e, e1, e.info[id].key, id)
  {
  }

  lemma TakeEnds(e: Exec, id: Id, now: int, parent: bool)
    requires Core(e) && id in e.info && e.info[id].phase.Queued? && e.info[id].key in e.keys
    requires Due(e.info[id], now, parent)
    ensures var e2 := TakeQueued(e, id, now, parent);
      TaskOk(e2, id) && SlotOk(e2, e.info[id].key) && Distinct(e2.readyKeys) && !Stranded(e2, e.info[id].key)
  {
    assert TaskOk(e, id);
    TakenSlot(e, id);
    WithoutDistinct(e.readyKeys, e.info[id].key);
  }

  lemma TakeShape(e: Exec, id: Id, now: int, parent: bool)
    requires Shape(e) && id in e.info && e.info[id].phase.Queued? && e.info[id].key in e.keys
    requires Due(e.info[id], now, parent)
    ensures Shape(TakeQueued(e, id, now, parent))
  {
    TakeLocal(e, id, now, parent);
    TakeEnds(e, id, now, parent);
    LocalCore(e, TakeQueued(e, id, now, parent), e.info[id].key, id);
  }

  // Publication.

  /** The publisher's claim on the task: a worker publishes what it holds, the coordinator what it took. */
  ghost predicate Claimed(e: Exec, id: Id, result: ErrorCode, occupied: bool) {
    && id in e.info && e.info[id].phase.Completing? && e.info[id].key in e.keys && result == Outcome(e.info[id], result)
    && (occupied <==> e.info[id].owner.Worker?)
  }

  lemma SettleCore(e: Exec, id: Id, result: ErrorCode, occupied: bool)
    requires Shape(e) && Claimed(e, id, result, occupied)
    ensures Core(Settle(e, id, result, occupied))
    ensures forall j :: j in e.keys && j != e.info[id].key ==> !Stranded(Settle(e, id, result, occupied), j)
  {
    var k := e.info[id].key;
    assert TaskOk(e, id) && SlotOk(e, k);
    WithoutRising(e.tasks, id);
    LocalCore(e, Settle(e, id, result, occupied), k, id);
  }

  /** A key with no live task can be erased. */
  lemma EraseShape(e: Exec, k: Key)
    requires Core(e) && k in e.keys && !e.keys[k].ready
    requires forall j :: j in e.keys && j != k ==> !Stranded(e, j)
    requires forall id :: id in e.tasks && id in e.info ==> e.info[id].key != k
    ensures Shape(e.(keys := e.keys - {k}))
  {
    var e2 := e.(keys := e.keys - {k});
    forall j | j in e2.info ensures TaskOk(e2, j) { assert TaskOk(e, j); }
    forall j | j in e2.keys ensures SlotOk(e2, j) && !Stranded(e2, j) { assert SlotOk(e, j) && !Stranded(e, j); }
  }

  lemma Unused(e: Exec, k: Key)
    requires Core(e) && k in e.keys
    requires forall id :: id in e.tasks && id in e.info ==> e.info[id].key != k
    ensures e.keys[k].queued == [] && !e.keys[k].ready
  {
    var queued := e.keys[k].queued;
    assert SlotOk(e, k);
    assert queued != [] ==> queued[0] in queued && queued[0] in e.info && TaskOk(e, queued[0]);
  }

  lemma PublishShape(e: Exec, id: Id, result: ErrorCode, occupied: bool)
    requires Shape(e) && Claimed(e, id, result, occupied)
    requires var e1 := Settle(e, id, result, occupied);
      e1.keys[e.info[id].key].outstanding == 0 ==> forall x :: x in e1.tasks && x in e1.info ==>
          e1.info[x].key != e.info[id].key
    ensures Shape(Publish(e, id, result, occupied))
  {
    var k := e.info[id].key;
    var e1 := Settle(e, id, result, occupied);
    SettleCore(e, id, result, occupied);
    if e1.keys[k].outstanding == 0 {
      Unused(e1, k);
      EraseShape(e1, k);
    } else {
      EnqueueCore(e1, k);
    }
  }

  // Each section keeps the totals.

  ghost predicate SameBudgets(e: Exec, e2: Exec) {
    && e2.options == e.options && e2.tasks == e.tasks && e2.outstanding == e.outstanding && e2.retained == e.retained
    && e2.keys.Keys == e.keys.Keys
    && (forall k :: k in e.keys ==> e2.keys[k].outstanding == e.keys[k].outstanding && e2.keys[k].bytes == e.keys[k].bytes)
  }

  lemma SameKeys(a: map<Key, Slot>, b: map<Key, Slot>)
    requires a.Keys == b.Keys
    ensures |a| == |b|
  {
    assert |a| == |a.Keys| && |b| == |b.Keys|;
  }

  lemma TotalsUpdate(e: Exec, e2: Exec, id: Id)
    requires Totals(e) && Rising(e.tasks) && id in e.tasks && SameBudgets(e, e2) && id in e2.info
    requires e2.info == e.info[id := e2.info[id]]
    requires e2.info[id].key == e.info[id].key && e2.info[id].bytes == e.info[id].bytes
    requires e2.pending == e.pending - Weigh(e.info[id], None).pending + Weigh(e2.info[id], None).pending
    requires e2.running == e.running - Weigh(e.info[id], None).running + Weigh(e2.info[id], None).running
    ensures Totals(e2)
  {
    SameKeys(e.keys, e2.keys);
    SumUpdate(e.info, e.tasks, id, e2.info[id], None);
    forall k | k in e2.keys ensures KeyTotals(e2, k) {
      assert KeyTotals(e, k);
      SumUpdate(e.info, e.tasks, id, e2.info[id], Some(k));
    }
  }

  lemma StopTotals(e: Exec, now: int, parents: set<Id>)
    requires Totals(e) && AllTweaked(e, RequestStop(e, now, parents).info)
    ensures Totals(RequestStop(e, now, parents))
  {
    var e2 := RequestStop(e, now, parents);
    SumSame(e.info, e2.info, e.tasks, None);
    forall k | k in e2.keys ensures KeyTotals(e2, k) {
      assert KeyTotals(e, k);
      SumSame(e.info, e2.info, e.tasks, Some(k));
    }
  }

  lemma TotalsSame(e: Exec, e2: Exec)
    requires Totals(e) && SameBudgets(e, e2) && e2.info == e.info && e2.pending == e.pending && e2.running == e.running
    ensures Totals(e2)
  {
    SameKeys(e.keys, e2.keys);
    forall k | k in e2.keys ensures KeyTotals(e2, k) { assert KeyTotals(e, k); }
  }

  lemma EnqueueTotals(e: Exec, k: Key)
    requires Totals(e) && k in e.keys
    ensures Totals(Enqueue(e, k))
  {
    assert SameBudgets(e, Enqueue(e, k));
    TotalsSame(e, Enqueue(e, k));
  }

  lemma SumInserted(info: map<Id, Task>, s: seq<Id>, id: Id, t: Task, k: Option<Key>)
    requires (forall x :: x in s ==> x in info) && id !in s
    ensures Sum(info[id := t], s + [id], k) == Add(Sum(info, s, k), Weigh(t, k))
  {
    assert (s + [id])[..|s|] == s;
    SumSame(info, info[id := t], s, k);
  }

  /** A key that is not in the table has no live task. */
  lemma {:induction false} SumForeign(info: map<Id, Task>, s: seq<Id>, k: Key)
    requires (forall x :: x in s ==> x in info) && (forall i :: 0 <= i < |s| && s[i] in info ==> info[s[i]].key != k)
    ensures Sum(info, s, Some(k)).count == 0 && Sum(info, s, Some(k)).bytes == 0
  {
    if s == [] {
    } else {
      SumForeign(info, s[..|s| - 1], k);
    }
  }

  lemma Foreign(e: Exec, k: Key)
    requires Core(e) && k !in e.keys
    ensures Sum(e.info, e.tasks, Some(k)).count == 0 && Sum(e.info, e.tasks, Some(k)).bytes == 0
  {
    forall x | x in e.tasks ensures e.info[x].key != k { assert TaskOk(e, x); }
    SumForeign(e.info, e.tasks, k);
  }

  lemma InsertedKey(e: Exec, k: Key, t: Task, j: Key)
    requires Core(e) && Totals(e) && Newcomer(e, k, t) && Admission(e, k, t.bytes) == Ok && (j in e.keys || j == k)
    requires 0 < e.options.maxTasksPerKey
    ensures KeyTotals(Inserted(e, k, t), j)
  {
    Older(e, k);
    SumInserted(e.info, e.tasks, e.next, t, Some(j));
    if j in e.keys { assert KeyTotals(e, j); } else { Foreign(e, k); }
  }

  lemma OneMoreKey(m: map<Key, Slot>, k: Key, slot: Slot)
    ensures |m[k := slot]| == if k in m then |m| else |m| + 1
  {
    var m2 := m[k := slot];
    assert |m| == |m.Keys| && |m2| == |m2.Keys|;
    assert m2.Keys == m.Keys + {k};
  }

  lemma InsertedTotals(e: Exec, k: Key, t: Task)
    requires Core(e) && Totals(e) && Newcomer(e, k, t) && Admission(e, k, t.bytes) == Ok && 0 < e.options.maxTasksPerKey
    ensures Totals(Inserted(e, k, t))
  {
    var e2 := Inserted(e, k, t);
    Older(e, k);
    SumInserted(e.info, e.tasks, e.next, t, None);
    OneMoreKey(e.keys, k, e2.keys[k]);
    forall j | j in e2.keys ensures KeyTotals(e2, j) { InsertedKey(e, k, t, j); }
  }

  lemma AdmitTotals(e: Exec, k: Key, bytes: nat, deadline: Option<int>, early: ErrorCode, now: int, parent: bool)
    requires Core(e) && Totals(e) && Admission(e, k, bytes) == Ok && 0 < e.options.maxTasksPerKey
    ensures Totals(Admit(e, k, bytes, deadline, early, now, parent))
  {
    var t := Arriving(k, bytes, deadline, early, now, parent);
    AdmitIsInsert(e, k, bytes, deadline, early, now, parent);
    InsertedTotals(e, k, t);
    var e2 := Inserted(e, k, t);
    EnqueueTotals(e2, k);
  }

  /** Counters after Settle, for every key that stays. */
  lemma SettleTotals(e: Exec, id: Id, result: ErrorCode, occupied: bool)
    requires Totals(e) && Rising(e.tasks) && id in e.tasks && Claimed(e, id, result, occupied)
    ensures var e1 := Settle(e, id, result, occupied);
      && Known(e1) && e1.outstanding == Sum(e1.info, e1.tasks, None).count
      && e1.retained == Sum(e1.info, e1.tasks, None).bytes
      && e1.pending == Sum(e1.info, e1.tasks, None).pending && e1.running == Sum(e1.info, e1.tasks, None).running
  {
    var e1 := Settle(e, id, result, occupied);
    SumWithout(e.info, e.tasks, id, None);
    SumSame(e.info, e1.info, e1.tasks, None);
  }

  lemma SettleKey(e: Exec, id: Id, result: ErrorCode, occupied: bool, k: Key)
    requires Totals(e) && Rising(e.tasks) && id in e.tasks && Claimed(e, id, result, occupied) && k in e.keys
    ensures var e1 := Settle(e, id, result, occupied);
      && Known(e1) && e1.keys[k].outstanding == Sum(e1.info, e1.tasks, Some(k)).count
      && e1.keys[k].bytes == Sum(e1.info, e1.tasks, Some(k)).bytes
      && (k != e.info[id].key || e1.keys[k].outstanding != 0 ==> KeyTotals(e1, k))
  {
    var e1 := Settle(e, id, result, occupied);
    assert KeyTotals(e, k);
    SumWithout(e.info, e.tasks, id, Some(k));
    SumSame(e.info, e1.info, e1.tasks, Some(k));
    SumCounts(e1.info, e1.tasks, Some(k));
  }

  /** When the last task of a key is settled, no live task uses that key. */
  lemma LastOfKey(e: Exec, id: Id, result: ErrorCode, occupied: bool)
    requires Totals(e) && Rising(e.tasks) && id in e.tasks && Claimed(e, id, result, occupied)
    requires Settle(e, id, result, occupied).keys[e.info[id].key].outstanding == 0
    ensures var e1 := Settle(e, id, result, occupied);
      forall x :: x in e1.tasks && x in e1.info ==> e1.info[x].key != e.info[id].key
  {
    var e1 := Settle(e, id, result, occupied);
    SettleKey(e, id, result, occupied, e.info[id].key);
    SumCounts(e1.info, e1.tasks, Some(e.info[id].key));
  }

  lemma ErasedKeys(m: map<Key, Slot>, m2: map<Key, Slot>)
    requires m2.Keys <= m.Keys
    ensures |m2| <= |m|
  {
    assert |m| == |m.Keys| && |m2| == |m2.Keys|;
    assert m.Keys == m2.Keys + (m.Keys - m2.Keys);
  }

  lemma ErasedTotals(e: Exec, id: Id, result: ErrorCode, occupied: bool)
    requires Totals(e) && Rising(e.tasks) && id in e.tasks && Claimed(e, id, result, occupied)
    requires Settle(e, id, result, occupied).keys[e.info[id].key].outstanding == 0
    ensures Totals(Publish(e, id, result, occupied))
  {
    var k := e.info[id].key;
    var e1 := Settle(e, id, result, occupied);
    var e3 := Publish(e, id, result, occupied);
    SettleTotals(e, id, result, occupied);
    ErasedKeys(e.keys, e3.keys);
    forall j | j in e3.keys ensures KeyTotals(e3, j) { SettleKey(e, id, result, occupied, j); }
  }

  lemma SettledTotals(e: Exec, id: Id, result: ErrorCode, occupied: bool)
    requires Totals(e) && Rising(e.tasks) && id in e.tasks && Claimed(e, id, result, occupied)
    requires Settle(e, id, result, occupied).keys[e.info[id].key].outstanding != 0
    ensures Totals(Settle(e, id, result, occupied))
  {
    var e1 := Settle(e, id, result, occupied);
    SettleTotals(e, id, result, occupied);
    SameKeys(e.keys, e1.keys);
    forall j | j in e1.keys ensures KeyTotals(e1, j) { SettleKey(e, id, result, occupied, j); }
  }

  lemma PublishTotals(e: Exec, id: Id, result: ErrorCode, occupied: bool)
    requires Totals(e) && Rising(e.tasks) && id in e.tasks && Claimed(e, id, result, occupied)
    ensures Totals(Publish(e, id, result, occupied))
  {
    var e1 := Settle(e, id, result, occupied);
    if e1.keys[e.info[id].key].outstanding == 0 {
      ErasedTotals(e, id, result, occupied);
    } else {
      SettledTotals(e, id, result, occupied);
      EnqueueTotals(e1, e.info[id].key);
    }
  }

  // Each section keeps the history.

  /** Records keep their key, nothing is queued again, and no result appears or disappears. */
  ghost predicate Onward(e: Exec, e2: Exec) {
    && (forall id :: id in e.info ==> id in e2.info && e2.info[id].key == e.info[id].key)
    && (forall id :: id in e.info && id in e2.info && e2.info[id].phase.Queued? ==> e.info[id].phase.Queued?)
    && (forall id :: id in e2.info && id !in e.info ==> !e2.info[id].phase.Terminal?)
    && (forall k :: k in e2.keys ==> Successor(e, k, e2.keys[k].queued))
  }

  /** The new queue of `k` holds old entries and newcomers only. */
  ghost predicate Successor(e: Exec, k: Key, queued: seq<Id>) {
    forall q :: q in queued ==> q >= e.next || (k in e.keys && q in e.keys[k].queued)
  }

  lemma StartsKept(e: Exec, e2: Exec)
    requires Core(e) && Starts(e) && Onward(e, e2) && e2.started == e.started
    ensures Starts(e2)
  {
    forall id, k | id in e2.started && id in e2.info && k in e2.keys && e2.info[id].key == k ensures Before(id, e2.keys[k].queued) {
      assert TaskOk(e, id);
      assert Successor(e, k, e2.keys[k].queued);
      assert k in e.keys ==> Before(id, e.keys[k].queued);
    }
    forall i, j | 0 <= i < j < |e2.started| && Key0(e2, i) == Key0(e2, j) ensures e2.started[i] < e2.started[j] {
      assert e.started[i] in e.started && e.started[j] in e.started;
      assert Key0(e, i) == Key0(e2, i) && Key0(e, j) == Key0(e2, j);
    }
  }

  lemma VerdictsKept(e: Exec, e2: Exec)
    requires Verdicts(e) && Onward(e, e2) && e2.published == e.published
    requires forall id :: id in e.info && id in e2.info ==> e2.info[id].phase.Terminal? == e.info[id].phase.Terminal?
    ensures Verdicts(e2)
  {
    forall id | id in e2.info ensures e2.published[id] == if e2.info[id].phase.Terminal? then 1 else 0 {
      if id !in e.info { assert id !in e.published; }
    }
  }

  /** One more start: `id` is above every earlier start of its key and below what is still queued. */
  lemma StartsAppend(e: Exec, e2: Exec, id: Id)
    requires Starts(e) && e2.started == e.started + [id] && e2.keys == e.keys && e2.info == e.info
    requires id in e.info && !e.info[id].phase.Queued? && e.info[id].key in e.keys
    requires Before(id, e.keys[e.info[id].key].queued)
    requires forall x :: x in e.started && x in e.info && e.info[x].key == e.info[id].key ==> x < id
    ensures Starts(e2)
  {
    forall i, j | 0 <= i < j < |e2.started| && Key0(e2, i) == Key0(e2, j) ensures e2.started[i] < e2.started[j] {
      assert e.started[i] in e.started;
      assert Key0(e2, i) == Key0(e, i);
      if j < |e.started| { assert Key0(e2, j) == Key0(e, j); }
    }
  }

  lemma StartOnward(e: Exec, w: nat)
    requires CanPick(e)
    ensures Onward(e, Start(e, w)) && Onward(e, Start(e, w).(started := e.started))
  {
    var queued := e.keys[e.readyKeys[0]].queued;
    assert queued == [queued[0]] + queued[1..];
  }

  lemma StartStarts(e: Exec, w: nat)
    requires Core(e) && Starts(e) && CanPick(e)
    ensures Starts(Start(e, w))
  {
    PickFacts(e);
    var k, id := e.readyKeys[0], KeyedExecutor.Front(e);
    var e2 := Start(e, w);
    var e1 := e2.(started := e.started);
    StartOnward(e, w);
    StartsKept(e, e1);
    var queued := e.keys[k].queued;
    forall x | x in e1.started && x in e1.info && e1.info[x].key == k
      ensures x < id
    {
      assert x in e.started && Before(x, queued) && id in queued;
    }
    forall q | q in queued[1..] ensures id < q { }
    StartsAppend(e1, e2, id);
  }

  lemma OnwardQueues(e: Exec, e1: Exec, e2: Exec)
    requires Onward(e, e1) && e2.info == e1.info
    requires forall k :: k in e2.keys ==> k in e1.keys && e2.keys[k].queued == e1.keys[k].queued
    ensures Onward(e, e2)
  {
    forall k | k in e2.keys ensures Successor(e, k, e2.keys[k].queued) { assert Successor(e, k, e1.keys[k].queued); }
  }

  lemma PublishOnward(e: Exec, id: Id, result: ErrorCode, occupied: bool)
    requires Claimed(e, id, result, occupied)
    ensures Onward(e, Publish(e, id, result, occupied))
  {
    var e1 := Settle(e, id, result, occupied);
    assert Onward(e, e1);
    OnwardQueues(e, e1, Publish(e, id, result, occupied));
  }

  lemma PublishVerdicts(e: Exec, id: Id, result: ErrorCode, occupied: bool)
    requires Verdicts(e) && Claimed(e, id, result, occupied)
    ensures Verdicts(Publish(e, id, result, occupied))
  {
  }

  // Each step keeps the threads and their tasks paired.

  lemma TweakThreads(w: World, e2: Exec)
    requires Threads(w) && AllTweaked(w.exec, e2.info) && e2.tasks == w.exec.tasks && (w.exec.stopping ==> e2.stopping)
    ensures Threads(w.(exec := e2))
  {
    var w2 := w.(exec := e2);
    forall id | id in e2.info ensures Owned(w2, id) { assert Owned(w, id) && Tweaked(w.exec.info[id], e2.info[id]); }
    forall t | t in w2.workers ensures WorkerOk(w2, t) {
      assert WorkerOk(w, t);
      var pc := w.workers[t];
      if pc.Job? || pc.Publishing? { assert Tweaked(w.exec.info[pc.id], e2.info[pc.id]); }
    }
    if w.coordinator.Delivering? { assert Tweaked(w.exec.info[w.coordinator.id], e2.info[w.coordinator.id]); }
  }

  lemma AdmitThreads(w: World, e2: Exec)
    requires Threads(w) && Core(w.exec) && !w.exec.stopping && !e2.stopping
    requires w.exec.next in e2.info && e2.info == w.exec.info[w.exec.next := e2.info[w.exec.next]]
    requires e2.info[w.exec.next].phase.Queued?
    ensures Threads(w.(exec := e2))
  {
    var w2 := w.(exec := e2);
    Older(w.exec, 0);
    forall id | id in e2.info ensures Owned(w2, id) { if id != w.exec.next { assert Owned(w, id); } }
    forall t | t in w2.workers ensures WorkerOk(w2, t) { assert WorkerOk(w, t); }
  }

  /** Worker `t` and the task it handles move together; no other thread handles that task. */
  lemma WorkerMove(w: World, w2: World, t: nat, id: Id)
    requires Threads(w) && t in w.workers && t in w2.workers && w2.workers == w.workers[t := w2.workers[t]]
    requires w2.coordinator == w.coordinator
    requires id in w.exec.info && id in w2.exec.info && w2.exec.info == w.exec.info[id := w2.exec.info[id]]
    requires (w.exec.info[id].phase.Queued? && w.workers[t].Idle?) || ((w.workers[t].Job? || w.workers[t].Publishing?) && w.workers[t].id == id)
    requires w2.exec.stopping == w.exec.stopping && (w.exec.tasks == [] ==> w2.exec.tasks == [])
    requires Owned(w2, id) && WorkerOk(w2, t)
    ensures Threads(w2)
  {
    assert WorkerOk(w, t) && Owned(w, id);
    forall j | j in w2.exec.info ensures Owned(w2, j) { assert Owned(w, j); }
    forall u | u in w2.workers ensures WorkerOk(w2, u) { assert WorkerOk(w, u); }
  }

  lemma CoordinatorMove(w: World, w2: World, id: Id)
    requires Threads(w) && w2.workers == w.workers
    requires id in w.exec.info && id in w2.exec.info && w2.exec.info == w.exec.info[id := w2.exec.info[id]]
    requires (w.exec.info[id].phase.Queued? && w.coordinator.Scanning?) || (w.coordinator.Delivering? && w.coordinator.id == id)
    requires w2.exec.stopping == w.exec.stopping
    requires Owned(w2, id) && CoordinatorOk(w2)
    ensures Threads(w2)
  {
    assert Owned(w, id);
    forall j | j in w2.exec.info ensures Owned(w2, j) { assert Owned(w, j); }
    forall u | u in w2.workers ensures WorkerOk(w2, u) { assert WorkerOk(w, u); }
  }
}
