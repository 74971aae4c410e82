/**
  The executor's mutable state: keys as heap nodes on the ready list, and the lock-held methods against their sections.
 */
module KeyedState {
  import opened Common
  import opened KeyedExecutor
  import opened KeyedList
  import opened KeyedSafety
  import opened KeyedTable

  datatype Counts = Counts(pending: int, running: int, outstanding: int, retained: int)

  /** An empty slot for a new key changes nothing about its insertion. */
  lemma InsertedTwice(e: Exec, k: Key, t: Task)
    ensures Inserted(e.(keys := e.keys[k := SlotOf(e, k)]), k, t) == Inserted(e, k, t)
  {
  }

  lemma AdmitIs(e: Exec, k: Key, bytes: nat, deadline: Option<int>, early: ErrorCode, now: int, parent: bool)
    ensures var t := Observe(Task(k, bytes, deadline, Queued, early, false, Nobody, WouldBlock), now, parent);
      k in Inserted(e, k, t).keys && Admit(e, k, bytes, deadline, early, now, parent) == Enqueue(Inserted(e, k, t), k)
  {
  }

  class KeyedExecutorState {
    const options: Options
    const table: KeyTable
    var tasks: seq<Id>
    var info: map<Id, Task>
    var open: bool
    var stopping: bool
    var counts: Counts
    var next: Id
    ghost var slots: map<Key, Slot>
    ghost var readyKeys: seq<Key>
    ghost var started: seq<Id>
    ghost var published: multiset<Id>

    constructor (o: Options)
      ensures Valid() && View() == Empty(o) && fresh(table) && fresh(table.list) && fresh(table.nodes)
    {
      options := o;
      table := new KeyTable();
      tasks, info, open, stopping, slots, readyKeys := [], map[], false, false, map[], [];
      counts, next, started, published := Counts(0, 0, 0, 0), 0, [], multiset{};
    }

    ghost function View(): Exec
      reads this
    {
      Exec(options, slots, tasks, info, readyKeys, open, stopping, counts.pending, counts.running, counts.outstanding, counts.retained,
           next, started, published)
    }

    /** The table's nodes and links are what `slots` and `readyKeys` say. */
    ghost predicate Valid()
      reads this`slots, this`readyKeys, table, table.list, table.list.nodes`ready, table.list.nodes`previous, table.list.nodes`next
      reads table.nodes, table.keys.Values
    {
      table.Valid() && slots == table.Slots() && readyKeys == table.ReadyKeys()
    }

    lemma Lookup(k: Key)
      requires Valid()
      ensures |table.keys| == |slots| && (k in table.keys <==> k in slots)
      ensures k in slots ==>
        && table.Holds(table.keys[k]) && table.keys[k] in table.nodes && table.keys[k].name == k
        && slots[k] == table.keys[k].Contents()
    {
      assert |table.keys| == |table.keys.Keys| == |slots.Keys| == |slots|;
    }

    lemma NodeFacts(node: KeyNode)
      requires Valid() && table.Holds(node)
      ensures node in table.nodes && node.name in slots && slots[node.name] == node.Contents()
    {
    }

    /** The head of the list. */
    method First() returns (node: KeyNode)
      requires Valid() && readyKeys != []
      ensures table.Holds(node) && node.name == readyKeys[0]
    {
      node := table.Head();
    }

    method List(node: KeyNode)
      requires Valid() && table.Holds(node)
      modifies this`slots, this`readyKeys, table.list, table.nodes`ready, table.nodes`previous, table.nodes`next
      ensures Valid() && node.name in old(slots) && View() == Enqueue(old(View()), node.name)
    {
      hide KeyTable.Valid, KeyTable.Slots, KeyTable.ReadyKeys, KeyTable.Holds, ReadyList.Valid;
      NodeFacts(node);
      table.List(node);
      slots, readyKeys := table.Slots(), table.ReadyKeys();
    }

    method Unlist(node: KeyNode)
      requires Valid() && table.Holds(node)
      modifies this`slots, this`readyKeys, table.list, table.nodes`ready, table.nodes`previous, table.nodes`next
      ensures Valid() && !node.ready && node.name in old(slots) && View() == RemoveReady(old(View()), node.name)
    {
      hide KeyTable.Valid, KeyTable.Slots, KeyTable.ReadyKeys, KeyTable.Holds, ReadyList.Valid, Without;
      NodeFacts(node);
      table.Unlist(node);
      slots, readyKeys := table.Slots(), table.ReadyKeys();
    }

    method Update(node: KeyNode, r: Record)
      requires Valid() && table.Holds(node)
      modifies this`slots, node`record
      ensures Valid() && node.record == r
      ensures slots == old(slots)[node.name := Slot(r.queued, r.outstanding, r.bytes, r.busy, node.ready, r.holder)]
    {
      hide KeyTable.Valid, KeyTable.Slots, KeyTable.ReadyKeys, KeyTable.Holds, ReadyList.Valid;
      table.Update(node, r);
      slots := table.Slots();
    }

    method NodeOf(k: Key) returns (node: KeyNode)
      requires Valid()
      modifies this`slots, table
      ensures Valid() && table.Holds(node) && node.name == k && old(table.nodes) <= table.nodes
      ensures fresh(table.nodes - old(table.nodes))
      ensures slots == old(slots)[k := SlotOf(old(View()), k)]
    {
      hide KeyTable.Valid, KeyTable.Slots, KeyTable.ReadyKeys, KeyTable.Holds, ReadyList.Valid;
      node := table.NodeOf(k);
      slots := table.Slots();
    }

    method Erase(k: Key)
      requires Valid() && k in table.keys && !table.keys[k].ready
      modifies this`slots, table`keys
      ensures Valid() && slots == old(slots) - {k}
    {
      hide KeyTable.Valid, KeyTable.Slots, KeyTable.ReadyKeys, KeyTable.Holds, ReadyList.Valid;
      table.Erase(k);
      slots := table.Slots();
    }

    method OpenForWork()
      modifies this`open
      ensures View() == old(View()).(open := true)
    {
      open := true;
    }

    method CheckAdmission(k: Key, bytes: nat) returns (code: ErrorCode)
      requires Valid()
      ensures code == Admission(View(), k, bytes)
    {
      if bytes > options.maxBytes || bytes > options.maxBytesPerKey { return TooLarge; }
      if !open || stopping { return Closed; }
      if counts.outstanding >= options.maxTasks || bytes > options.maxBytes - counts.retained { return WouldBlock; }
      Lookup(k);
      if k !in table.keys { return if |table.keys| >= options.maxKeys then WouldBlock else Ok; }
      var slot := table.keys[k].record;
      if slot.outstanding >= options.maxTasksPerKey || bytes > options.maxBytesPerKey - slot.bytes { return WouldBlock; }
      code := Ok;
    }

    method Submit(k: Key, bytes: nat, deadline: Option<int>, early: ErrorCode, now: int, parent: bool)
        returns (code: ErrorCode)
      requires Valid()
      modifies this, table, table.list, table.nodes
      ensures Valid() && fresh(table.nodes - old(table.nodes))
      ensures code == Admission(old(View()), k, bytes)
      ensures View() == if code == Ok then Admit(old(View()), k, bytes, deadline, early, now, parent) else old(View())
    {
      hide Valid, KeyTable.Valid, KeyTable.Slots, KeyTable.ReadyKeys, KeyTable.Holds, ReadyList.Valid, Admission, Inserted, SlotOf, Admit, Enqueue;
      AdmitIs(View(), k, bytes, deadline, early, now, parent);
      code := CheckAdmission(k, bytes);
      if code != Ok { return; }
      var task := Observe(Task(k, bytes, deadline, Queued, early, false, Nobody, WouldBlock), now, parent);
      var node := NodeOf(k);
      NodeFacts(node);
      Insert(node, task);
      InsertedTwice(old(View()), k, task);
      List(node);
    }

    method Insert(node: KeyNode, task: Task)
      requires Valid() && table.Holds(node) && task.key == node.name
      modifies this`slots, this`tasks, this`info, this`counts, this`next, node`record
      ensures Valid() && node.name in old(slots) && View() == Inserted(old(View()), node.name, task)
    {
      hide Valid, KeyTable.Valid, KeyTable.Slots, KeyTable.ReadyKeys, KeyTable.Holds, ReadyList.Valid;
      NodeFacts(node);
      var r := node.record;
      Update(node, r.(queued := r.queued + [next], outstanding := r.outstanding + 1, bytes := r.bytes + task.bytes));
      Enter(task);
    }

    /** The task joins the list and is charged. */
    method Enter(task: Task)
      modifies this`tasks, this`info, this`counts, this`next
      ensures View() == old(View()).(tasks := old(tasks) + [old(next)], info := old(info)[old(next) := task],
        outstanding := old(counts).outstanding + 1, pending := old(counts).pending + 1, retained := old(counts).retained + task.bytes, next := old(next) + 1)
    {
      tasks := tasks + [next];
      info := info[next := task];
      counts := counts.(outstanding := counts.outstanding + 1, pending := counts.pending + 1, retained := counts.retained + task.bytes);
      next := next + 1;
    }

    method CancelTask(id: Id, now: int) returns (cancelled: bool)
      requires id in info
      modifies this`info
      ensures View() == Cancel(old(View()), id, now) && cancelled == Cancellable(old(info)[id])
      ensures cancelled <==> View() != old(View())
    {
      var task := info[id];
      if task.phase.Completing? || task.phase.Terminal? || task.reason != Ok { return false; }
      info := info[id := task.(reason := if task.deadline.Some? && task.deadline.value <= now then Timeout else Cancelled)];
      assert info[id] != old(info)[id];
      cancelled := true;
    }

    /** One iteration of the worker's loop; the worker waits or leaves when nothing is ready. */
    method Pick(w: nat, now: int, parent: bool) returns (task: Option<Id>)
      requires Valid() && CanPick(View())
      modifies this, table.list, table.nodes
      ensures Valid()
      ensures task.None? ==> Offered(old(View()), now, parent).reason != Ok && View() == Skip(old(View()), now, parent)
      ensures task.Some? ==>
        task.value == KeyedExecutor.Front(old(View())) && Offered(old(View()), now, parent).reason == Ok
      ensures task.Some? ==> View() == Start(old(View()), w)
    {
      hide Valid, KeyTable.Valid, KeyTable.Slots, KeyTable.ReadyKeys, KeyTable.Holds, ReadyList.Valid, Without;
      var node := First();
      Unlist(node);
      NodeFacts(node);
      var id := node.record.queued[0];
      var seen := Observe(info[id], now, parent);
      if seen.reason != Ok {
        info := info[id := seen];
        return None;
      }
      Begin(node, id, seen, w);
      task := Some(id);
    }

    method Begin(node: KeyNode, id: Id, seen: Task, w: nat)
      requires Valid() && table.Holds(node) && node.record.queued != []
      modifies this`slots, this`info, this`counts, this`started, node`record
      ensures Valid() && node.name in old(slots) && old(slots)[node.name].queued != []
      ensures var slot := old(slots)[node.name];
        View() == old(View()).(keys := old(slots)[node.name := slot.(queued := slot.queued[1..], busy := true, holder := Some(id))],
          info := old(info)[id := seen.(phase := Running, owner := Worker(w))], pending := old(counts).pending - 1,
          running := old(counts).running + 1, started := old(started) + [id])
    {
      hide Valid, KeyTable.Valid, KeyTable.Slots, KeyTable.ReadyKeys, KeyTable.Holds, ReadyList.Valid;
      NodeFacts(node);
      var r := node.record;
      Update(node, r.(queued := r.queued[1..], busy := true, holder := Some(id)));
      info := info[id := seen.(phase := Running, owner := Worker(w))];
      counts := counts.(pending := counts.pending - 1, running := counts.running + 1);
      started := started + [id];
    }

    /** Returns the final reason; from here on the task is completing. */
    method Finish(id: Id, now: int, parent: bool) returns (reason: ErrorCode)
      requires id in info
      modifies this`info
      ensures View() == FinishJob(old(View()), id, now, parent) && reason == info[id].reason
    {
      info := info[id := Observe(info[id], now, parent)];
      reason := info[id].reason;
      info := info[id := info[id].(phase := Completing)];
    }

    method PublishTask(id: Id, result: ErrorCode, occupiedKey: bool)
      requires Valid() && id in info && info[id].key in slots
      modifies this, table`keys, table.list, table.nodes
      ensures Valid() && View() == Publish(old(View()), id, result, occupiedKey)
    {
      hide Valid, KeyTable.Valid, KeyTable.Slots, KeyTable.ReadyKeys, KeyTable.Holds, ReadyList.Valid, Settle, Without, Enqueue, RemoveReady;
      var k := info[id].key;
      Lookup(k);
      var node := table.keys[k];
      SettleTask(node, id, result, occupiedKey);
      NodeFacts(node);
      if node.record.outstanding == 0 {
        Drop(node, k);
      } else {
        List(node);
      }
    }

    /** The key leaves the list and the table. */
    method Drop(node: KeyNode, k: Key)
      requires Valid() && table.Holds(node) && node.name == k
      modifies this`slots, this`readyKeys, table`keys, table.list, table.nodes`ready, table.nodes`previous, table.nodes`next
      ensures Valid() && node.name in old(slots)
      ensures var e := RemoveReady(old(View()), node.name); View() == e.(keys := e.keys - {node.name})
    {
      hide Valid, KeyTable.Valid, KeyTable.Slots, KeyTable.ReadyKeys, ReadyList.Valid, RemoveReady;
      Unlist(node);
      Erase(k);
    }

    /** The key and the executor stop being charged for the task, and the key is idle if the task held it. */
    method SettleTask(node: KeyNode, id: Id, result: ErrorCode, occupiedKey: bool)
      requires Valid() && id in info && table.Holds(node) && node.name == info[id].key
      modifies this`slots, this`tasks, this`info, this`counts, this`published, node`record
      ensures Valid() && old(info)[id].key in old(slots) && View() == Settle(old(View()), id, result, occupiedKey)
    {
      hide Valid, KeyTable.Valid, KeyTable.Slots, KeyTable.ReadyKeys, KeyTable.Holds, ReadyList.Valid, Without;
      NodeFacts(node);
      var r := node.record.(outstanding := node.record.outstanding - 1, bytes := node.record.bytes - info[id].bytes);
      if occupiedKey { r := r.(busy := false, holder := None); }
      Update(node, r);
      Retire(id, result, occupiedKey);
    }

    method Retire(id: Id, result: ErrorCode, occupiedKey: bool)
      requires id in info
      modifies this`tasks, this`info, this`counts, this`published
      ensures var c, t := old(counts), old(info)[id];
        View() == old(View()).(outstanding := c.outstanding - 1, retained := c.retained - t.bytes,
          running := if occupiedKey then c.running - 1
              else c.running, info := old(info)[id := t.(phase := Terminal, result := result)],
          tasks := Without(old(tasks), id), published := old(published) + multiset{id})
    {
      counts := counts.(outstanding := counts.outstanding - 1, retained := counts.retained - info[id].bytes);
      if occupiedKey { counts := counts.(running := counts.running - 1); }
      info := info[id := info[id].(phase := Terminal, result := result)];
      tasks := Without(tasks, id);
      published := published + multiset{id};
    }

    method StopAll(now: int, parents: set<Id>)
      requires Known(View()) && Rising(tasks)
      modifies this`stopping, this`info
      ensures View() == RequestStop(old(View()), now, parents)
    {
      assert forall i :: 0 <= i < |tasks| ==> tasks[i] in tasks && tasks[i] in info;
      assert forall i :: 0 <= i < |tasks| ==> tasks[i] !in tasks[..i];
      hide Known, Rising, StopTask;
      stopping := true;
      ghost var before := info;
      for i := 0 to |tasks|
        invariant stopping && info.Keys == before.Keys
        invariant forall id :: id in before ==>
          info[id] == if id in tasks[..i] then StopTask(before[id], now, id in parents) else before[id]
      {
        assert tasks[..i + 1] == tasks[..i] + [tasks[i]];
        StopOne(tasks[i], now, tasks[i] in parents);
      }
      assert tasks[..|tasks|] == tasks;
    }

    method StopOne(id: Id, now: int, parent: bool)
      requires id in info
      modifies this`info
      ensures info == old(info)[id := StopTask(old(info[id]), now, parent)]
    {
      var task := info[id];
      if !task.phase.Completing? {
        task := Observe(task, now, parent);
        if task.reason == Ok { task := task.(reason := Cancelled); }
        info := info[id := task];
      }
    }

    /**
      The coordinator's scan: reasons are observed along the list until a due task is found and signalled.
      Otherwise nothing changed and `wakeAt` is the earliest deadline of a task that still has no reason.
     */
    method Scan(now: int, parents: set<Id>) returns (selected: Option<Id>, queued: bool, wakeAt: Option<int>)
      requires Valid() && Known(View()) && Located(View())
      requires forall id :: id in tasks && info[id].signalSent ==> info[id].reason != Ok
      modifies this, table.list, table.nodes
      ensures Valid()
      ensures var e := old(View()); var i := FirstDue(e, now, parents, 0);
        if i == |e.tasks| then selected.None? && View() == e && IsWake(e, wakeAt) else
          selected == Some(e.tasks[i]) && queued == e.info[e.tasks[i]].phase.Queued? &&
          View() == if queued then TakeQueued(e, e.tasks[i], now, e.tasks[i] in parents)
              else SignalRunning(e, e.tasks[i], now, e.tasks[i] in parents)
    {
      hide Valid, KeyTable.Valid, KeyTable.Slots, ReadyList.Valid, TakeQueued, SignalRunning;
      ghost var e := View();
      wakeAt := None;
      queued := false;
      for i := 0 to |tasks|
        invariant Valid() && View() == e && unchanged(table, table.list, table.nodes)
        invariant FirstDue(e, now, parents, i) == FirstDue(e, now, parents, 0)
        invariant IsEarliest(e, i, wakeAt)
      {
        var id := tasks[i];
        assert id in tasks;
        if !info[id].phase.Completing? {
          var seen := Observe(info[id], now, id in parents);
          if seen.reason != Ok && !seen.signalSent {
            queued := info[id].phase.Queued?;
            Act(id, seen, now, id in parents);
            return Some(id), queued, wakeAt;
          }
          assert seen == info[id];
          if seen.reason == Ok && seen.deadline.Some? && (wakeAt.None? || seen.deadline.value < wakeAt.value) {
            wakeAt := seen.deadline;
          }
        }
      }
      selected := None;
    }

    method Act(id: Id, seen: Task, now: int, parent: bool)
      requires Valid() && id in info && info[id].key in slots && seen == Observe(info[id], now, parent)
      modifies this, table.list, table.nodes
      ensures Valid()
      ensures View() == if old(info)[id].phase.Queued? then TakeQueued(old(View()), id, now, parent)
        else SignalRunning(old(View()), id, now, parent)
    {
      hide Valid, KeyTable.Valid, KeyTable.Slots, KeyTable.ReadyKeys, KeyTable.Holds, ReadyList.Valid, Without;
      if info[id].phase.Queued? {
        Lookup(info[id].key);
        var node := table.keys[info[id].key];
        Dequeue(node, id, seen);
        NodeFacts(node);
        if node.record.queued == [] { Unlist(node); } else { List(node); }
      } else {
        info := info[id := seen.(signalSent := true)];
      }
    }

    method Dequeue(node: KeyNode, id: Id, seen: Task)
      requires Valid() && table.Holds(node)
      modifies this`slots, this`info, this`counts, node`record
      ensures Valid() && node.name in old(slots)
      ensures var slot := old(slots)[node.name];
        View() == old(View()).(keys := old(slots)[node.name := slot.(queued := Without(slot.queued, id))], pending := old(counts).pending - 1,
          info := old(info)[id := seen.(signalSent := true, phase := Completing, owner := Coordinator)])
    {
      hide Valid, KeyTable.Valid, KeyTable.Slots, KeyTable.ReadyKeys, KeyTable.Holds, ReadyList.Valid, Without;
      NodeFacts(node);
      Update(node, node.record.(queued := Without(node.record.queued, id)));
      info := info[id := seen.(signalSent := true, phase := Completing, owner := Coordinator)];
      counts := counts.(pending := counts.pending - 1);
    }
  }

  /** A task whose deadline the coordinator must wake for. */
  ghost predicate Pending(t: Task) { !t.phase.Completing? && t.reason == Ok && t.deadline.Some? }

  /** `d` is the earliest deadline among the pending tasks in the first `n` places of the list. */
  ghost predicate IsEarliest(e: Exec, n: nat, d: Option<int>)
    requires Known(e) && n <= |e.tasks|
  {
    && (forall i :: 0 <= i < n && Pending(e.info[e.tasks[i]]) ==> d.Some? && d.value <= e.info[e.tasks[i]].deadline.value)
    && (d.Some? ==> exists i :: 0 <= i < n && Pending(e.info[e.tasks[i]]) && e.info[e.tasks[i]].deadline == d)
  }

  ghost predicate IsWake(e: Exec, d: Option<int>)
    requires Known(e)
  {
    IsEarliest(e, |e.tasks|, d)
  }
}
