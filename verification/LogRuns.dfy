/** Rotation over whole runs of the logger. */
module LogRuns {
  import opened Common
  import opened LogRotation
  import opened LogSafety

  /** One record is put out, or something outside deletes the active file. */
  datatype Event = Put(size: nat, written: nat, faults: Faults) | Deleted

  function Apply(l: Logger, e: Event): Logger
    requires l.disk.slots != []
  {
    match e
    case Put(size, written, faults) => Output(l, size, written, faults).0
    case Deleted => l.(disk := Delete(l.disk))
  }

  predicate StepAt(ls: seq<Logger>, es: seq<Event>, i: nat)
    requires i < |es| && |ls| == |es| + 1
  {
    ls[i].disk.slots != [] && ls[i + 1] == Apply(ls[i], es[i])
  }

  /** The segments found at the start are in order and the file's size was read. */
  predicate Starts(l: Logger) {
    && l.disk.slots != [] && l.disk.gone == l.disk.overwritten == l.disk.deleted == [] && l.disk.archived == 0
    && Ordered(l.disk) && Measured(l)
  }

  predicate IsRun(ls: seq<Logger>, es: seq<Event>) {
    |ls| == |es| + 1 && Starts(ls[0]) && forall i :: 0 <= i < |es| ==> StepAt(ls, es, i)
  }

  lemma OutputSound(l: Logger, size: nat, written: nat, f: Faults, origin: Disk, full: nat)
    requires Sound(l, origin, full)
    ensures l.disk.slots != [] && Sound(Output(l, size, written, f).0, origin, full)
  {
    assert l.disk.slots != [];
    hide Good, Measured, Rotate, Append;
    if Fits(l, size) {
      AppendSound(l, size, written, origin, full);
    } else {
      RotateSound(l, f, origin, full);
      var l1 := Rotate(l, f).0;
      if Fits(l1, size) { AppendSound(l1, size, written, origin, full); }
    }
  }

  lemma StartsSound(l: Logger)
    requires Starts(l)
    ensures Sound(l, l.disk, Count(l.disk.slots))
  {
    CountBound(l.disk.slots);
  }

  lemma RunSound(ls: seq<Logger>, es: seq<Event>, i: nat)
    requires IsRun(ls, es) && i < |ls|
    ensures Sound(ls[i], ls[0].disk, Count(ls[0].disk.slots))
  {
    StartsSound(ls[0]);
    var origin, full := ls[0].disk, Count(ls[0].disk.slots);
    hide Good, Output, Count;
    for j := 0 to i
      invariant Sound(ls[j], origin, full)
    {
      assert StepAt(ls, es, j);
      if es[j].Put? {
        OutputSound(ls[j], es[j].size, es[j].written, es[j].faults, origin, full);
      } else {
        DeleteGood(ls[j].disk, origin, full);
      }
    }
  }

  /**
    Whatever fails and whenever, no rename replaces a segment, and no segment found at the start or created since
    vanishes.
   */
  lemma RotationLosesNothing(ls: seq<Logger>, es: seq<Event>, i: nat, id: nat)
    requires IsRun(ls, es) && i < |ls|
    ensures ls[i].disk.overwritten == []
    ensures On(Shelf(ls[0].disk), id) || ls[0].disk.next <= id < ls[i].disk.next ==>
      On(Shelf(ls[i].disk), id) || Among(ls[i].disk.gone, id) || Among(ls[i].disk.deleted, id)
  {
    RunSound(ls, es, i);
    if On(Shelf(ls[0].disk), id) || ls[0].disk.next <= id < ls[i].disk.next {
      assert Accounted(ls[0].disk, id) || ls[0].disk.next <= id < ls[i].disk.next;
      assert Accounted(ls[i].disk, id);
    }
  }

  /** The files stay newest to oldest around any holes, and only what is older than all of them has been removed. */
  lemma ArchivesStayInOrder(ls: seq<Logger>, es: seq<Event>, k: nat, i: nat, j: nat)
    requires IsRun(ls, es) && k < |ls|
    requires i < j < |Shelf(ls[k].disk)| && Shelf(ls[k].disk)[i].Some?
    ensures Shelf(ls[k].disk)[j].Some? ==> Shelf(ls[k].disk)[i].value.id > Shelf(ls[k].disk)[j].value.id
    ensures forall g :: 0 <= g < |ls[k].disk.gone| ==> ls[k].disk.gone[g].id < Shelf(ls[k].disk)[i].value.id
  {
    RunSound(ls, es, k);
  }

  /** Retention never removes more than one segment beyond those it has archived, however often it is retried. */
  lemma RetentionIsBounded(ls: seq<Logger>, es: seq<Event>, i: nat)
    requires IsRun(ls, es) && i < |ls|
    ensures |ls[i].disk.gone| <= ls[i].disk.archived + 1
    ensures ls[i].disk.gone != [] ==> Count(ls[i].disk.slots) + 1 >= |ls[i].disk.slots|
    ensures Count(ls[i].disk.slots) + |ls[i].disk.gone| == Count(ls[0].disk.slots) + ls[i].disk.archived
  {
    RunSound(ls, es, i);
  }

  /** A record never makes the active file longer than the limit: it fits, or the file is the one that was there. */
  lemma OutputBounded(l: Logger, size: nat, written: nat, f: Faults)
    requires l.disk.slots != [] && Measured(l)
    ensures var a := Output(l, size, written, f).0.disk.active;
      a.Some? ==> a.value.size <= l.maxBytes || a == l.disk.active
  {
    if !Fits(l, size) { RotateMeasured(l, f); }
  }

  lemma {:induction false} ShiftActive(d: Disk, index: nat, f: Faults)
    requires index < |d.slots|
    ensures Shift(d, index, f).disk.active == d.active && Shift(d, index, f).disk.pending == d.pending
    decreases index
  {
    if index > 0 && !Fails(f) && d.slots[index - 1].Some? { ShiftActive(MoveUp(d, index), index - 1, Rest(f)); }
  }

  lemma ArchiveActive(d: Disk, f: Faults)
    requires d.slots != []
    ensures ArchivePending(d, f).disk.active == d.active
  {
    hide Shift, FindFree;
    var (free, f1) := FindFree(d.slots, 0, f);
    if free.Some? {
      if free.value < |d.slots| {
        ShiftActive(d, free.value, f1);
      } else if !Fails(f1) {
        ShiftActive(RemoveOldest(d), |d.slots| - 1, Rest(f1));
      }
    }
  }

  lemma RotateMeasured(l: Logger, f: Faults)
    requires l.disk.slots != [] && Measured(l)
    ensures var r := Rotate(l, f).0;
      && Measured(r) && r.maxBytes == l.maxBytes
      && (r.disk.active.Some? ==> r.disk.active.value.size == 0 || r.disk.active == l.disk.active)
  {
    hide ArchivePending;
    if l.disk.pending.Some? { ArchiveActive(l.disk, Rest(f)); }
    var moved := Vacate(l.disk, f);
    if moved.ok { ArchiveActive(moved.disk, moved.faults); }
  }

  // With no further failure.

  lemma {:induction false} ShiftClean(d: Disk, index: nat)
    requires index < |d.slots| && d.slots[index].None?
    requires forall j :: 0 <= j < index ==> d.slots[j].Some?
    ensures var r := Shift(d, index, []);
      && r.ok && r.faults == [] && r.disk.pending == d.pending && r.disk.active == d.active && r.disk.slots[0].None?
      && (forall j :: 0 < j <= index ==> r.disk.slots[j] == d.slots[j - 1])
      && (forall j :: index < j < |d.slots| ==> r.disk.slots[j] == d.slots[j])
    decreases index
  {
    if index > 0 { ShiftClean(MoveUp(d, index), index - 1); }
  }

  lemma {:induction false} FindFreeClean(slots: seq<Option<Segment>>, i: nat)
    requires i <= |slots|
    ensures FindFree(slots, i, []).0.Some? && FindFree(slots, i, []).1 == []
    decreases |slots| - i
  {
    if i < |slots| && slots[i].Some? { FindFreeClean(slots, i + 1); }
  }

  /** The archive of a disk: everything up to the first hole, or all but the oldest, moves one place on. */
  ghost predicate MovedOn(d: Disk, e: Disk) {
    && |e.slots| == |d.slots| > 0 && e.slots[0] == d.pending && e.pending.None? && e.active == d.active
    && forall j :: 0 <= j < |d.slots| - 1 && (forall k :: 0 <= k <= j ==> d.slots[k].Some?) ==>
      e.slots[j + 1] == d.slots[j]
  }

  lemma ArchiveClean(d: Disk)
    requires d.slots != [] && d.pending.Some?
    ensures var r := ArchivePending(d, []); r.ok && r.faults == [] && MovedOn(d, r.disk)
  {
    hide Shift, FindFree;
    FindFreeClean(d.slots, 0);
    var free := FindFree(d.slots, 0, []).0.value;
    if free < |d.slots| { ShiftClean(d, free); } else { ShiftClean(RemoveOldest(d), |d.slots| - 1); }
  }

  /**
    A failed rotation is made good by the next one: once nothing fails, the full file becomes file.1, what was left behind
    file.2, and the record goes to a new file.
   */
  lemma NextRotationCatchesUp(l: Logger, size: nat)
    requires l.disk.slots != [] && l.disk.active.Some? && !Fits(l, size) && size <= l.maxBytes
    ensures var (r, ok) := Output(l, size, size, []);
      && ok && r.open && r.fileBytes == size && |r.disk.slots| == |l.disk.slots|
      && r.disk.slots[0] == l.disk.active && r.disk.pending.None?
      && r.disk.active == Some(Segment(r.disk.next - 1, size))
      && (l.disk.pending.Some? && |l.disk.slots| > 1 ==> r.disk.slots[1] == l.disk.pending)
  {
    hide ArchivePending;
    var d := l.disk;
    if d.pending.Some? { ArchiveClean(d); }
    var moved := Vacate(d, []);
    assert moved.ok && moved.faults == [] && moved.disk.pending == d.active;
    ArchiveClean(moved.disk);
    var kept := ArchivePending(moved.disk, []).disk;
    assert d.pending.Some? && |d.slots| > 1 ==>
        moved.disk.slots[0] == d.pending && kept.slots[0 + 1] == moved.disk.slots[0];
  }
}
