/** Log rotation over a file system any operation of which may fail. */
module LogRotation {
  import opened Common

  /** A segment is named by the order in which it was created. */
  datatype Segment = Segment(id: nat, size: nat)

  /**
    `slots[i]` is file.(i+1) and `pending` the segment being rotated. The rest is history: the segments removed by retention,
    replaced by a rename and deleted by someone else, how many were archived, and the name of the next one.
   */
  datatype Disk = Disk(active: Option<Segment>, pending: Option<Segment>, slots: seq<Option<Segment>>,
      gone: seq<Segment>, overwritten: seq<Segment>, deleted: seq<Segment>, archived: nat, next: nat)

  /** `open` and `fileBytes` are the writer's stream and its idea of the active file's size. */
  datatype Logger = Logger(disk: Disk, open: bool, fileBytes: nat, maxBytes: nat)

  /** Which of the coming file operations fail; an operation past the end succeeds. */
  type Faults = seq<bool>

  predicate Fails(f: Faults) { f != [] && f[0] }
  function Rest(f: Faults): Faults { if f == [] then [] else f[1..] }

  function Held(o: Option<Segment>): seq<Segment> { if o.Some? then [o.value] else [] }

  // File operations. A rename replaces its target, as the standard library's does.

  function MoveUp(d: Disk, i: nat): Disk
    requires 0 < i < |d.slots|
  {
    d.(slots := d.slots[i := d.slots[i - 1]][i - 1 := None], overwritten := d.overwritten + Held(d.slots[i]))
  }

  function RemoveOldest(d: Disk): Disk
    requires d.slots != []
  {
    d.(slots := d.slots[|d.slots| - 1 := None], gone := d.gone + Held(d.slots[|d.slots| - 1]))
  }

  function Place(d: Disk): Disk
    requires d.slots != []
  {
    d.(slots := d.slots[0 := d.pending], pending := None, archived := d.archived + 1, overwritten := d.overwritten + Held(d.slots[0]))
  }

  function SetAside(d: Disk): Disk {
    d.(pending := d.active, active := None, overwritten := d.overwritten + Held(d.pending))
  }

  function Create(d: Disk): Disk {
    d.(active := Some(Segment(d.next, 0)), overwritten := d.overwritten + Held(d.active), next := d.next + 1)
  }

  function Grow(d: Disk, bytes: nat): Disk
    requires d.active.Some?
  {
    d.(active := Some(d.active.value.(size := d.active.value.size + bytes)))
  }

  function Delete(d: Disk): Disk { d.(active := None, deleted := d.deleted + Held(d.active)) }

  // The rotation.

  datatype Outcome = Outcome(disk: Disk, ok: bool, faults: Faults)

  /** The first free slot from `i` on, or the number of slots; None when a look failed. */
  function FindFree(slots: seq<Option<Segment>>, i: nat, f: Faults): (r: (Option<nat>, Faults))
    requires i <= |slots|
    ensures r.0.Some? ==> i <= r.0.value <= |slots| && (r.0.value < |slots| ==> slots[r.0.value].None?)
    ensures r.0.Some? ==> forall j :: i <= j < r.0.value ==> slots[j].Some?
    decreases |slots| - i
  {
    if i == |slots| then (Some(i), f)
    else if Fails(f) then (None, Rest(f))
    else if slots[i].None? then (Some(i), Rest(f))
    else FindFree(slots, i + 1, Rest(f))
  }

  /** Renames file.index-1 to file.index, and so on down to file.1 to file.2. */
  function Shift(d: Disk, index: nat, f: Faults): (r: Outcome)
    requires index < |d.slots|
    ensures |r.disk.slots| == |d.slots|
    decreases index
  {
    if index == 0 then Outcome(d, true, f)
    else if Fails(f) || d.slots[index - 1].None? then Outcome(d, false, Rest(f))
    else Shift(MoveUp(d, index), index - 1, Rest(f))
  }

  function Finish(d: Disk, free: nat, f: Faults): (r: Outcome)
    requires free < |d.slots|
    ensures |r.disk.slots| == |d.slots|
  {
    var shifted := Shift(d, free, f);
    if !shifted.ok then shifted
    else if Fails(shifted.faults) || shifted.disk.pending.None? then Outcome(shifted.disk, false, Rest(shifted.faults))
    else Outcome(Place(shifted.disk), true, Rest(shifted.faults))
  }

  function ArchivePending(d: Disk, f: Faults): (r: Outcome)
    requires d.slots != []
    ensures |r.disk.slots| == |d.slots|
  {
    var (free, f1) := FindFree(d.slots, 0, f);
    if free.None? then Outcome(d, false, f1)
    else if free.value < |d.slots| then Finish(d, free.value, f1)
    else if Fails(f1) then Outcome(d, false, Rest(f1))
    else Finish(RemoveOldest(d), |d.slots| - 1, Rest(f1))
  }

  /**
    Opening to append creates a missing file; opening to truncate starts a new segment. The size is read either way.
   */
  function Reopen(l: Logger, truncate: bool, f: Faults): Logger {
    var d := if Fails(f) || (!truncate && l.disk.active.Some?) then l.disk else Create(l.disk);
    l.(disk := d, open := !Fails(f), fileBytes := if Fails(Rest(f)) || d.active.None? then l.fileBytes else d.active.value.size)
  }

  /** The first half of Rotate: the active file is set aside, unless something is in the way. */
  function Vacate(d: Disk, f: Faults): (r: Outcome)
    requires d.slots != []
    ensures |r.disk.slots| == |d.slots|
  {
    if Fails(f) then Outcome(d, false, Rest(f))
    else
      var cleared := if d.pending.Some? then ArchivePending(d, Rest(f)) else Outcome(d, true, Rest(f));
      if !cleared.ok then cleared
      else if Fails(cleared.faults) || cleared.disk.active.None? then Outcome(cleared.disk, false, Rest(cleared.faults))
      else Outcome(SetAside(cleared.disk), true, Rest(cleared.faults))
  }

  function Rotate(l: Logger, f: Faults): (r: (Logger, bool))
    requires l.disk.slots != []
  {
    var moved := Vacate(l.disk, f);
    if !moved.ok then (Reopen(l.(disk := moved.disk), false, moved.faults), false)
    else
      var kept := ArchivePending(moved.disk, moved.faults);
      var reopened := Reopen(l.(disk := kept.disk), true, kept.faults);
      (reopened, kept.ok && reopened.open)
  }

  predicate Fits(l: Logger, size: nat) { l.fileBytes <= l.maxBytes && size <= l.maxBytes - l.fileBytes }

  /** At most `written` bytes of the line reach the active file. */
  function Append(l: Logger, size: nat, written: nat): Logger {
    l.(disk := if l.open && l.disk.active.Some? then Grow(l.disk, Min(written, size)) else l.disk, fileBytes := l.fileBytes + size)
  }

  function Output(l: Logger, size: nat, written: nat, f: Faults): (r: (Logger, bool))
    requires l.disk.slots != []
  {
    if Fits(l, size) then (Append(l, size, written), l.open && size <= written)
    else
      var (l1, rotated) := Rotate(l, f);
      if !Fits(l1, size) then (l1, false) else (Append(l1, size, written), rotated && l1.open && size <= written)
  }
}
