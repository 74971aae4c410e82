/** The logger's rotation as its worker runs it, step by step over the file system. */
module LogState {
  import opened Common
  import opened LogRotation

  class LoggerState {
    var disk: Disk
    var open: bool
    var fileBytes: nat
    const maxBytes: nat

    ghost function View(): Logger
      reads this
    {
      Logger(disk, open, fileBytes, maxBytes)
    }

    constructor (found: Disk, maxFileBytes: nat)
      requires found.active.Some?
      ensures View() == Logger(found, true, found.active.value.size, maxFileBytes)
    {
      disk, open, fileBytes, maxBytes := found, true, found.active.value.size, maxFileBytes;
    }

    /** `left` is the faults still to come. */
    method ArchivePending(f: Faults) returns (ok: bool, left: Faults)
      requires disk.slots != []
      modifies this`disk
      ensures Outcome(disk, ok, left) == LogRotation.ArchivePending(old(disk), f)
    {
      var slots := disk.slots;
      var free: nat := 0;
      left := f;
      while free < |slots| && !Fails(left) && slots[free].Some?
        invariant free <= |slots| && FindFree(slots, free, left) == FindFree(slots, 0, f)
      {
        left := Rest(left);
        free := free + 1;
      }
      if free < |slots| {
        var failed := Fails(left);
        left := Rest(left);
        if failed {
          ok := false;
          return;
        }
      } else {
        free := |slots| - 1;
        var failed := Fails(left);
        left := Rest(left);
        if failed {
          ok := false;
          return;
        }
        disk := RemoveOldest(disk);
      }
      assert LogRotation.ArchivePending(old(disk), f) == Finish(disk, free, left);
      ghost var start, begun := disk, left;
      var index: nat := free;
      while index > 0 && !Fails(left) && disk.slots[index - 1].Some?
        invariant index < |disk.slots| == |slots|
        invariant Shift(disk, index, left) == Shift(start, free, begun)
      {
        disk := MoveUp(disk, index);
        left := Rest(left);
        index := index - 1;
      }
      if index > 0 {
        left := Rest(left);
        ok := false;
        return;
      }
      ok := !Fails(left) && disk.pending.Some?;
      left := Rest(left);
      if ok { disk := Place(disk); }
    }

    method Reopen(truncate: bool, f: Faults)
      modifies this
      ensures View() == LogRotation.Reopen(old(View()), truncate, f)
    {
      open := !Fails(f);
      if open && (truncate || disk.active.None?) { disk := Create(disk); }
      if !Fails(Rest(f)) && disk.active.Some? { fileBytes := disk.active.value.size; }
    }

    method Rotate(f: Faults) returns (ok: bool)
      requires disk.slots != []
      modifies this
      ensures (View(), ok) == LogRotation.Rotate(old(View()), f)
    {
      var left := Rest(f);
      var moved := !Fails(f);
      if moved {
        if disk.pending.Some? { moved, left := ArchivePending(left); }
        if moved {
          moved := !Fails(left) && disk.active.Some?;
          left := Rest(left);
          if moved { disk := SetAside(disk); }
        }
      }
      if !moved {
        Reopen(false, left);
        return false;
      }
      var archived;
      archived, left := ArchivePending(left);
      Reopen(true, left);
      ok := archived && open;
    }

    method Write(size: nat, written: nat)
      modifies this
      ensures View() == Append(old(View()), size, written)
    {
      if open && disk.active.Some? { disk := Grow(disk, Min(written, size)); }
      fileBytes := fileBytes + size;
    }

    method Output(size: nat, written: nat, f: Faults) returns (ok: bool)
      requires disk.slots != []
      modifies this
      ensures (View(), ok) == LogRotation.Output(old(View()), size, written, f)
    {
      hide LogRotation.Rotate;
      var rotated := true;
      if !(fileBytes <= maxBytes && size <= maxBytes - fileBytes) {
        rotated := Rotate(f);
        if !(fileBytes <= maxBytes && size <= maxBytes - fileBytes) { return false; }
      }
      Write(size, written);
      ok := rotated && open && size <= written;
    }
  }
}
