/**
  Where the bytes go: rotation moves whole segments and changes none, and a record lands in the active file or nowhere.
 */
module LogBytes {
  import opened Common
  import opened LogRotation
  import opened LogSafety
  import opened LogRuns

  function Times(o: Option<Segment>, x: Segment): nat { if o == Some(x) then 1 else 0 }

  function Stored(slots: seq<Option<Segment>>, x: Segment): nat {
    if slots == [] then 0 else Stored(slots[..|slots| - 1], x) + Times(slots[|slots| - 1], x)
  }

  /** How often segment `x`, with its size, is found: on the disk, or among what was removed, replaced or deleted. */
  function Found(d: Disk, x: Segment): nat {
    Times(d.active, x) + Times(d.pending, x) + Stored(d.slots, x)
      + multiset(d.gone)[x] + multiset(d.overwritten)[x] + multiset(d.deleted)[x]
  }

  lemma {:induction false} StoredUpdate(s: seq<Option<Segment>>, i: nat, v: Option<Segment>, x: Segment)
    requires i < |s|
    ensures Stored(s[i := v], x) + Times(s[i], x) == Stored(s, x) + Times(v, x)
  {
    var t := s[i := v];
    if i == |s| - 1 {
      assert t[..i] == s[..i];
    } else {
      StoredUpdate(s[..|s| - 1], i, v, x);
      assert t[..|s| - 1] == s[..|s| - 1][i := v];
    }
  }

  lemma Noted(s: seq<Segment>, o: Option<Segment>, x: Segment)
    ensures multiset(s + Held(o))[x] == multiset(s)[x] + Times(o, x)
  {
  }

  lemma MoveUpMoves(d: Disk, i: nat, x: Segment)
    requires 0 < i < |d.slots|
    ensures Found(MoveUp(d, i), x) == Found(d, x)
  {
    StoredUpdate(d.slots, i, d.slots[i - 1], x);
    StoredUpdate(d.slots[i := d.slots[i - 1]], i - 1, None, x);
    Noted(d.overwritten, d.slots[i], x);
    hide Stored;
  }

  lemma RemoveMoves(d: Disk, x: Segment)
    requires d.slots != []
    ensures Found(RemoveOldest(d), x) == Found(d, x)
  {
    StoredUpdate(d.slots, |d.slots| - 1, None, x);
    Noted(d.gone, d.slots[|d.slots| - 1], x);
    hide Stored;
  }

  lemma PlaceMoves(d: Disk, x: Segment)
    requires d.slots != []
    ensures Found(Place(d), x) == Found(d, x)
  {
    StoredUpdate(d.slots, 0, d.pending, x);
    Noted(d.overwritten, d.slots[0], x);
    hide Stored;
  }

  lemma SetAsideMoves(d: Disk, x: Segment)
    ensures Found(SetAside(d), x) == Found(d, x)
  {
    Noted(d.overwritten, d.pending, x);
  }

  lemma CreateAdds(d: Disk, x: Segment)
    ensures Found(Create(d), x) == Found(d, x) + if x == Segment(d.next, 0) then 1 else 0
  {
    Noted(d.overwritten, d.active, x);
  }

  lemma {:induction false} ShiftMoves(d: Disk, index: nat, f: Faults, x: Segment)
    requires index < |d.slots|
    ensures Found(Shift(d, index, f).disk, x) == Found(d, x) && Shift(d, index, f).disk.next == d.next
    decreases index
  {
    hide Found;
    if index > 0 && !Fails(f) && d.slots[index - 1].Some? {
      MoveUpMoves(d, index, x);
      ShiftMoves(MoveUp(d, index), index - 1, Rest(f), x);
    }
  }

  lemma FinishMoves(d: Disk, free: nat, f: Faults, x: Segment)
    requires free < |d.slots|
    ensures Found(Finish(d, free, f).disk, x) == Found(d, x) && Finish(d, free, f).disk.next == d.next
  {
    hide Shift, Found;
    ShiftMoves(d, free, f, x);
    PlaceMoves(Shift(d, free, f).disk, x);
  }

  lemma ArchiveMoves(d: Disk, f: Faults, x: Segment)
    requires d.slots != []
    ensures Found(ArchivePending(d, f).disk, x) == Found(d, x) && ArchivePending(d, f).disk.next == d.next
  {
    hide FindFree, Finish, Found;
    var (free, f1) := FindFree(d.slots, 0, f);
    RemoveMoves(d, x);
    if free.Some? {
      if free.value < |d.slots| { FinishMoves(d, free.value, f1, x); } else { FinishMoves(RemoveOldest(d), |d.slots| - 1, Rest(f1), x); }
    }
  }

  lemma VacateMoves(d: Disk, f: Faults, x: Segment)
    requires d.slots != []
    ensures Found(Vacate(d, f).disk, x) == Found(d, x) && Vacate(d, f).disk.next == d.next
  {
    hide ArchivePending, Found;
    ArchiveMoves(d, Rest(f), x);
    SetAsideMoves(d, x);
    SetAsideMoves(ArchivePending(d, Rest(f)).disk, x);
  }

  lemma ReopenAdds(l: Logger, truncate: bool, f: Faults, x: Segment)
    ensures var e := Reopen(l, truncate, f).disk;
      && l.disk.next <= e.next <= l.disk.next + 1
      && Found(e, x) == Found(l.disk, x) + if e.next == l.disk.next + 1 && x == Segment(l.disk.next, 0) then 1 else 0
  {
    hide Found;
    CreateAdds(l.disk, x);
  }

  /**
    Whatever fails on the way, a rotation only moves segments: each is found as often as before and with the same size,
    but for one new empty segment when a file was created.
   */
  lemma RotationMovesWholeSegments(l: Logger, f: Faults, x: Segment)
    requires l.disk.slots != []
    ensures var d, e := l.disk, Rotate(l, f).0.disk;
      && d.next <= e.next <= d.next + 1
      && Found(e, x) == Found(d, x) + if e.next == d.next + 1 && x == Segment(d.next, 0) then 1 else 0
  {
    hide Vacate, ArchivePending, Reopen, Found;
    VacateMoves(l.disk, f, x);
    var moved := Vacate(l.disk, f);
    if moved.ok {
      ArchiveMoves(moved.disk, moved.faults, x);
      var kept := ArchivePending(moved.disk, moved.faults);
      ReopenAdds(l.(disk := kept.disk), true, kept.faults, x);
    } else {
      ReopenAdds(l.(disk := moved.disk), false, moved.faults, x);
    }
  }

  /** An archived segment is file.1. */
  lemma ArchivedFirst(d: Disk, f: Faults)
    requires d.slots != [] && ArchivePending(d, f).ok
    ensures ArchivePending(d, f).disk.slots[0] == d.pending
  {
    hide Shift, FindFree;
    var (free, f1) := FindFree(d.slots, 0, f);
    if free.value < |d.slots| { ShiftActive(d, free.value, f1); } else { ShiftActive(RemoveOldest(d), |d.slots| - 1, Rest(f1)); }
  }

  lemma ReopenKeepsRest(l: Logger, truncate: bool, f: Faults)
    ensures var r := Reopen(l, truncate, f); r.disk.slots == l.disk.slots && r.disk.pending == l.disk.pending
    ensures !truncate && l.disk.active.Some? ==> Reopen(l, truncate, f).disk.active == l.disk.active
  {
  }

  /** Two places of a shelf do not hold the same segment. */
  lemma ShelvedOnce(d: Disk)
    requires d.slots != [] && Ordered(d)
    ensures d.active.Some? ==> d.slots[0] != d.active
    ensures d.pending.Some? ==> d.slots[0] != d.pending
  {
    var s := Shelf(d);
    assert s[0] == d.active && s[1] == d.pending && s[2] == d.slots[0];
  }

  /** A rotation reports success exactly when the file that was active is now file.1 and the stream is open. */
  lemma RotationReports(l: Logger, f: Faults, origin: Disk, full: nat)
    requires Sound(l, origin, full)
    ensures l.disk.slots != []
    ensures var (r, ok) := Rotate(l, f);
      |r.disk.slots| > 0 && (ok <==> l.disk.active.Some? && r.disk.slots[0] == l.disk.active && r.open)
  {
    assert l.disk.slots != [];
    hide Good, Vacate, ArchivePending, Reopen, Ordered;
    VacateGood(l.disk, f, origin, full);
    VacatedPending(l.disk, f);
    var moved := Vacate(l.disk, f);
    if moved.ok {
      ArchiveGood(moved.disk, moved.faults, origin, full);
      var kept := ArchivePending(moved.disk, moved.faults);
      ReopenKeepsRest(l.(disk := kept.disk), true, kept.faults);
      if kept.ok { ArchivedFirst(moved.disk, moved.faults); } else { GoodOnce(kept.disk, origin, full); }
    } else {
      ReopenKeepsRest(l.(disk := moved.disk), false, moved.faults);
      GoodOnce(moved.disk, origin, full);
    }
  }

  lemma GoodOnce(d: Disk, origin: Disk, full: nat)
    requires Good(d, origin, full)
    ensures d.slots != [] && (d.active.Some? ==> d.slots[0] != d.active)
    ensures (d.pending.Some? ==> d.slots[0] != d.pending)
  {
    ShelvedOnce(d);
  }

  lemma VacatedPending(d: Disk, f: Faults)
    requires d.slots != []
    ensures Vacate(d, f).ok ==> d.active.Some? && Vacate(d, f).disk.pending == d.active
  {
    hide ArchivePending;
    if d.pending.Some? { ArchiveActive(d, Rest(f)); }
  }

  /** A record of `size` bytes leaves room below the limit. */
  predicate Room(l: Logger, size: nat) { l.fileBytes + size <= l.maxBytes }

  /** `r` is `l` after the writer put `size` bytes to its file, of which `written` arrive. */
  ghost predicate Landed(l: Logger, r: Logger, size: nat, written: nat) {
    && r.fileBytes == l.fileBytes + size && r.open == l.open && r.maxBytes == l.maxBytes
    && (l.open && l.disk.active.Some? ==>
          r.disk == l.disk.(active := Some(Segment(l.disk.active.value.id, l.disk.active.value.size + Min(written, size)))))
    && (!l.open || l.disk.active.None? ==> r.disk == l.disk)
  }

  /**
    A record that leaves room grows the active file by the bytes written and touches nothing else; it is reported as put
    out exactly when the stream is open and all of it was written.  Any other record is put out behind a rotation that
    makes room for it, or dropped; and then nothing but the rotation has happened.
   */
  lemma RecordLandsOrIsDropped(l: Logger, size: nat, written: nat, f: Faults)
    requires l.disk.slots != []
    ensures var (r, ok) := Output(l, size, written, f);
      var (l1, rotated) := if Room(l, size) then (l, true) else Rotate(l, f);
      && (Room(l1, size) ==> Landed(l1, r, size, written) && ok == (rotated && l1.open && size <= written))
      && (!Room(l1, size) ==> r == l1 && !ok)
  {
    hide Rotate;
  }
}
