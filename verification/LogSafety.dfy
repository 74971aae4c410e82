/** What every run of the rotation keeps: order, no lost segment, removal only when every slot is taken. */
module LogSafety {
  import opened Common
  import opened LogRotation

  /** Newest origin. */
  function Shelf(d: Disk): seq<Option<Segment>> { [d.active, d.pending] + d.slots }

  predicate Ordered(d: Disk) {
    var s := Shelf(d);
    && (forall i, j :: 0 <= i < j < |s| && s[i].Some? && s[j].Some? ==> s[i].value.id > s[j].value.id)
    && (forall i :: 0 <= i < |s| && s[i].Some? ==> s[i].value.id < d.next)
  }

  /** Whatever retention removed is older than whatever is left. */
  predicate GoneAreOldest(d: Disk) {
    var s := Shelf(d);
    && (forall g, i :: 0 <= g < |d.gone| && 0 <= i < |s| && s[i].Some? ==> d.gone[g].id < s[i].value.id)
    && (forall g :: 0 <= g < |d.gone| ==> d.gone[g].id < d.next)
  }

  predicate On(s: seq<Option<Segment>>, id: nat) { exists i :: 0 <= i < |s| && s[i].Some? && s[i].value.id == id }
  predicate Among(s: seq<Segment>, id: nat) { exists i :: 0 <= i < |s| && s[i].id == id }

  predicate Accounted(d: Disk, id: nat) { On(Shelf(d), id) || Among(d.gone, id) || Among(d.deleted, id) }

  /**
    Every segment on the disk at the start or created since is there, was removed by retention, or was deleted by
    someone else.
   */
  ghost predicate Conserved(d: Disk, origin: Disk) {
    origin.next <= d.next && forall id: nat :: Accounted(origin, id) || origin.next <= id < d.next ==> Accounted(d, id)
  }

  function Count(s: seq<Option<Segment>>): nat {
    if s == [] then 0 else Count(s[..|s| - 1]) + |Held(s[|s| - 1])|
  }

  /** The archive's books, from `full` taken slots at the start. */
  predicate Booked(d: Disk, full: nat) {
    && full <= |d.slots|
    && Count(d.slots) + |d.gone| == full + d.archived
    && (d.gone != [] ==> Count(d.slots) + 1 >= |d.slots|)
  }

  ghost predicate Good(d: Disk, origin: Disk, full: nat) {
    && d.slots != [] && d.overwritten == []
    && Ordered(d) && GoneAreOldest(d) && Conserved(d, origin) && Booked(d, full)
  }

  lemma {:induction false} CountUpdate(s: seq<Option<Segment>>, i: nat, v: Option<Segment>)
    requires i < |s|
    ensures Count(s[i := v]) + |Held(s[i])| == Count(s) + |Held(v)|
  {
    var t := s[i := v];
    if i == |s| - 1 {
      assert t[..i] == s[..i];
    } else {
      CountUpdate(s[..|s| - 1], i, v);
      assert t[..|s| - 1] == s[..|s| - 1][i := v];
    }
  }

  lemma {:induction false} CountFull(s: seq<Option<Segment>>)
    requires forall i :: 0 <= i < |s| ==> s[i].Some?
    ensures Count(s) == |s|
  {
    if s != [] { CountFull(s[..|s| - 1]); }
  }

  lemma {:induction false} CountBound(s: seq<Option<Segment>>)
    ensures Count(s) <= |s|
  {
    if s != [] { CountBound(s[..|s| - 1]); }
  }

  // One file operation.

  /** Nothing was dropped: what was on the shelf still is, or has been noted. */
  ghost predicate Keeps(d: Disk, e: Disk) {
    && d.next <= e.next
    && (forall id: nat :: Accounted(d, id) ==> Accounted(e, id))
    && (forall id: nat :: d.next <= id < e.next ==> Accounted(e, id))
  }

  lemma MoveUpKeeps(d: Disk, i: nat)
    requires 0 < i < |d.slots| && d.slots[i].None?
    ensures Keeps(d, MoveUp(d, i))
  {
    var e := MoveUp(d, i);
    var s, t := Shelf(d), Shelf(e);
    forall id: nat | On(s, id)
      ensures On(t, id)
    {
      var k :| 0 <= k < |s| && s[k].Some? && s[k].value.id == id;
      if k == i + 1 { assert t[i + 2] == s[k]; } else { assert t[k] == s[k]; }
    }
  }

  lemma RemoveKeeps(d: Disk)
    requires d.slots != []
    ensures Keeps(d, RemoveOldest(d))
  {
    var e := RemoveOldest(d);
    var s, t := Shelf(d), Shelf(e);
    forall id: nat | Accounted(d, id)
      ensures Accounted(e, id)
    {
      if On(s, id) {
        var k :| 0 <= k < |s| && s[k].Some? && s[k].value.id == id;
        if k == |s| - 1 { assert e.gone[|d.gone|].id == id; } else { assert t[k] == s[k]; }
      } else if Among(d.gone, id) {
        var g :| 0 <= g < |d.gone| && d.gone[g].id == id;
        assert e.gone[g].id == id;
      }
    }
  }

  lemma PlaceKeeps(d: Disk)
    requires d.slots != [] && d.slots[0].None?
    ensures Keeps(d, Place(d))
  {
    var e := Place(d);
    var s, t := Shelf(d), Shelf(e);
    forall id: nat | On(s, id)
      ensures On(t, id)
    {
      var k :| 0 <= k < |s| && s[k].Some? && s[k].value.id == id;
      if k == 1 { assert t[2] == s[k]; } else { assert t[k] == s[k]; }
    }
  }

  lemma SetAsideKeeps(d: Disk)
    requires d.pending.None?
    ensures Keeps(d, SetAside(d))
  {
    var e := SetAside(d);
    var s, t := Shelf(d), Shelf(e);
    forall id: nat | On(s, id)
      ensures On(t, id)
    {
      var k :| 0 <= k < |s| && s[k].Some? && s[k].value.id == id;
      if k == 0 { assert t[1] == s[k]; } else { assert t[k] == s[k]; }
    }
  }

  lemma CreateKeeps(d: Disk)
    requires d.active.None?
    ensures Keeps(d, Create(d))
  {
    var e := Create(d);
    var s, t := Shelf(d), Shelf(e);
    assert t[0].value.id == d.next;
    forall id: nat | On(s, id)
      ensures On(t, id)
    {
      var k :| 0 <= k < |s| && s[k].Some? && s[k].value.id == id;
      assert t[k] == s[k];
    }
  }

  lemma GrowKeeps(d: Disk, bytes: nat)
    requires d.active.Some?
    ensures Keeps(d, Grow(d, bytes))
  {
    var e := Grow(d, bytes);
    var s, t := Shelf(d), Shelf(e);
    forall id: nat | On(s, id)
      ensures On(t, id)
    {
      var k :| 0 <= k < |s| && s[k].Some? && s[k].value.id == id;
      assert t[k].Some? && t[k].value.id == id;
    }
  }

  lemma DeleteKeeps(d: Disk)
    ensures Keeps(d, Delete(d))
  {
    var e := Delete(d);
    var s, t := Shelf(d), Shelf(e);
    forall id: nat | Accounted(d, id)
      ensures Accounted(e, id)
    {
      if On(s, id) {
        var k :| 0 <= k < |s| && s[k].Some? && s[k].value.id == id;
        if k == 0 { assert e.deleted[|d.deleted|].id == id; } else { assert t[k] == s[k]; }
      } else if Among(d.deleted, id) {
        var g :| 0 <= g < |d.deleted| && d.deleted[g].id == id;
        assert e.deleted[g].id == id;
      }
    }
  }

  lemma Carried(d: Disk, e: Disk, origin: Disk)
    requires Conserved(d, origin) && Keeps(d, e)
    ensures Conserved(e, origin)
  {
    forall id: nat | Accounted(origin, id) || origin.next <= id < e.next
      ensures Accounted(e, id)
    {
      if Accounted(origin, id) || id < d.next { assert Accounted(d, id); }
    }
  }

  lemma MoveUpGood(d: Disk, i: nat, origin: Disk, full: nat)
    requires Good(d, origin, full) && 0 < i < |d.slots| && d.slots[i].None?
    ensures Good(MoveUp(d, i), origin, full)
  {
    hide Conserved, Keeps, Ordered, GoneAreOldest, Accounted, Count;
    var e := MoveUp(d, i);
    MoveUpKeeps(d, i);
    Carried(d, e, origin);
    MoveUpCount(d.slots, i);
    assert Shelf(e) == Shelf(d)[i + 2 := Shelf(d)[i + 1]][i + 1 := None];
    Renamed(d, e, i + 1, i + 2);
  }

  lemma MoveUpCount(s: seq<Option<Segment>>, i: nat)
    requires 0 < i < |s| && s[i].None?
    ensures Count(s[i := s[i - 1]][i - 1 := None]) == Count(s)
  {
    CountUpdate(s, i, s[i - 1]);
    CountUpdate(s[i := s[i - 1]], i - 1, None);
  }

  /** A rename along the shelf into a hole next to it keeps the order. */
  lemma Renamed(d: Disk, e: Disk, from: nat, to: nat)
    requires Ordered(d) && GoneAreOldest(d) && to == from + 1 < |Shelf(d)|
    requires Shelf(d)[to].None? && Shelf(e) == Shelf(d)[to := Shelf(d)[from]][from := None]
    requires e.gone == d.gone && e.next == d.next
    ensures Ordered(e) && GoneAreOldest(e)
  {
    var s, t := Shelf(d), Shelf(e);
    assert forall k :: 0 <= k < |s| && k != from && k != to ==> t[k] == s[k];
    assert t[to] == s[from] && t[from].None?;
  }

  lemma PlaceGood(d: Disk, origin: Disk, full: nat)
    requires Good(d, origin, full) && d.pending.Some? && d.slots[0].None?
    ensures Good(Place(d), origin, full)
  {
    var e := Place(d);
    PlaceKeeps(d);
    Carried(d, e, origin);
    CountUpdate(d.slots, 0, d.pending);
    Renamed(d, e, 1, 2);
  }

  lemma SetAsideGood(d: Disk, origin: Disk, full: nat)
    requires Good(d, origin, full) && d.pending.None?
    ensures Good(SetAside(d), origin, full)
  {
    var e := SetAside(d);
    SetAsideKeeps(d);
    Carried(d, e, origin);
    Renamed(d, e, 0, 1);
  }

  lemma RemoveGood(d: Disk, origin: Disk, full: nat)
    requires Good(d, origin, full)
    requires forall i :: 0 <= i < |d.slots| ==> d.slots[i].Some?
    ensures Good(RemoveOldest(d), origin, full)
  {
    hide Conserved, Keeps, Ordered, GoneAreOldest, Accounted, Count;
    RemoveKeeps(d);
    Carried(d, RemoveOldest(d), origin);
    CountFull(d.slots);
    CountUpdate(d.slots, |d.slots| - 1, None);
    RemoveOrdered(d);
  }

  lemma RemoveOrdered(d: Disk)
    requires d.slots != [] && d.slots[|d.slots| - 1].Some? && Ordered(d) && GoneAreOldest(d)
    ensures Ordered(RemoveOldest(d)) && GoneAreOldest(RemoveOldest(d))
  {
    var e := RemoveOldest(d);
    var s, t := Shelf(d), Shelf(e);
    var last := |s| - 1;
    assert forall k :: 0 <= k < last ==> t[k] == s[k];
    assert t[last].None? && e.gone == d.gone + [s[last].value];
  }

  lemma CreateGood(d: Disk, origin: Disk, full: nat)
    requires Good(d, origin, full) && d.active.None?
    ensures Good(Create(d), origin, full)
  {
    var e := Create(d);
    CreateKeeps(d);
    Carried(d, e, origin);
    var s, t := Shelf(d), Shelf(e);
    assert forall k :: 1 <= k < |s| ==> t[k] == s[k];
    assert t[0] == Some(Segment(d.next, 0));
  }

  lemma GrowGood(d: Disk, bytes: nat, origin: Disk, full: nat)
    requires Good(d, origin, full) && d.active.Some?
    ensures Good(Grow(d, bytes), origin, full)
  {
    var e := Grow(d, bytes);
    GrowKeeps(d, bytes);
    Carried(d, e, origin);
    var s, t := Shelf(d), Shelf(e);
    assert forall k :: 1 <= k < |s| ==> t[k] == s[k];
    assert t[0].Some? && t[0].value.id == s[0].value.id;
  }

  lemma DeleteGood(d: Disk, origin: Disk, full: nat)
    requires Good(d, origin, full)
    ensures Good(Delete(d), origin, full)
  {
    var e := Delete(d);
    DeleteKeeps(d);
    Carried(d, e, origin);
    var s, t := Shelf(d), Shelf(e);
    assert forall k :: 1 <= k < |s| ==> t[k] == s[k];
    assert t[0].None?;
  }

  // The rotation.

  lemma {:induction false} ShiftGood(d: Disk, index: nat, f: Faults, origin: Disk, full: nat)
    requires Good(d, origin, full) && index < |d.slots| && d.slots[index].None?
    ensures var r := Shift(d, index, f);
      && Good(r.disk, origin, full) && r.disk.active == d.active && r.disk.pending == d.pending && r.disk.gone == d.gone
      && (r.ok ==> r.disk.slots[0].None?)
    decreases index
  {
    hide Good;
    if index > 0 && !Fails(f) && d.slots[index - 1].Some? {
      MoveUpGood(d, index, origin, full);
      ShiftGood(MoveUp(d, index), index - 1, Rest(f), origin, full);
    }
  }

  lemma FinishGood(d: Disk, free: nat, f: Faults, origin: Disk, full: nat)
    requires Good(d, origin, full) && free < |d.slots| && d.slots[free].None?
    ensures var r := Finish(d, free, f);
      && Good(r.disk, origin, full) && r.disk.active == d.active && r.disk.gone == d.gone
      && (if r.ok then r.disk.pending.None? else r.disk.pending == d.pending)
  {
    hide Good, Shift;
    assert d.slots != [];
    ShiftGood(d, free, f, origin, full);
    var shifted := Shift(d, free, f);
    if shifted.ok && !Fails(shifted.faults) && shifted.disk.pending.Some? { PlaceGood(shifted.disk, origin, full); }
  }

  /** Retention removes a segment only when every slot is taken, and then only the oldest. */
  lemma ArchiveGood(d: Disk, f: Faults, origin: Disk, full: nat)
    requires Good(d, origin, full)
    ensures var r := ArchivePending(d, f);
      && Good(r.disk, origin, full) && r.disk.active == d.active
      && (if r.ok then r.disk.pending.None? else r.disk.pending == d.pending)
      && (r.disk.gone == d.gone || ((forall i :: 0 <= i < |d.slots| ==> d.slots[i].Some?) && r.disk.gone == d.gone + [d.slots[|d.slots| - 1].value]))
  {
    assert d.slots != [];
    hide Good, Finish;
    var (free, f1) := FindFree(d.slots, 0, f);
    if free.Some? {
      if free.value < |d.slots| {
        FinishGood(d, free.value, f1, origin, full);
      } else if !Fails(f1) {
        RemoveGood(d, origin, full);
        FinishGood(RemoveOldest(d), |d.slots| - 1, Rest(f1), origin, full);
      }
    }
  }

  lemma VacateGood(d: Disk, f: Faults, origin: Disk, full: nat)
    requires Good(d, origin, full)
    ensures var r := Vacate(d, f);
      && Good(r.disk, origin, full) && (if r.ok then r.disk.active.None? else r.disk.active == d.active)
      && (d.pending.None? ==> r.disk == if r.ok then SetAside(d) else d)
  {
    assert d.slots != [];
    hide Good, ArchivePending;
    if !Fails(f) {
      if d.pending.Some? { ArchiveGood(d, Rest(f), origin, full); }
      var cleared := if d.pending.Some? then ArchivePending(d, Rest(f)) else Outcome(d, true, Rest(f));
      if cleared.ok && !Fails(cleared.faults) && cleared.disk.active.Some? { SetAsideGood(cleared.disk, origin, full); }
    }
  }

  /** The writer never believes the active file smaller than it is. */
  predicate Measured(l: Logger) { l.disk.active.Some? ==> l.disk.active.value.size <= l.fileBytes }

  ghost predicate Sound(l: Logger, origin: Disk, full: nat) { Good(l.disk, origin, full) && Measured(l) }

  /** A file is opened to truncate only when there is none, so truncation loses nothing. */
  lemma ReopenSound(l: Logger, truncate: bool, f: Faults, origin: Disk, full: nat)
    requires Sound(l, origin, full) && (truncate ==> l.disk.active.None?)
    ensures Sound(Reopen(l, truncate, f), origin, full)
  {
    hide Good;
    if !Fails(f) && (truncate || l.disk.active.None?) { CreateGood(l.disk, origin, full); }
  }

  lemma RotateSound(l: Logger, f: Faults, origin: Disk, full: nat)
    requires Sound(l, origin, full)
    ensures l.disk.slots != []
    ensures Sound(Rotate(l, f).0, origin, full)
  {
    assert l.disk.slots != [];
    hide Good, Vacate, ArchivePending, Reopen;
    VacateGood(l.disk, f, origin, full);
    var moved := Vacate(l.disk, f);
    if !moved.ok {
      ReopenSound(l.(disk := moved.disk), false, moved.faults, origin, full);
    } else {
      ArchiveGood(moved.disk, moved.faults, origin, full);
      var kept := ArchivePending(moved.disk, moved.faults);
      ReopenSound(l.(disk := kept.disk), true, kept.faults, origin, full);
    }
  }

  lemma AppendSound(l: Logger, size: nat, written: nat, origin: Disk, full: nat)
    requires Sound(l, origin, full) && Fits(l, size)
    ensures Sound(Append(l, size, written), origin, full)
    ensures var a := Append(l, size, written).disk.active; a.Some? ==> a.value.size <= l.maxBytes
  {
    hide Good;
    if l.open && l.disk.active.Some? { GrowGood(l.disk, Min(written, size), origin, full); }
  }
}
