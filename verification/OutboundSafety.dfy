/**
What every interleaving of the outbound pump keeps: one pump owner, one discard loop, exact
message and byte accounting, and a terminal state that is reached and never left.
*/
module OutboundSafety {
  import opened Common
  import opened OutboundQueue
  import opened OutboundPump

  /** A continuation of a thread outside the pump loop. */
  predicate Base(k: Cont) {
    match k
    case Return => true
    case TimerReturn(_) => true
    case FinishThen(k1) => Base(k1)
    case ExitPump(_) => false
  }

  predicate InPumpHalt(k: Cont) { k.ExitPump? && Base(k.k) }

  predicate PcOk(pc: Pc) {
    match pc
    case TimerCheck(_) => true
    case RetryEntry(_) => true
    case HaltEntry(code, k) => code != Ok && (Base(k) || InPumpHalt(k))
    case HaltCancel(_, _, k) => Base(k) || InPumpHalt(k)
    case HaltNext(k) => Base(k) || InPumpHalt(k)
    case HaltRelease(_, k) => Base(k) || InPumpHalt(k)
    case FinishCheck(k) => Base(k) || InPumpHalt(k)
    case _ => Base(pc.k)
  }

  /** The program points at which a thread owns the pump. */
  predicate HoldsPump(pc: Pc) {
    match pc
    case DriveEntry(_) => false
    case ResetWaits(_, next, _) => next != ToFinish
    case DeferSubscribe(_, _, _) => false
    case DeferStore(_, _) => false
    case HaltEntry(_, k) => k.ExitPump?
    case HaltCancel(_, _, k) => k.ExitPump?
    case HaltNext(k) => k.ExitPump?
    case HaltRelease(_, k) => k.ExitPump?
    case FinishCheck(k) => k.ExitPump?
    case TimerCheck(_) => false
    case RetryEntry(_) => false
    case _ => true
  }

  predicate HoldsHalt(pc: Pc) { pc.HaltCancel? || pc.HaltNext? || pc.HaltRelease? }

  /** Entries taken off the queue whose charge is not returned yet. */
  function PumpHeld(pc: Pc): seq<Entry> {
    if pc.ReleaseExpired? || pc.ReleaseSent? then pc.retired else []
  }

  function HaltHeld(pc: Pc): seq<Entry> {
    if pc.HaltRelease? then [pc.detached] else []
  }

  function ItemOf(pc: Pc): Option<Entry> {
    if pc.Sending? then Some(pc.entry) else if pc.ReleaseExpired? then pc.item else None
  }

  ghost predicate Owners(w: World) {
    && (forall t :: t in w.threads ==> PcOk(w.threads[t]))
    && (forall t :: t in w.threads ==> (HoldsPump(w.threads[t]) <==> w.pump == Some(t)))
    && (forall t :: t in w.threads ==> (HoldsHalt(w.threads[t]) <==> w.halter == Some(t)))
    && (w.pump.Some? ==> w.pump.value in w.threads)
    && (w.halter.Some? ==> w.halter.value in w.threads)
    && (w.q.pumping <==> w.pump.Some?)
    && (w.q.halting <==> w.halter.Some?)
    && (w.q.halting ==> w.q.closed)
  }

  /** What the pump owner and the discard loop hold outside the queue. */
  datatype Held = Held(retired: seq<Entry>, item: Option<Entry>, detached: seq<Entry>)

  function PumpPart(w: World): (seq<Entry>, Option<Entry>) {
    if w.pump.Some? && w.pump.value in w.threads
    then (PumpHeld(w.threads[w.pump.value]), ItemOf(w.threads[w.pump.value])) else ([], None)
  }

  function HaltPart(w: World): seq<Entry> {
    if w.halter.Some? && w.halter.value in w.threads then HaltHeld(w.threads[w.halter.value]) else []
  }

  function Holding(w: World): Held {
    Held(PumpPart(w).0, PumpPart(w).1, HaltPart(w))
  }

  /** The entry being sent is in the queue, and identities and latest keys are unique. */
  ghost predicate Items(q: Queue, h: Held, nextEntry: nat) {
    && Distinct(q.entries)
    && (forall e :: e in q.entries ==> e.id < nextEntry)
    && q.active == h.item
    && (q.active.Some? ==> q.active.value in q.entries)
  }

  /** Every accepted message is queued, sent, replaced, expired or discarded; charges match and fit. */
  ghost predicate Accounts(q: Queue, o: Options, h: Held) {
    && ValidOptions(o)
    && q.enqueued == |q.entries| + q.sent + q.replaced + q.expired + q.discarded
    && q.pending == |q.entries| + |h.retired| + |h.detached|
    && q.retained == Wire(q.entries) + Wire(h.retired) + Wire(h.detached)
    && q.pending <= o.maxMessages
    && q.retained <= o.maxRetainedBytes
  }

  /** The queue finishes with Ok only when nothing was discarded. */
  ghost predicate Outcome(q: Queue) {
    && (!q.closed ==> q.discarded == 0)
    && (q.closed ==> q.result != Ok)
    && (q.result == Ok ==> q.terminal)
    && (q.terminal ==> (q.closed || q.draining) && q.entries == [] && q.pending == 0 && !q.halting)
    && (q.terminal && !q.closed ==> q.result == Ok)
  }

  ghost predicate QueueInv(q: Queue, o: Options, h: Held, nextEntry: nat) {
    Items(q, h, nextEntry) && Accounts(q, o, h) && Outcome(q)
  }

  ghost predicate HaltComing(w: World) {
    exists t :: t in w.threads && w.threads[t].HaltEntry?
  }

  predicate WillFinish(pc: Pc) {
    || pc.FinishCheck? || pc.DeferSubscribe? || pc.DeferStore? || pc.HaltEntry?
    || (pc.ResetWaits? && pc.next == ToFinish)
    || (pc.DriveEntry? && pc.k.FinishThen?)
  }

  ghost predicate FinishComing(w: World) {
    exists t :: t in w.threads && WillFinish(w.threads[t])
  }

  /** A closed queue empties itself, and completion is never forgotten. */
  ghost predicate Ending(w: World) {
    && (w.q.closed && !w.q.halting ==>
          (forall e :: e in w.q.entries ==> w.q.active == Some(e)) || HaltComing(w))
    && ((w.q.closed || (w.q.draining && w.q.entries == [])) && !w.q.pumping && !w.q.halting && !w.q.terminal ==>
          FinishComing(w))
  }

  ghost predicate Safe(w: World) {
    Owners(w) && QueueInv(w.q, w.opts, Holding(w), w.nextEntry) && Ending(w)
  }

  lemma InitialSafe(o: Options, clock: int)
    requires ValidOptions(o)
    ensures Safe(Initial(o, clock))
  {
  }

  // ---- Threads ---------------------------------------------------------------

  function NewOwner(owner: Option<nat>, t: nat, holds: bool): Option<nat> {
    if holds then Some(t) else if owner == Some(t) then None else owner
  }

  /** Thread `t`, running or new, is at `pc` after the step. */
  lemma Moved(w: World, w2: World, t: nat, pc: Pc)
    requires Owners(w) && PcOk(pc)
    requires w2.threads == w.threads[t := pc]
    requires w2.pump == NewOwner(w.pump, t, HoldsPump(pc)) && w2.halter == NewOwner(w.halter, t, HoldsHalt(pc))
    requires HoldsPump(pc) ==> w.pump == None || w.pump == Some(t)
    requires HoldsHalt(pc) ==> w.halter == None || w.halter == Some(t)
    requires (w2.q.pumping <==> w2.pump.Some?) && (w2.q.halting <==> w2.halter.Some?)
    requires w2.q.halting ==> w2.q.closed
    ensures Owners(w2)
    ensures PumpPart(w2) == if HoldsPump(pc) then (PumpHeld(pc), ItemOf(pc)) else if w.pump == Some(t) then ([], None)
      else PumpPart(w)
    ensures HaltPart(w2) == if HoldsHalt(pc) then HaltHeld(pc) else if w.halter == Some(t) then [] else HaltPart(w)
  {
  }

  /** Thread `t`, which owns nothing, ends. */
  lemma Left(w: World, w2: World, t: nat)
    requires Owners(w) && t in w.threads && !HoldsPump(w.threads[t]) && !HoldsHalt(w.threads[t])
    requires w2.threads == w.threads - {t} && w2.pump == w.pump && w2.halter == w.halter
    requires w2.q.pumping == w.q.pumping && w2.q.halting == w.q.halting && (w2.q.halting ==> w2.q.closed)
    ensures Owners(w2) && PumpPart(w2) == PumpPart(w) && HaltPart(w2) == HaltPart(w)
  {
  }

  /** What a move of thread `t` to `pc` means for the two pending obligations. */
  lemma Coming(w: World, w2: World, t: nat, pc: Pc)
    requires w2.threads == w.threads[t := pc]
    ensures HaltComing(w) && !(t in w.threads && w.threads[t].HaltEntry?) ==> HaltComing(w2)
    ensures FinishComing(w) && !(t in w.threads && WillFinish(w.threads[t])) ==> FinishComing(w2)
    ensures pc.HaltEntry? ==> HaltComing(w2)
    ensures WillFinish(pc) ==> FinishComing(w2)
  {
    assert w2.threads[t] == pc;
    if HaltComing(w) {
      var u :| u in w.threads && w.threads[u].HaltEntry?;
      assert u != t ==> w2.threads[u] == w.threads[u];
    }
    if FinishComing(w) {
      var u :| u in w.threads && WillFinish(w.threads[u]);
      assert u != t ==> w2.threads[u] == w.threads[u];
    }
  }

  lemma Ended(w: World, w2: World, t: nat)
    requires w2.threads == w.threads - {t}
    ensures HaltComing(w) && !(t in w.threads && w.threads[t].HaltEntry?) ==> HaltComing(w2)
    ensures FinishComing(w) && !(t in w.threads && WillFinish(w.threads[t])) ==> FinishComing(w2)
  {
    if HaltComing(w) {
      var u :| u in w.threads && w.threads[u].HaltEntry?;
      assert u != t ==> u in w2.threads && w2.threads[u] == w.threads[u];
    }
    if FinishComing(w) {
      var u :| u in w.threads && WillFinish(w.threads[u]);
      assert u != t ==> u in w2.threads && w2.threads[u] == w.threads[u];
    }
  }

  /** Returning from a call made by a thread that holds nothing but, possibly, the pump. */
  lemma Resumed(w: World, w1: World, t: nat, k: Cont)
    requires Owners(w) && t in w.threads && (Base(k) || InPumpHalt(k))
    requires HoldsPump(w.threads[t]) == k.ExitPump? && !HoldsHalt(w.threads[t])
    requires PumpHeld(w.threads[t]) == [] && ItemOf(w.threads[t]) == None
    requires w1.threads == w.threads && w1.pump == w.pump && w1.halter == w.halter
    requires w1.q.pumping == w.q.pumping && w1.q.halting == w.q.halting && w1.q.closed == w.q.closed
    ensures Owners(Resume(w1, t, k)) && Holding(Resume(w1, t, k)) == Holding(w)
    ensures Resume(w1, t, k).q == w1.q
    ensures HaltComing(w) && !w.threads[t].HaltEntry? ==> HaltComing(Resume(w1, t, k))
    ensures FinishComing(w) && !WillFinish(w.threads[t]) ==> FinishComing(Resume(w1, t, k))
    ensures k.FinishThen? ==> FinishComing(Resume(w1, t, k))
  {
    var w2 := Resume(w1, t, k);
    match k
    case Return => Left(w, w2, t); Ended(w, w2, t);
    case TimerReturn(_) => Left(w, w2, t); Ended(w, w2, t);
    case FinishThen(k1) => Moved(w, w2, t, FinishCheck(k1)); Coming(w, w2, t, FinishCheck(k1));
    case ExitPump(k1) => Moved(w, w2, t, FinalCheck(false, k1)); Coming(w, w2, t, FinalCheck(false, k1));
  }

  // ---- Sections on the queue -------------------------------------------------

  lemma AdmitKeeps(q: Queue, o: Options, h: Held, next: nat, e: Entry)
    requires QueueInv(q, o, h, next) && e.id == next
    ensures QueueInv(Admit(q, o, e).queue, o, h, next + 1)
  {
    if Admit(q, o, e).code == Ok {
      var i := if e.latestKey.Some? then FindLatest(q.entries, e.latestKey) else |q.entries|;
      if i < |q.entries| {
        WireUpdate(q.entries, i, e);
        ReplaceDistinct(q.entries, i, e, next);
      } else {
        WireConcat(q.entries, [e]);
        AppendDistinct(q.entries, e, next);
      }
    }
  }

  lemma ReplaceDistinct(es: seq<Entry>, i: nat, e: Entry, next: nat)
    requires Distinct(es) && (forall x :: x in es ==> x.id < next) && e.id == next
    requires i < |es| && es[i].latestKey == e.latestKey && e.latestKey.Some?
    ensures Distinct(es[i := e]) && (forall x :: x in es[i := e] ==> x.id < next + 1)
    ensures forall x :: x in es && x != es[i] ==> x in es[i := e]
  {
    var r := es[i := e];
    forall a, b | 0 <= a < b < |r| ensures !Clash(r[a], r[b]) {
      assert !Clash(es[a], es[b]);
      assert es[a] in es && es[b] in es;
    }
    forall x | x in es && x != es[i] ensures x in r {
      var j :| 0 <= j < |es| && es[j] == x;
      assert r[j] == x;
    }
  }

  lemma AppendDistinct(es: seq<Entry>, e: Entry, next: nat)
    requires Distinct(es) && (forall x :: x in es ==> x.id < next) && e.id == next
    requires e.latestKey.Some? ==> forall j :: 0 <= j < |es| ==> es[j].latestKey != e.latestKey
    ensures Distinct(es + [e]) && (forall x :: x in es + [e] ==> x.id < next + 1)
  {
    var r := es + [e];
    forall a, b | 0 <= a < b < |r| ensures !Clash(r[a], r[b]) {
      assert es[a] in es;
      if b < |es| { assert !Clash(es[a], es[b]); }
    }
  }

  lemma ScanKeeps(q: Queue, o: Options, h: Held, next: nat, now: int, attempts: nat)
    requires QueueInv(q, o, h, next) && h.retired == [] && h.item == None
    ensures var s := ScanQueue(q, o, now, attempts);
      QueueInv(s.queue, o, h.(retired := s.retired, item := s.item), next)
    ensures forall e :: e in ScanQueue(q, o, now, attempts).queue.entries ==> e in q.entries
  {
    ExpirySplits(q.entries, now);
    LiveDistinct(q.entries, now);
    forall e | e in Live(q.entries, now) ensures e in q.entries {
      LiveMembers(q.entries, now, e);
    }
  }

  lemma WithoutAt(es: seq<Entry>, i: nat, a: nat)
    requires i < |es| && a < |es| - 1
    ensures |Without(es, i)| == |es| - 1 && Without(es, i)[a] == es[if a < i then a else a + 1]
  {
  }

  lemma WithoutDistinct(es: seq<Entry>, i: nat)
    requires i < |es| && Distinct(es)
    ensures Distinct(Without(es, i))
  {
    var r := Without(es, i);
    forall a, b | 0 <= a < b < |r| ensures !Clash(r[a], r[b]) {
      WithoutAt(es, i, a);
      WithoutAt(es, i, b);
      assert !Clash(es[if a < i then a else a + 1], es[if b < i then b else b + 1]);
    }
  }

  lemma WithoutMembers(es: seq<Entry>, i: nat, e: Entry)
    requires i < |es| && Distinct(es)
    ensures e in Without(es, i) <==> e in es && e != es[i]
  {
    var r := Without(es, i);
    if e in es && e != es[i] {
      var j :| 0 <= j < |es| && es[j] == e;
      WithoutAt(es, i, if j < i then j else j - 1);
    }
    if e in r {
      var a :| 0 <= a < |r| && r[a] == e;
      WithoutAt(es, i, a);
      assert if a < i then !Clash(es[a], es[i]) else !Clash(es[i], es[a + 1]);
    }
  }

  lemma SettleKeeps(q: Queue, o: Options, h: Held, next: nat, item: Entry, code: ErrorCode)
    requires QueueInv(q, o, h, next) && h.retired == [] && h.item == Some(item)
    ensures QueueInv(SettleSend(q, item, code).queue, o, h.(retired := SettleSend(q, item, code).retired, item := None), next)
  {
    if code == Ok || q.closed {
      var i := FindEntry(q.entries, item);
      WithoutDistinct(q.entries, i);
      WireWithout(q.entries, i);
      assert Wire([item]) == item.bytes;
    }
  }

  /** Once closed, settling the last send empties the queue; while open only a success shortens it. */
  lemma SettleEmpties(q: Queue, item: Entry, code: ErrorCode)
    requires Distinct(q.entries) && item in q.entries
    ensures q.closed && (forall e :: e in q.entries ==> e == item) ==> SettleSend(q, item, code).queue.entries == []
  {
    if q.closed && (forall e :: e in q.entries ==> e == item) {
      var i := FindEntry(q.entries, item);
      var r := Without(q.entries, i);
      if r != [] {
        WithoutMembers(q.entries, i, r[0]);
      }
    }
  }

  lemma ReleaseKeeps(q: Queue, o: Options, h: Held, next: nat)
    requires QueueInv(q, o, h, next)
    ensures QueueInv(ReleaseEntries(q, h.retired), o, h.(retired := []), next)
    ensures QueueInv(ReleaseEntries(q, h.detached), o, h.(detached := []), next)
  {
  }

  lemma DetachKeeps(q: Queue, o: Options, h: Held, next: nat)
    requires QueueInv(q, o, h, next) && h.detached == [] && q.closed
    ensures QueueInv(Detach(q).queue, o, h.(detached := Detach(q).retired), next)
    ensures Detach(q).retired == [] ==> forall e :: e in q.entries ==> q.active == Some(e)
  {
    var i := FindIdle(q.entries, q.active);
    if i < |q.entries| {
      WithoutDistinct(q.entries, i);
      WireWithout(q.entries, i);
      forall e | e in Without(q.entries, i) ensures e in q.entries {
        WithoutMembers(q.entries, i, e);
      }
      if q.active.Some? {
        WithoutMembers(q.entries, i, q.active.value);
      }
      assert Wire([q.entries[i]]) == q.entries[i].bytes;
    }
  }

  // ---- Steps -----------------------------------------------------------------

  /** A step that moves thread `t` and leaves the queue and every holding alone. */
  lemma QuietSafe(w: World, w2: World, t: nat, pc: Pc)
    requires Safe(w) && t in w.threads && PcOk(pc)
    requires w2.q == w.q && w2.opts == w.opts && w2.nextEntry == w.nextEntry
    requires w2.threads == w.threads[t := pc] && w2.pump == w.pump && w2.halter == w.halter
    requires HoldsPump(pc) == HoldsPump(w.threads[t]) && HoldsHalt(pc) == HoldsHalt(w.threads[t])
    requires PumpHeld(pc) == PumpHeld(w.threads[t]) && ItemOf(pc) == ItemOf(w.threads[t])
    requires HaltHeld(pc) == HaltHeld(w.threads[t])
    requires w.threads[t].HaltEntry? ==> pc.HaltEntry?
    requires WillFinish(w.threads[t]) ==> WillFinish(pc)
    ensures Safe(w2)
  {
    Moved(w, w2, t, pc);
    Coming(w, w2, t, pc);
  }

  lemma DriveSafe(w: World, t: nat)
    requires Safe(w) && t in w.threads && w.threads[t].DriveEntry?
    ensures Safe(DriveStep(w, t, w.threads[t].k))
  {
    var k := w.threads[t].k;
    var w2 := DriveStep(w, t, k);
    if w.q.pumping || w.q.closed {
      Resumed(w, w.(q := w.q.(changed := true)), t, k);
    } else {
      Moved(w, w2, t, TakeCapacity(k));
      Coming(w, w2, t, TakeCapacity(k));
    }
  }

  lemma CapacitySafe(w: World, t: nat, pc: Pc, capacity: Option<nat>)
    requires Safe(w) && t in w.threads && PcOk(pc)
    requires HoldsPump(w.threads[t]) && HoldsPump(pc) && !pc.HaltEntry? && !w.threads[t].HaltEntry?
    requires !HoldsHalt(pc) && !HoldsHalt(w.threads[t])
    requires PumpHeld(pc) == [] && ItemOf(pc) == None
    requires PumpHeld(w.threads[t]) == [] && ItemOf(w.threads[t]) == None
    ensures Safe(Go(w.(q := w.q.(capacity := capacity)), t, pc))
  {
    var w2 := Go(w.(q := w.q.(capacity := capacity)), t, pc);
    Moved(w, w2, t, pc);
    Coming(w, w2, t, pc);
  }

  lemma ScanSafe(w: World, t: nat)
    requires Safe(w) && t in w.threads && w.threads[t].Scan?
    ensures Safe(ScanStep(w, t, w.threads[t].attempts, w.threads[t].k))
  {
    var n, k := w.threads[t].attempts, w.threads[t].k;
    var s := ScanQueue(w.q, w.opts, w.clock, n);
    var w2 := ScanStep(w, t, n, k);
    var pc := ReleaseExpired(s.retired, s.item, s.continuation, n, k);
    ScanKeeps(w.q, w.opts, Holding(w), w.nextEntry, w.clock, n);
    Moved(w, w2, t, pc);
    Coming(w, w2, t, pc);
  }

  /** Returning the charge of what the pump retired. */
  lemma ReleaseSafe(w: World, t: nat, pc: Pc)
    requires Safe(w) && t in w.threads && PcOk(pc)
    requires !w.threads[t].HaltEntry? && !HoldsHalt(w.threads[t]) && !HoldsHalt(pc)
    requires HoldsPump(w.threads[t]) && HoldsPump(pc) && PumpHeld(pc) == [] && ItemOf(pc) == ItemOf(w.threads[t])
    ensures Safe(Go(w.(q := ReleaseEntries(w.q, PumpHeld(w.threads[t]))), t, pc))
  {
    var w2 := Go(w.(q := ReleaseEntries(w.q, PumpHeld(w.threads[t]))), t, pc);
    ReleaseKeeps(w.q, w.opts, Holding(w), w.nextEntry);
    Moved(w, w2, t, pc);
    Coming(w, w2, t, pc);
  }

  lemma SendSafe(w: World, t: nat, code: ErrorCode)
    requires Safe(w) && t in w.threads && w.threads[t].Sending?
    ensures Safe(SendStep(w, t, w.threads[t].entry, w.threads[t].attempts, w.threads[t].k, SendResult(code)))
  {
    var e, n, k := w.threads[t].entry, w.threads[t].attempts, w.threads[t].k;
    var w2 := SendStep(w, t, e, n, k, SendResult(code));
    var pc := ReleaseSent(SettleSend(w.q, e, code).retired, code, n, k);
    SettleKeeps(w.q, w.opts, Holding(w), w.nextEntry, e, code);
    SettleEmpties(w.q, e, code);
    Moved(w, w2, t, pc);
    Coming(w, w2, t, pc);
  }

  /** The sink threw: the driver gives up the pump and halts the queue. */
  lemma ThrowSafe(w: World, t: nat)
    requires Safe(w) && t in w.threads && (w.threads[t].Sending? || w.threads[t].RegisterWait?)
    ensures Safe(Go(w.(q := w.q.(active := None, pumping := false), pump := None), t, HaltEntry(PlatformError, w.threads[t].k)))
  {
    var pc := HaltEntry(PlatformError, w.threads[t].k);
    var w2 := Go(w.(q := w.q.(active := None, pumping := false), pump := None), t, pc);
    Moved(w, w2, t, pc);
    Coming(w, w2, t, pc);
  }

  /** Giving up the pump towards a point that still runs FinishIfReady. */
  lemma HandoffSafe(w: World, w2: World, t: nat, pc: Pc)
    requires Safe(w) && t in w.threads && (w.threads[t].FinalCheck? || w.threads[t].Arming?)
    requires PcOk(pc) && WillFinish(pc) && !HoldsPump(pc) && !HoldsHalt(pc)
    requires w2.opts == w.opts && w2.nextEntry == w.nextEntry
    requires w2.q == w.q.(pumping := false, generation := w2.q.generation, timer := w2.q.timer)
    requires w2.threads == w.threads[t := pc] && w2.pump == None && w2.halter == w.halter
    ensures Safe(w2)
  {
    Moved(w, w2, t, pc);
    Coming(w, w2, t, pc);
  }

  lemma DeferStoreSafe(w: World, t: nat)
    requires Safe(w) && t in w.threads && w.threads[t].DeferStore?
    ensures Safe(DeferStoreStep(w, t, w.threads[t].wait, w.threads[t].k))
  {
    var w2 := DeferStoreStep(w, t, w.threads[t].wait, w.threads[t].k);
    var pc := ResetWaits(Only(w.q.wakeRetry), ToFinish, w.threads[t].k);
    Moved(w, w2, t, pc);
    Coming(w, w2, t, pc);
  }

  lemma FinishSafe(w: World, t: nat)
    requires Safe(w) && t in w.threads && w.threads[t].FinishCheck?
    ensures Safe(FinishStep(w, t, w.threads[t].k))
  {
    var k := w.threads[t].k;
    Resumed(w, w.(q := Finish(w.q)), t, k);
    if CanFinish(w.q) {
      assert w.q.entries == [];
    } else if w.q.entries != [] && !HaltComing(w) {
      assert w.q.entries[0] in w.q.entries;
    } else if HaltComing(w) {
      var u :| u in w.threads && w.threads[u].HaltEntry?;
      assert WillFinish(w.threads[u]) && u != t;
      assert u in FinishStep(w, t, k).threads && FinishStep(w, t, k).threads[u] == w.threads[u];
    }
  }

  lemma HaltSafe(w: World, t: nat)
    requires Safe(w) && t in w.threads && w.threads[t].HaltEntry?
    ensures Safe(HaltStep(w, t, w.threads[t].code, w.threads[t].k))
  {
    var code, k := w.threads[t].code, w.threads[t].k;
    var w2 := HaltStep(w, t, code, k);
    if w.q.terminal || w.q.halting {
      Resumed(w, w, t, k);
    } else {
      var pc := HaltCancel(Only(w.q.capacity) + Only(w.q.wakeRetry), w.q.timer, k);
      Moved(w, w2, t, pc);
      Coming(w, w2, t, pc);
    }
  }

  lemma HaltNextSafe(w: World, t: nat)
    requires Safe(w) && t in w.threads && w.threads[t].HaltNext?
    ensures Safe(HaltNextStep(w, t, w.threads[t].k))
  {
    var k := w.threads[t].k;
    var w2 := HaltNextStep(w, t, k);
    DetachKeeps(w.q, w.opts, Holding(w), w.nextEntry);
    var s := Detach(w.q);
    var pc := if s.retired == [] then FinishCheck(k) else HaltRelease(s.retired[0], k);
    Moved(w, w2, t, pc);
    Coming(w, w2, t, pc);
  }

  lemma HaltReleaseSafe(w: World, t: nat)
    requires Safe(w) && t in w.threads && w.threads[t].HaltRelease?
    ensures Safe(HaltReleaseStep(w, t, w.threads[t].detached, w.threads[t].k))
  {
    var e, k := w.threads[t].detached, w.threads[t].k;
    var w2 := HaltReleaseStep(w, t, e, k);
    ReleaseKeeps(w.q, w.opts, Holding(w), w.nextEntry);
    Moved(w, w2, t, HaltNext(k));
    Coming(w, w2, t, HaltNext(k));
  }

  lemma TimerSafe(w: World, t: nat)
    requires Safe(w) && t in w.threads && w.threads[t].TimerCheck?
    ensures Safe(TimerCheckStep(w, t, w.threads[t].timer))
  {
    var x := w.threads[t].timer;
    var w2 := TimerCheckStep(w, t, x);
    if x < |w.timers| && w.timers[x].generation == w.q.generation {
      QuietSafe(w, w2, t, DriveEntry(TimerReturn(x)));
    } else {
      Resumed(w, w, t, TimerReturn(x));
    }
  }

  lemma RetrySafe(w: World, t: nat, c: Choice)
    requires Safe(w) && t in w.threads && w.threads[t].RetryEntry? && ChoiceFits(w.threads[t], c)
    ensures Safe(RetryStep(w, t, w.threads[t].generation, c))
  {
    var g := w.threads[t].generation;
    var w2 := RetryStep(w, t, g, c);
    if w.q.closed || w.q.generation != g || c.Accepts? {
      Left(w, w2, t);
      Ended(w, w2, t);
    } else {
      QuietSafe(w, w2, t, HaltEntry(c.code, Return));
    }
  }

  lemma EnqueueSafe(w: World, t: nat, e: Entry)
    requires Safe(w) && t !in w.threads && e.id == w.nextEntry
    ensures Safe(EnqueueStep(w, t, e))
  {
    if EnqueueStep(w, t, e) != w {
      AdmitKeeps(w.q, w.opts, Holding(w), w.nextEntry, e);
      Moved(w, EnqueueStep(w, t, e), t, DriveEntry(Return));
      Coming(w, EnqueueStep(w, t, e), t, DriveEntry(Return));
    }
  }

  /** A new thread that has touched nothing but waits, timers or the drain flag. */
  lemma SpawnSafe(w: World, w2: World, t: nat, pc: Pc)
    requires Safe(w) && t !in w.threads && PcOk(pc) && !HoldsPump(pc) && !HoldsHalt(pc)
    requires w2.threads == w.threads[t := pc] && w2.pump == w.pump && w2.halter == w.halter
    requires w2.opts == w.opts && w2.nextEntry == w.nextEntry
    requires w2.q == w.q || (w2.q == w.q.(draining := true) && WillFinish(pc))
    ensures Safe(w2)
  {
    Moved(w, w2, t, pc);
    Coming(w, w2, t, pc);
  }

  /** The points of the pump loop up to the send. */
  predicate EarlyPump(pc: Pc) {
    pc.TakeCapacity? || pc.Scan? || pc.ReleaseExpired? || pc.Sending? || pc.ReleaseSent? || pc.CheckClosed?
  }

  /** The points of the pump loop from the capacity wait to the handoff. */
  predicate LatePump(pc: Pc) {
    || pc.RegisterWait? || pc.StoreWait? || pc.RetakeCapacity? || pc.FinalCheck? || pc.Arming?
    || (pc.ResetWaits? && pc.next != ToFinish)
  }

  lemma ReleaseExpiredSafe(w: World, t: nat)
    requires Safe(w) && t in w.threads && w.threads[t].ReleaseExpired?
    ensures Safe(ReleaseExpiredStep(w, t, w.threads[t].retired, w.threads[t].item, w.threads[t].continuation, w.threads[t].attempts, w.threads[t].k))
  {
    var pc := w.threads[t];
    ReleaseSafe(w, t, if pc.item.Some? then Sending(pc.item.value, pc.attempts + 1, pc.k) else FinalCheck(pc.continuation, pc.k));
  }

  lemma ReleaseSentSafe(w: World, t: nat)
    requires Safe(w) && t in w.threads && w.threads[t].ReleaseSent?
    ensures Safe(ReleaseSentStep(w, t, w.threads[t].retired, w.threads[t].code, w.threads[t].attempts, w.threads[t].k))
  {
    var pc := w.threads[t];
    ReleaseSafe(w, t, if pc.code == Ok then Scan(pc.attempts, pc.k)
                      else if pc.code != WouldBlock then HaltEntry(pc.code, ExitPump(pc.k)) else CheckClosed(pc.attempts, pc.k));
  }

  lemma CheckClosedSafe(w: World, t: nat)
    requires Safe(w) && t in w.threads && w.threads[t].CheckClosed?
    ensures Safe(CheckClosedStep(w, t, w.threads[t].attempts, w.threads[t].k))
  {
    var n, k := w.threads[t].attempts, w.threads[t].k;
    QuietSafe(w, CheckClosedStep(w, t, n, k), t, if w.q.closed then FinalCheck(false, k) else RegisterWait(n, k));
  }

  lemma EarlyPumpSafe(w: World, t: nat, c: Choice)
    requires Safe(w) && t in w.threads && ChoiceFits(w.threads[t], c) && EarlyPump(w.threads[t])
    ensures Safe(Advance(w, t, c))
  {
    match w.threads[t]
    case TakeCapacity(k) => CapacitySafe(w, t, ResetWaits(Only(w.q.capacity), ToScan(0), k), None);
    case Scan(n, k) => ScanSafe(w, t);
    case ReleaseExpired(_, _, _, _, _) => ReleaseExpiredSafe(w, t);
    case Sending(e, n, k) => if c.SendResult? { SendSafe(w, t, c.code); } else { ThrowSafe(w, t); }
    case ReleaseSent(_, _, _, _) => ReleaseSentSafe(w, t);
    case CheckClosed(_, _) => CheckClosedSafe(w, t);
  }

  lemma WaitSafe(w: World, t: nat, c: Choice)
    requires Safe(w) && t in w.threads && ChoiceFits(w.threads[t], c)
    requires w.threads[t].RegisterWait? || w.threads[t].StoreWait? || w.threads[t].RetakeCapacity?
    ensures Safe(Advance(w, t, c))
  {
    assert PcOk(w.threads[t]);
    hide Safe;
    match w.threads[t]
    case RegisterWait(n, k) =>
      if c.Throws? {
        ThrowSafe(w, t);
      } else {
        QuietSafe(w, RegisterWaitStep(w, t, n, k, c), t,
                  if c.Accepts? then StoreWait(|w.waits|, n, k) else HaltEntry(c.code, ExitPump(k)));
      }
    case StoreWait(v, n, k) =>
      var dropped := if w.q.closed then {v} else {};
      CapacitySafe(w, t, if w.q.changed then RetakeCapacity(dropped, n, k) else ResetWaits(dropped, ToExit, k),
                   if w.q.closed then w.q.capacity else Some(v));
    case RetakeCapacity(d, n, k) => CapacitySafe(w, t, ResetWaits(d + Only(w.q.capacity), ToScan(n), k), None);
  }

  lemma ResetSafe(w: World, t: nat)
    requires Safe(w) && t in w.threads && w.threads[t].ResetWaits?
    ensures Safe(ResetStep(w, t, w.threads[t].waits, w.threads[t].next, w.threads[t].k))
  {
    var cs, next, k := w.threads[t].waits, w.threads[t].next, w.threads[t].k;
    QuietSafe(w, ResetStep(w, t, cs, next, k), t,
              match next case ToScan(n) => Scan(n, k) case ToExit => FinalCheck(false, k) case ToFinish => FinishCheck(k));
  }

  lemma FinalSafe(w: World, t: nat)
    requires Safe(w) && t in w.threads && w.threads[t].FinalCheck?
    ensures Safe(FinalStep(w, t, w.threads[t].continuation, w.threads[t].k))
  {
    var cont, k := w.threads[t].continuation, w.threads[t].k;
    var next := NextWake(w.q, cont, w.clock);
    if next.Some? {
      QuietSafe(w, FinalStep(w, t, cont, k), t, Arming(next.value, k));
    } else {
      HandoffSafe(w, FinalStep(w, t, cont, k), t, FinishCheck(k));
    }
  }

  lemma ArmSafe(w: World, t: nat, c: Choice)
    requires Safe(w) && t in w.threads && ChoiceFits(w.threads[t], c) && w.threads[t].Arming?
    ensures Safe(ArmStep(w, t, w.threads[t].due, w.threads[t].k, c))
  {
    assert PcOk(w.threads[t]);
    hide Safe;
    var due, k := w.threads[t].due, w.threads[t].k;
    var w2 := ArmStep(w, t, due, k, c);
    ArmShape(w, t, c);
    hide ArmStep;
    if w.q.closed || Reschedules(w) || c.Accepts? {
      HandoffSafe(w, w2, t, FinishCheck(k));
    } else if Defers(w, c) {
      HandoffSafe(w, w2, t, DeferSubscribe(w.q.generation + 1, w.q.timer.value, k));
    } else {
      HandoffSafe(w, w2, t, HaltEntry(c.code, FinishThen(k)));
    }
  }

  lemma ArmShape(w: World, t: nat, c: Choice)
    requires t in w.threads && w.threads[t].Arming? && ChoiceFits(w.threads[t], c)
    ensures var k, w2 := w.threads[t].k, ArmStep(w, t, w.threads[t].due, w.threads[t].k, c);
      && w2.opts == w.opts && w2.nextEntry == w.nextEntry && w2.pump == None && w2.halter == w.halter
      && w2.q == w.q.(pumping := false, generation := w2.q.generation, timer := w2.q.timer)
      && w2.threads == w.threads[t := if w.q.closed || Reschedules(w) || c.Accepts? then FinishCheck(k)
                                      else if Defers(w, c) then DeferSubscribe(w.q.generation + 1, w.q.timer.value, k)
                                      else HaltEntry(c.code, FinishThen(k))]
  {
  }

  lemma LeavePumpSafe(w: World, t: nat, c: Choice)
    requires Safe(w) && t in w.threads && ChoiceFits(w.threads[t], c)
    requires w.threads[t].ResetWaits? || w.threads[t].FinalCheck? || w.threads[t].Arming?
    ensures Safe(Advance(w, t, c))
  {
    match w.threads[t]
    case ResetWaits(cs, next, k) => ResetSafe(w, t);
    case FinalCheck(cont, k) => FinalSafe(w, t);
    case Arming(due, k) => ArmSafe(w, t, c);
  }

  lemma DeferSubscribeSafe(w: World, t: nat, c: Choice)
    requires Safe(w) && t in w.threads && ChoiceFits(w.threads[t], c) && w.threads[t].DeferSubscribe?
    ensures Safe(DeferSubscribeStep(w, t, w.threads[t].generation, w.threads[t].timer, w.threads[t].k, c))
  {
    var g, x, k := w.threads[t].generation, w.threads[t].timer, w.threads[t].k;
    QuietSafe(w, DeferSubscribeStep(w, t, g, x, k, c), t,
              if c.Refuses? then HaltEntry(c.code, FinishThen(k)) else DeferStore(|w.waits|, k));
  }

  lemma HaltCancelSafe(w: World, t: nat)
    requires Safe(w) && t in w.threads && w.threads[t].HaltCancel?
    ensures Safe(HaltCancelStep(w, t, w.threads[t].waits, w.threads[t].wake, w.threads[t].k))
  {
    QuietSafe(w, HaltCancelStep(w, t, w.threads[t].waits, w.threads[t].wake, w.threads[t].k), t, HaltNext(w.threads[t].k));
  }

  lemma OtherStepSafe(w: World, t: nat, c: Choice)
    requires Safe(w) && t in w.threads && ChoiceFits(w.threads[t], c)
    requires !EarlyPump(w.threads[t]) && !LatePump(w.threads[t]) && !w.threads[t].ResetWaits?
    ensures Safe(Advance(w, t, c))
  {
    match w.threads[t]
    case DriveEntry(k) => DriveSafe(w, t);
    case DeferSubscribe(g, x, k) => DeferSubscribeSafe(w, t, c);
    case DeferStore(v, k) => DeferStoreSafe(w, t);
    case FinishCheck(k) => FinishSafe(w, t);
    case HaltEntry(code, k) => HaltSafe(w, t);
    case HaltCancel(cs, x, k) => HaltCancelSafe(w, t);
    case HaltNext(k) => HaltNextSafe(w, t);
    case HaltRelease(e, k) => HaltReleaseSafe(w, t);
    case TimerCheck(x) => TimerSafe(w, t);
    case RetryEntry(g) => RetrySafe(w, t, c);
  }

  lemma ThreadStepSafe(w: World, t: nat, c: Choice)
    requires Safe(w) && t in w.threads && ChoiceFits(w.threads[t], c)
    ensures Safe(Advance(w, t, c))
  {
    var pc := w.threads[t];
    if EarlyPump(pc) {
      EarlyPumpSafe(w, t, c);
    } else if pc.RegisterWait? || pc.StoreWait? || pc.RetakeCapacity? {
      WaitSafe(w, t, c);
    } else if pc.ResetWaits? || pc.FinalCheck? || pc.Arming? {
      LeavePumpSafe(w, t, c);
    } else {
      OtherStepSafe(w, t, c);
    }
  }

  lemma ArrivalSafe(w: World, a: Action)
    requires Safe(w) && Enabled(w, a) && (a.BeginDrain? || a.CloseQueue? || a.FireWait? || a.FireRetry? || a.FireTimer?)
    ensures Safe(Apply(w, a))
  {
    hide Safe;
    var w2 := Apply(w, a);
    match a
    case BeginDrain(t) => SpawnSafe(w, w2, t, DriveEntry(FinishThen(Return)));
    case CloseQueue(t) => SpawnSafe(w, w2, t, HaltEntry(Cancelled, Return));
    case FireWait(t, c, code) => SpawnSafe(w, w2, t, if code == Ok then DriveEntry(Return) else HaltEntry(code, Return));
    case FireRetry(t, c) => SpawnSafe(w, w2, t, RetryEntry(w.waits[c].generation));
    case FireTimer(t, x) => SpawnSafe(w, w2, t, TimerCheck(x));
  }

  lemma StepSafe(w: World, a: Action)
    requires Safe(w) && Enabled(w, a)
    ensures Safe(Apply(w, a))
  {
    match a
    case Enqueue(t, bytes, key, expires) => EnqueueSafe(w, t, Entry(w.nextEntry, bytes, key, expires));
    case Tick(now) => assert Apply(w, a) == w.(clock := now);
    case Run(t, c) => ThreadStepSafe(w, t, c);
    case _ => ArrivalSafe(w, a);
  }

  // ---- Whole runs ------------------------------------------------------------

  /** `ws` is a run of the pump under `as`. */
  ghost predicate IsRun(ws: seq<World>, acts: seq<Action>) {
    && |ws| == |acts| + 1
    && (exists o, clock :: ValidOptions(o) && ws[0] == Initial(o, clock))
    && (forall i :: 0 <= i < |acts| ==> Enabled(ws[i], acts[i]) && ws[i + 1] == Apply(ws[i], acts[i]))
  }

  lemma {:induction false} RunSafe(ws: seq<World>, acts: seq<Action>, i: nat)
    requires IsRun(ws, acts) && i < |ws|
    ensures Safe(ws[i])
  {
    if i == 0 {
      var o, clock :| ValidOptions(o) && ws[0] == Initial(o, clock);
      InitialSafe(o, clock);
    } else {
      RunSafe(ws, acts, i - 1);
      StepSafe(ws[i - 1], acts[i - 1]);
    }
  }

  /**
  Message accounting at every lock release of every run: the counters partition what was
  accepted, the charge fits both limits, the message being sent is still queued, no latest key
  occurs twice, and a queue that finished with Ok discarded nothing.
  */
  lemma AccountingTheorem(ws: seq<World>, acts: seq<Action>, i: nat)
    requires IsRun(ws, acts) && i < |ws|
    ensures var q := ws[i].q;
      && q.enqueued == |q.entries| + q.sent + q.replaced + q.expired + q.discarded
      && 0 <= |q.entries| <= q.pending <= ws[i].opts.maxMessages
      && 0 <= Wire(q.entries) <= q.retained <= ws[i].opts.maxRetainedBytes
      && (q.active.Some? ==> q.active.value in q.entries)
      && (forall j, k :: 0 <= j < k < |q.entries| && q.entries[j].latestKey.Some? ==> q.entries[j].latestKey != q.entries[k].latestKey)
      && (q.terminal && q.result == Ok ==> q.discarded == 0 && q.enqueued == q.sent + q.replaced + q.expired)
  {
    RunSafe(ws, acts, i);
    var q := ws[i].q;
    forall j, k | 0 <= j < k < |q.entries| && q.entries[j].latestKey.Some?
      ensures q.entries[j].latestKey != q.entries[k].latestKey
    {
      assert !Clash(q.entries[j], q.entries[k]);
    }
  }

  /** At most one thread is inside the pump, at most one inside the discard loop. */
  lemma SingleDriver(ws: seq<World>, acts: seq<Action>, i: nat, t: nat, u: nat)
    requires IsRun(ws, acts) && i < |ws| && t in ws[i].threads && u in ws[i].threads && t != u
    ensures !(HoldsPump(ws[i].threads[t]) && HoldsPump(ws[i].threads[u]))
    ensures !(HoldsHalt(ws[i].threads[t]) && HoldsHalt(ws[i].threads[u]))
  {
    RunSafe(ws, acts, i);
  }

  /** When all threads have returned, a closed queue is empty, uncharged and finished, and so is a drained one. */
  lemma QuiescentEnd(ws: seq<World>, acts: seq<Action>, i: nat)
    requires IsRun(ws, acts) && i < |ws| && ws[i].threads == map[]
    ensures var q := ws[i].q;
      && (q.closed ==> q.terminal && q.entries == [] && q.pending == 0 && q.retained == 0)
      && (q.draining && q.entries == [] ==> q.terminal)
  {
    RunSafe(ws, acts, i);
    var q := ws[i].q;
    assert q.closed ==> forall e :: e in q.entries ==> q.active == Some(e);
    assert q.entries != [] ==> q.entries[0] in q.entries;
  }
}
