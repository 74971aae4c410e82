/**
The data of the outbound staging queue and its lock-held sections, as functions from
the queue before a section to the queue after it.  The pump that runs these sections on
any number of threads is in OutboundPump.
*/
module OutboundQueue {
  import opened Common

  /** A staged message. The identity of the source's shared pointer is `id`. */
  datatype Entry = Entry(id: nat, bytes: nat, latestKey: Option<nat>, expires: Option<int>)

  datatype Options = Options(maxMessages: nat, maxRetainedBytes: nat, maxPumpMessages: nat)

  predicate ValidOptions(o: Options) {
    && 0 < o.maxMessages <= 65536
    && 0 < o.maxRetainedBytes
    && 0 < o.maxPumpMessages <= 1024
  }

  /** Everything the queue's mutex protects. Waits and timers are named by index. */
  datatype Queue = Queue(
    entries: seq<Entry>, active: Option<Entry>,
    pending: int, retained: int,
    enqueued: int, sent: int, replaced: int, expired: int, discarded: int,
    pumping: bool, changed: bool, draining: bool, closed: bool, terminal: bool, halting: bool,
    result: ErrorCode,
    capacity: Option<nat>, timer: Option<nat>, wakeRetry: Option<nat>, generation: nat)

  const EMPTY_QUEUE: Queue :=
    Queue([], None, 0, 0, 0, 0, 0, 0, 0, false, false, false, false, false, false,
          WouldBlock, None, None, None, 0)

  predicate ExpiredAt(e: Entry, now: int) {
    e.expires.Some? && e.expires.value <= now
  }

  /** The entries the pump drops at `now`, and those it keeps, both in queue order. */
  function Expired(es: seq<Entry>, now: int): (r: seq<Entry>)
  {
    if es == [] then [] else
      (if ExpiredAt(es[0], now) then [es[0]] else []) + Expired(es[1..], now)
  }

  function Live(es: seq<Entry>, now: int): (r: seq<Entry>)
  {
    if es == [] then [] else
      (if ExpiredAt(es[0], now) then [] else [es[0]]) + Live(es[1..], now)
  }

  function Wire(es: seq<Entry>): (n: nat)
  {
    if es == [] then 0 else es[0].bytes + Wire(es[1..])
  }

  /** Position of the entry carrying `key`, or the length of the queue. */
  function FindLatest(es: seq<Entry>, key: Option<nat>): (i: nat)
    ensures i <= |es|
    ensures i < |es| ==> es[i].latestKey == key
    ensures forall j :: 0 <= j < i ==> es[j].latestKey != key
  {
    if es == [] || es[0].latestKey == key then 0 else 1 + FindLatest(es[1..], key)
  }

  /** Position of `e`, or the length of the queue. */
  function FindEntry(es: seq<Entry>, e: Entry): (i: nat)
    ensures i <= |es|
    ensures i < |es| ==> es[i] == e
    ensures forall j :: 0 <= j < i ==> es[j] != e
  {
    if es == [] || es[0] == e then 0 else 1 + FindEntry(es[1..], e)
  }

  /** Position of the first entry that is not the active one, or the length of the queue. */
  function FindIdle(es: seq<Entry>, active: Option<Entry>): (i: nat)
    ensures i <= |es|
    ensures i < |es| ==> active != Some(es[i])
    ensures forall j :: 0 <= j < i ==> active == Some(es[j])
  {
    if es == [] || active != Some(es[0]) then 0 else 1 + FindIdle(es[1..], active)
  }

  function Without(es: seq<Entry>, i: nat): seq<Entry>
    requires i < |es|
  {
    es[..i] + es[i + 1..]
  }

  // ---- Lock-held sections ----------------------------------------------------

  datatype Admitted = Admitted(queue: Queue, code: ErrorCode)

  /** Enqueue under the lock: replace the entry with the same latest key in place, or append. */
  function Admit(q: Queue, o: Options, e: Entry): Admitted
  {
    if q.closed || q.draining then Admitted(q, Closed)
    else
      var i := if e.latestKey.Some? then FindLatest(q.entries, e.latestKey) else |q.entries|;
      if i < |q.entries| then
        var previous := q.entries[i].bytes;
        if q.active == Some(q.entries[i]) || e.bytes > o.maxRetainedBytes - (q.retained - previous)
        then Admitted(q, WouldBlock)
        else Admitted(q.(entries := q.entries[i := e], retained := q.retained - previous + e.bytes,
                         replaced := q.replaced + 1, enqueued := q.enqueued + 1, changed := true), Ok)
      else if q.pending == o.maxMessages || e.bytes > o.maxRetainedBytes - q.retained
      then Admitted(q, WouldBlock)
      else Admitted(q.(entries := q.entries + [e], pending := q.pending + 1, retained := q.retained + e.bytes,
                       enqueued := q.enqueued + 1, changed := true), Ok)
  }

  datatype Scanned = Scanned(queue: Queue, retired: seq<Entry>, item: Option<Entry>, continuation: bool)

  /** One pump iteration: drop what has expired, then pick the front if the budget allows. */
  function ScanQueue(q: Queue, o: Options, now: int, attempts: nat): Scanned
  {
    var retired := Expired(q.entries, now);
    var live := Live(q.entries, now);
    var q1 := q.(changed := false, entries := live, expired := q.expired + |retired|);
    if !q.closed && live != [] && attempts < o.maxPumpMessages
    then Scanned(q1.(active := Some(live[0])), retired, Some(live[0]), false)
    else Scanned(q1, retired, None, !q.closed && live != [])
  }

  function ReleaseEntries(q: Queue, retired: seq<Entry>): Queue
  {
    q.(pending := q.pending - |retired|, retained := q.retained - Wire(retired))
  }

  datatype Settled = Settled(queue: Queue, retired: seq<Entry>)

  function RemoveEntry(es: seq<Entry>, e: Entry): seq<Entry>
  {
    var i := FindEntry(es, e);
    if i < |es| then Without(es, i) else es
  }

  /** After the sink returned `code` for `item`. */
  function SettleSend(q: Queue, item: Entry, code: ErrorCode): Settled
  {
    if code == Ok || q.closed then
      Settled(q.(active := None, entries := RemoveEntry(q.entries, item),
                 sent := if code == Ok then q.sent + 1 else q.sent,
                 discarded := if code == Ok then q.discarded else q.discarded + 1),
              if item in q.entries then [item] else [])
    else Settled(q.(active := None), [])
  }

  function Sooner(due: Option<int>, e: Entry): Option<int>
  {
    if e.expires.Some? && (due.None? || e.expires.value < due.value) then e.expires else due
  }

  /** The earliest of `due` and the expiries of `es`. */
  function Earliest(es: seq<Entry>, due: Option<int>): (r: Option<int>)
    ensures due.Some? ==> r.Some? && r.value <= due.value
    ensures r.None? ==> forall e :: e in es ==> e.expires.None?
    ensures r.Some? ==> forall e :: e in es && e.expires.Some? ==> r.value <= e.expires.value
    ensures r.Some? ==> r == due || exists e :: e in es && e.expires == r
  {
    if es == [] then due else
      var r := Earliest(es[1..], Sooner(due, es[0]));
      assert forall e :: e in es ==> e == es[0] || e in es[1..];
      r
  }

  /** When the pump has to run again, as decided before it gives up the pump. */
  function NextWake(q: Queue, continuation: bool, now: int): Option<int>
  {
    if q.closed then None
    else Earliest(q.entries, if continuation || q.changed then Some(now) else None)
  }

  predicate CanFinish(q: Queue) {
    && !q.terminal && !q.pumping && q.active.None? && !q.halting && q.pending == 0
    && (q.closed || q.draining)
  }

  function Finish(q: Queue): Queue
  {
    if CanFinish(q) then q.(terminal := true, result := if q.closed then q.result else Ok) else q
  }

  function BeginHalt(q: Queue, code: ErrorCode): Queue
  {
    q.(halting := true, closed := true, result := if q.closed then q.result else code,
       changed := true, capacity := None, wakeRetry := None, generation := q.generation + 1)
  }

  /** One turn of the discard loop: detach the first entry that is not being sent. */
  function Detach(q: Queue): Settled
  {
    var i := FindIdle(q.entries, q.active);
    if i < |q.entries|
    then Settled(q.(entries := Without(q.entries, i), discarded := q.discarded + 1), [q.entries[i]])
    else Settled(q.(halting := false), [])
  }

  // ---- Facts about the queue contents ----------------------------------------

  lemma {:induction false} WireConcat(a: seq<Entry>, b: seq<Entry>)
    ensures Wire(a + b) == Wire(a) + Wire(b)
  {
    if a == [] {
      assert a + b == b;
    } else {
      assert (a + b)[1..] == a[1..] + b;
      WireConcat(a[1..], b);
    }
  }

  lemma WireWithout(es: seq<Entry>, i: nat)
    requires i < |es|
    ensures Wire(es) == Wire(Without(es, i)) + es[i].bytes
  {
    assert es == es[..i] + ([es[i]] + es[i + 1..]);
    WireConcat(es[..i], [es[i]] + es[i + 1..]);
    WireConcat([es[i]], es[i + 1..]);
    WireConcat(es[..i], es[i + 1..]);
  }

  lemma WireUpdate(es: seq<Entry>, i: nat, e: Entry)
    requires i < |es|
    ensures Wire(es[i := e]) == Wire(es) - es[i].bytes + e.bytes
  {
    WireWithout(es, i);
    WireWithout(es[i := e], i);
    assert Without(es[i := e], i) == Without(es, i);
  }

  /** Expiry splits the queue: no entry and no byte is lost or duplicated. */
  lemma {:induction false} ExpirySplits(es: seq<Entry>, now: int)
    ensures |es| == |Expired(es, now)| + |Live(es, now)|
    ensures Wire(es) == Wire(Expired(es, now)) + Wire(Live(es, now))
  {
    if es != [] {
      ExpirySplits(es[1..], now);
      if ExpiredAt(es[0], now) {
        WireConcat([es[0]], Expired(es[1..], now));
        assert Live(es, now) == Live(es[1..], now);
      } else {
        WireConcat([es[0]], Live(es[1..], now));
        assert Expired(es, now) == Expired(es[1..], now);
      }
    }
  }

  lemma {:induction false} LiveMembers(es: seq<Entry>, now: int, e: Entry)
    ensures e in Live(es, now) <==> e in es && !ExpiredAt(e, now)
  {
    if es != [] {
      LiveMembers(es[1..], now, e);
      assert e in es <==> e == es[0] || e in es[1..];
    }
  }

  /** At most one entry per identity and per latest key. */
  predicate Clash(a: Entry, b: Entry) {
    a.id == b.id || (a.latestKey.Some? && a.latestKey == b.latestKey)
  }

  ghost predicate Distinct(es: seq<Entry>) {
    forall i, j :: 0 <= i < j < |es| ==> !Clash(es[i], es[j])
  }

  lemma {:induction false} LiveDistinct(es: seq<Entry>, now: int)
    requires Distinct(es)
    ensures Distinct(Live(es, now))
  {
    if es != [] {
      var rest, live := es[1..], Live(es[1..], now);
      assert Distinct(rest) by { assert forall i :: 0 <= i < |rest| ==> rest[i] == es[i + 1]; }
      LiveDistinct(rest, now);
      forall j | 0 <= j < |live|
        ensures !Clash(es[0], live[j])
      {
        LiveMembers(rest, now, live[j]);
        var k :| 0 <= k < |rest| && rest[k] == live[j];
        assert es[k + 1] == live[j];
      }
      if !ExpiredAt(es[0], now) {
        assert Live(es, now) == [es[0]] + live;
      }
    }
  }
}
