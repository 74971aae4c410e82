/** The queue object: its fields, and its lock-held sections as methods that change them in place. */
module OutboundState {
  import opened Common
  import opened OutboundQueue

  /** The counters of the queue. */
  datatype Metrics = Metrics(pending: int, retainedBytes: int, enqueued: int, sent: int, replaced: int, expired: int,
      discarded: int)

  datatype Kind = RawBytes | Prepared | Binary
  datatype Target = Any | RawOnly | SessionOnly

  /** What a queue in front of a raw connection, or of a session, can send. */
  predicate Suits(kind: Kind, target: Target) {
    match target
    case Any => true
    case RawOnly => kind.RawBytes?
    case SessionOnly => !kind.RawBytes?
  }

  class State {
    const options: Options
    const target: Target
    var queue: seq<Entry>
    var active: Option<Entry>
    var metrics: Metrics
    var pumping: bool
    var changed: bool
    var draining: bool
    var closed: bool
    var terminal: bool
    var halting: bool
    var result: ErrorCode
    var capacity: Option<nat>
    var timer: Option<nat>
    var wakeRetry: Option<nat>
    var timerGeneration: nat

    constructor (o: Options, where: Target)
      ensures options == o && target == where && View() == EMPTY_QUEUE
    {
      options, target := o, where;
      queue, active := [], None;
      metrics := Metrics(0, 0, 0, 0, 0, 0, 0);
      pumping, changed, draining, closed, terminal, halting := false, false, false, false, false, false;
      result, capacity, timer, wakeRetry, timerGeneration := WouldBlock, None, None, None, 0;
    }

    /** The value of the object, on which the pump is defined. */
    ghost function View(): Queue
      reads this
    {
      Queue(queue, active, metrics.pending, metrics.retainedBytes, metrics.enqueued, metrics.sent, metrics.replaced,
            metrics.expired, metrics.discarded, pumping, changed, draining, closed, terminal, halting, result,
            capacity, timer, wakeRetry, timerGeneration)
    }

    method FindKey(key: Option<nat>) returns (found: nat)
      ensures found == FindLatest(queue, key)
    {
      found := 0;
      while found < |queue| && queue[found].latestKey != key
        invariant found <= |queue|
        invariant found + FindLatest(queue[found..], key) == FindLatest(queue, key)
      {
        assert queue[found..][1..] == queue[found + 1..];
        found := found + 1;
      }
    }

    method FindItem(item: Entry) returns (found: nat)
      ensures found == FindEntry(queue, item)
    {
      found := 0;
      while found < |queue| && queue[found] != item
        invariant found <= |queue|
        invariant found + FindEntry(queue[found..], item) == FindEntry(queue, item)
      {
        assert queue[found..][1..] == queue[found + 1..];
        found := found + 1;
      }
    }

    method Enqueue(entry: Entry, kind: Kind, now: int) returns (code: ErrorCode)
      modifies this`queue, this`metrics, this`changed
      ensures entry.bytes == 0 || !Suits(kind, target) ==> code == InvalidArgument
      ensures entry.bytes > 0 && Suits(kind, target) && entry.bytes > options.maxRetainedBytes ==> code == TooLarge
      ensures 0 < entry.bytes <= options.maxRetainedBytes && Suits(kind, target) && ExpiredAt(entry, now) ==>
        code == Timeout
      ensures 0 < entry.bytes <= options.maxRetainedBytes && Suits(kind, target) && !ExpiredAt(entry, now) ==>
        Admitted(View(), code) == Admit(old(View()), options, entry)
      ensures code != Ok ==> View() == old(View())
    {
      if entry.bytes == 0 { return InvalidArgument; }
      if (target == RawOnly && kind != RawBytes) || (target == SessionOnly && kind == RawBytes) { return InvalidArgument; }
      if entry.bytes > options.maxRetainedBytes { return TooLarge; }
      if entry.expires.Some? && entry.expires.value <= now { return Timeout; }
      if closed || draining { return Closed; }
      var found := |queue|;
      if entry.latestKey.Some? { found := FindKey(entry.latestKey); }
      if found < |queue| {
        if active == Some(queue[found]) { return WouldBlock; }
        var previous := queue[found].bytes;
        if entry.bytes > options.maxRetainedBytes - (metrics.retainedBytes - previous) { return WouldBlock; }
        queue := queue[found := entry];
        metrics := metrics.(retainedBytes := metrics.retainedBytes - previous + entry.bytes, replaced := metrics.replaced + 1);
      } else {
        if metrics.pending == options.maxMessages || entry.bytes > options.maxRetainedBytes - metrics.retainedBytes {
          return WouldBlock;
        }
        queue := queue + [entry];
        metrics := metrics.(pending := metrics.pending + 1, retainedBytes := metrics.retainedBytes + entry.bytes);
      }
      metrics := metrics.(enqueued := metrics.enqueued + 1);
      changed := true;
      return Ok;
    }

    method BeginPump() returns (driver: bool)
      modifies this
      ensures driver == !(old(pumping) || closed)
      ensures View() == old(View()).(changed := true, pumping := old(pumping) || driver)
    {
      changed := true;
      if pumping || closed { return false; }
      pumping := true;
      return true;
    }

    /** Moves what has expired at `now` out of the queue. */
    method DropExpired(now: int) returns (retired: seq<Entry>)
      modifies this`queue, this`metrics
      ensures retired == Expired(old(queue), now) && queue == Live(old(queue), now)
      ensures metrics == old(metrics).(expired := old(metrics).expired + |retired|)
    {
      var kept: seq<Entry> := [];
      retired := [];
      var i := 0;
      while i < |queue|
        invariant i <= |queue| && queue == old(queue)
        invariant retired + Expired(queue[i..], now) == Expired(queue, now)
        invariant kept + Live(queue[i..], now) == Live(queue, now)
        invariant metrics == old(metrics).(expired := old(metrics).expired + |retired|)
      {
        assert queue[i..][1..] == queue[i + 1..];
        if queue[i].expires.Some? && queue[i].expires.value <= now {
          retired := retired + [queue[i]];
          metrics := metrics.(expired := metrics.expired + 1);
        } else {
          kept := kept + [queue[i]];
        }
        i := i + 1;
      }
      queue := kept;
    }

    /** Drops what has expired and picks the message to send. */
    method PickNext(now: int, attempts: nat) returns (retired: seq<Entry>, item: Option<Entry>, continuation: bool)
      modifies this`queue, this`metrics, this`active, this`changed
      ensures Scanned(View(), retired, item, continuation) == ScanQueue(old(View()), options, now, attempts)
    {
      changed := false;
      retired := DropExpired(now);
      item, continuation := None, false;
      if !closed && queue != [] && attempts < options.maxPumpMessages {
        active := Some(queue[0]);
        item := active;
      } else {
        continuation := !closed && queue != [];
      }
    }

    /** Returns the charge of entries already off the queue. */
    method Release(retired: seq<Entry>)
      modifies this`metrics
      ensures View() == ReleaseEntries(old(View()), retired)
    {
      var count, bytes := 0, 0;
      while count < |retired|
        invariant count <= |retired|
        invariant bytes + Wire(retired[count..]) == Wire(retired)
      {
        assert retired[count..][1..] == retired[count + 1..];
        bytes := bytes + retired[count].bytes;
        count := count + 1;
      }
      metrics := metrics.(pending := metrics.pending - count, retainedBytes := metrics.retainedBytes - bytes);
    }

    method Settle(item: Entry, code: ErrorCode) returns (retired: seq<Entry>)
      modifies this`queue, this`active, this`metrics
      ensures Settled(View(), retired) == SettleSend(old(View()), item, code)
    {
      active := None;
      retired := [];
      if code == Ok || closed {
        var found := FindItem(item);
        if found < |queue| {
          queue := queue[..found] + queue[found + 1..];
          retired := [item];
        }
        metrics := if code == Ok then metrics.(sent := metrics.sent + 1)
            else metrics.(discarded := metrics.discarded + 1);
      }
    }

    /** Decides when the pump must run again; gives it up when never. */
    method ChooseWake(continuation: bool, now: int) returns (next: Option<int>)
      modifies this
      ensures next == NextWake(old(View()), continuation, now)
      ensures View() == if next.None? then old(View()).(pumping := false) else old(View())
    {
      next := None;
      if !closed {
        if continuation || changed { next := Some(now); }
        var i := 0;
        while i < |queue|
          invariant i <= |queue|
          invariant Earliest(queue[i..], next) == NextWake(old(View()), continuation, now)
        {
          assert queue[i..][1..] == queue[i + 1..];
          if queue[i].expires.Some? && (next.None? || queue[i].expires.value < next.value) {
            next := queue[i].expires;
          }
          i := i + 1;
        }
      }
      if next.None? { pumping := false; }
    }

    method FinishIfReady() returns (complete: bool, code: ErrorCode)
      modifies this
      ensures View() == Finish(old(View()))
      ensures complete == CanFinish(old(View())) && (complete ==> terminal && code == result)
    {
      complete, code := false, WouldBlock;
      if !terminal && !pumping && active.None? && !halting && metrics.pending == 0 && (closed || draining) {
        terminal := true;
        if !closed { result := Ok; }
        complete, code := true, result;
      }
    }

    method StartHalt(code: ErrorCode) returns (started: bool, wait: Option<nat>, retry: Option<nat>, wake: Option<nat>)
      modifies this`halting, this`closed, this`result, this`changed, this`capacity, this`wakeRetry, this`timerGeneration
      ensures started == !(old(terminal) || old(halting))
      ensures View() == if started then BeginHalt(old(View()), code) else old(View())
      ensures started ==> wait == old(capacity) && retry == old(wakeRetry) && wake == timer
    {
      started, wait, retry, wake := false, None, None, None;
      if terminal || halting { return; }
      started := true;
      Shut(code);
      wait, retry, wake := capacity, wakeRetry, timer;
      changed, capacity, wakeRetry, timerGeneration := true, None, None, timerGeneration + 1;
    }

    /** The first reason to close stays. */
    method Shut(code: ErrorCode)
      modifies this`halting, this`closed, this`result
      ensures View() == old(View()).(halting := true, closed := true, result := if old(closed) then old(result) else code)
    {
      halting := true;
      if !closed {
        closed := true;
        result := code;
      }
    }

    /** One turn of the discard loop; `detached` is empty when the loop is over. */
    method DetachOne() returns (detached: seq<Entry>)
      modifies this
      ensures Settled(View(), detached) == Detach(old(View()))
    {
      var found := 0;
      while found < |queue| && active == Some(queue[found])
        invariant found <= |queue|
        invariant found + FindIdle(queue[found..], active) == FindIdle(queue, active)
      {
        assert queue[found..][1..] == queue[found + 1..];
        found := found + 1;
      }
      if found == |queue| {
        halting := false;
        return [];
      }
      detached := [queue[found]];
      queue := queue[..found] + queue[found + 1..];
      metrics := metrics.(discarded := metrics.discarded + 1);
    }
  }
}
