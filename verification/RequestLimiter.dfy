/**
Token-bucket admission over a bounded table of keys.  Times are steady-clock ticks of one
nanosecond; token counts are exact reals.
*/
module RequestLimiter {
  import opened Common

  type Key = string

  const TICKS_PER_MS: int := 1_000_000
  const NO_TIME: int := 0                            // a default time point
  const TIME_MAX: int := 0x7fff_ffff_ffff_ffff       // time_point::max()
  const FULL_AT_CAP_MS: real := 86_400_000.0           // 24 hours

  datatype Options = Options(
    maxKeys: nat, maxKeyBytes: nat, maxRetainedKeyBytes: nat, refillTokens: nat, burstTokens: nat,
    refillInterval: int, maxConcurrentPerKey: nat, maxConcurrentTotal: nat, idleExpiry: int)

  predicate ValidOptions(o: Options) {
    && 0 < o.maxKeys <= 65536 && 0 < o.maxKeyBytes <= 4096
    && o.maxKeyBytes <= o.maxRetainedKeyBytes <= 256 * 1024 * 1024
    && 0 < o.refillTokens <= 1_000_000_000 && 0 < o.burstTokens <= 1_000_000_000
    && 0 < o.refillInterval <= 24 * 3_600_000 && 0 < o.idleExpiry <= 24 * 7 * 3_600_000
    && 0 < o.maxConcurrentPerKey <= o.maxConcurrentTotal <= 1_000_000
  }

  datatype Entry = Entry(tokens: real, active: nat, refill: int, seen: int)

  datatype Table = Table(entries: map<Key, Entry>, keyBytes: int, active: int, pressureRetry: int, closed: bool)

  const EMPTY_TABLE := Table(map[], 0, 0, NO_TIME, false)

  function Burst(o: Options): real { o.burstTokens as real }

  /** Tokens earned per tick. */
  function RefillRate(o: Options): real
    requires ValidOptions(o)
  {
    o.refillTokens as real / (o.refillInterval as real * TICKS_PER_MS as real)
  }

  function Earned(o: Options, ticks: int): real
    requires ValidOptions(o)
  {
    ticks as real * RefillRate(o)
  }

  function Refill(o: Options, e: Entry, now: int): Entry
    requires ValidOptions(o)
  {
    if now <= e.refill then e
    else
      var sum := e.tokens + Earned(o, now - e.refill);
      e.(tokens := if sum <= Burst(o) then sum else Burst(o), refill := now)
  }

  /** The tokens a request at `now` would find. */
  function Level(o: Options, e: Entry, now: int): real
    requires ValidOptions(o)
  {
    Refill(o, e, now).tokens
  }

  predicate Full(o: Options, e: Entry, now: int)
    requires ValidOptions(o)
  {
    Level(o, e, now) >= Burst(o)
  }

  /** A lower bound for the time at which the bucket is full. */
  function FullAt(o: Options, e: Entry): int
    requires ValidOptions(o)
  {
    var ms := (Burst(o) - e.tokens) / (RefillRate(o) * TICKS_PER_MS as real);
    var capped := if ms < 0.0 then 0.0 else if ms < FULL_AT_CAP_MS then ms else FULL_AT_CAP_MS;
    e.refill + (capped * TICKS_PER_MS as real).Floor
  }

  predicate Evicts(o: Options, e: Entry, now: int, closed: bool, pressure: bool)
    requires ValidOptions(o)
  {
    && e.active == 0
    && (closed || (Full(o, e, now) && (pressure || now - e.seen >= o.idleExpiry * TICKS_PER_MS)))
  }

  function Kept(o: Options, t: Table, now: int, pressure: bool): map<Key, Entry>
    requires ValidOptions(o)
  {
    map k | k in t.entries && !Evicts(o, t.entries[k], now, t.closed, pressure) :: Refill(o, t.entries[k], now)
  }

  /** `r` is the earliest time at which an inactive entry of `es` may be full. */
  ghost predicate IsRetry(o: Options, es: map<Key, Entry>, r: int)
    requires ValidOptions(o)
  {
    && r <= TIME_MAX
    && (forall k :: k in es && es[k].active == 0 ==> r <= FullAt(o, es[k]))
    && (r == TIME_MAX || exists k :: k in es && es[k].active == 0 && r == FullAt(o, es[k]))
  }

  lemma {:induction false} RetryExists(o: Options, es: map<Key, Entry>)
    requires ValidOptions(o)
    ensures exists r :: IsRetry(o, es, r)
    decreases |es.Keys|
  {
    if es.Keys == {} {
      assert IsRetry(o, es, TIME_MAX);
    } else {
      var k :| k in es;
      var rest := es - {k};
      assert rest.Keys == es.Keys - {k};
      RetryExists(o, rest);
      var r :| IsRetry(o, rest, r);
      var r2 := if es[k].active == 0 && FullAt(o, es[k]) < r then FullAt(o, es[k]) else r;
      forall x | x in es && es[x].active == 0 ensures r2 <= FullAt(o, es[x]) {
        if x != k { assert x in rest && rest[x] == es[x]; }
      }
      assert IsRetry(o, es, r2);
    }
  }

  ghost function RetryOf(o: Options, es: map<Key, Entry>): (r: int)
    requires ValidOptions(o)
    ensures IsRetry(o, es, r)
  {
    RetryExists(o, es);
    var r :| IsRetry(o, es, r); r
  }

  ghost function KeyBytes(ks: set<Key>): nat
  {
    if ks == {} then 0 else var k :| k in ks; |k| + KeyBytes(ks - {k})
  }

  lemma {:induction false} KeyBytesRemove(ks: set<Key>, k: Key)
    requires k in ks
    ensures KeyBytes(ks) == |k| + KeyBytes(ks - {k})
  {
    var x :| x in ks && KeyBytes(ks) == |x| + KeyBytes(ks - {x});
    if x != k {
      KeyBytesRemove(ks - {x}, k);
      KeyBytesRemove(ks - {k}, x);
      assert ks - {x} - {k} == ks - {k} - {x};
    }
  }

  // ---- Buckets ---------------------------------------------------------------

  lemma RefillRatePositive(o: Options)
    requires ValidOptions(o)
    ensures RefillRate(o) > 0.0
  {
  }

  lemma EarnedAdds(o: Options, a: int, b: int)
    requires ValidOptions(o)
    ensures Earned(o, a + b) == Earned(o, a) + Earned(o, b)
  {
    assert (a + b) as real == a as real + b as real;
  }

  lemma EarnedMonotone(o: Options, a: int, b: int)
    requires ValidOptions(o) && a <= b
    ensures Earned(o, a) <= Earned(o, b)
  {
    RefillRatePositive(o);
    EarnedAdds(o, a, b - a);
    assert (b - a) as real >= 0.0;
  }

  /** A refill only moves the account forward: later levels are unchanged. */
  lemma RefillKeepsLevel(o: Options, e: Entry, now: int, later: int)
    requires ValidOptions(o) && now <= later && e.tokens <= Burst(o)
    ensures Level(o, Refill(o, e, now), later) == Level(o, e, later)
  {
    if e.refill < now < later {
      EarnedAdds(o, now - e.refill, later - now);
      EarnedMonotone(o, 0, later - now);
    }
  }

  /** A bucket gains at most the earned tokens, and never drops by waiting. */
  lemma LevelGrows(o: Options, e: Entry, t1: int, t2: int)
    requires ValidOptions(o) && t1 <= t2 && e.tokens <= Burst(o)
    ensures Level(o, e, t1) <= Level(o, e, t2) <= Level(o, e, t1) + Earned(o, t2 - t1)
    ensures Level(o, e, t2) <= Burst(o)
  {
    EarnedMonotone(o, 0, t2 - t1);
    if t1 > e.refill {
      EarnedAdds(o, t1 - e.refill, t2 - t1);
    } else if t2 > e.refill {
      EarnedMonotone(o, t2 - e.refill, t2 - t1);
      EarnedMonotone(o, 0, t2 - e.refill);
    }
  }

  /** Before `FullAt` the bucket is not full. */
  lemma NotFullBefore(o: Options, e: Entry, now: int)
    requires ValidOptions(o) && e.tokens <= Burst(o) && e.refill <= now < FullAt(o, e)
    ensures !Full(o, e, now)
  {
    var missing := Burst(o) - e.tokens;
    var step := RefillRate(o) * TICKS_PER_MS as real;
    RefillRatePositive(o);
    var ms := missing / step;
    assert ms * step == missing;
    var capped := if ms < 0.0 then 0.0 else if ms < FULL_AT_CAP_MS then ms else FULL_AT_CAP_MS;
    var n := now - e.refill;
    assert n < (capped * TICKS_PER_MS as real).Floor;
    assert capped <= ms && 0.0 < ms;
    assert n as real < ms * TICKS_PER_MS as real;
    assert n as real * RefillRate(o) < ms * TICKS_PER_MS as real * RefillRate(o) == missing;
    assert Earned(o, n) < missing;
    if now == e.refill { assert Earned(o, 0) == 0.0; }
  }

  // ---- Operations ------------------------------------------------------------

  ghost function PruneTable(o: Options, t: Table, now: int, pressure: bool): Table
    requires ValidOptions(o)
  {
    var kept := Kept(o, t, now, pressure);
    t.(entries := kept, keyBytes := t.keyBytes - KeyBytes(t.entries.Keys - kept.Keys),
       pressureRetry := if pressure then RetryOf(o, kept) else t.pressureRetry)
  }

  datatype Reason = Rate | KeyConcurrency | TotalConcurrency | KeyCapacity

  datatype Answer = Granted | Limited(reason: Reason, retryAfterMs: int) | Refused(code: ErrorCode)

  predicate Pressed(o: Options, t: Table, key: Key) {
    |t.entries| >= o.maxKeys || |key| > o.maxRetainedKeyBytes - t.keyBytes
  }

  function Ceil(x: real): int { if x.Floor as real == x then x.Floor else x.Floor + 1 }

  /** The advisory wait of a rate refusal, in milliseconds. */
  function RetryAfter(o: Options, tokens: real, cost: nat): int
    requires ValidOptions(o)
  {
    var delay := Ceil((cost as real - tokens) / (RefillRate(o) * TICKS_PER_MS as real));
    if delay < 1 then 1 else delay
  }

  datatype Step = Step(table: Table, answer: Answer)

  /** The decision for a key that has an entry. */
  function Decide(o: Options, t: Table, key: Key, cost: nat, now: int): Step
    requires ValidOptions(o) && key in t.entries
  {
    var e := Refill(o, t.entries[key], now).(seen := now);
    var t1 := t.(entries := t.entries[key := e]);
    if e.active >= o.maxConcurrentPerKey then Step(t1, Limited(KeyConcurrency, 0))
    else if e.tokens < cost as real then Step(t1, Limited(Rate, RetryAfter(o, e.tokens, cost)))
    else Step(t1.(entries := t1.entries[key := e.(tokens := e.tokens - cost as real, active := e.active + 1)],
                  active := t.active + 1), Granted)
  }

  function Insert(o: Options, t: Table, key: Key, now: int): Table {
    t.(entries := t.entries[key := Entry(Burst(o), 0, now, now)], keyBytes := t.keyBytes + |key|)
  }

  /** TryAcquire; with `always` the cached time is ignored and every pressed request scans. */
  ghost function Acquire(o: Options, t: Table, key: Key, cost: nat, now: int, always: bool): Step
    requires ValidOptions(o)
  {
    if key == "" || cost == 0 then Step(t, Refused(InvalidArgument))
    else if |key| > o.maxKeyBytes || cost > o.burstTokens then Step(t, Refused(TooLarge))
    else if t.closed then Step(t, Refused(Closed))
    else if t.active >= o.maxConcurrentTotal then Step(t, Limited(TotalConcurrency, 0))
    else if key in t.entries then Decide(o, t, key, cost, now)
    else
      var t1 := if Pressed(o, t, key) && (always || now >= t.pressureRetry) then PruneTable(o, t, now, true) else t;
      if Pressed(o, t1, key) then Step(t1, Limited(KeyCapacity, 0))
      else Decide(o, Insert(o, t1, key, now), key, cost, now)
  }

  /** Returning a permit of `key`. */
  ghost function Release(o: Options, t: Table, key: Key, now: int): Table
    requires ValidOptions(o) && key in t.entries && 0 < t.entries[key].active
  {
    var e := t.entries[key];
    var t1 := t.(entries := t.entries[key := e.(active := e.active - 1, seen := now)], active := t.active - 1, pressureRetry := NO_TIME);
    if t.closed then PruneTable(o, t1, now, false) else t1
  }

  // ---- Runs ------------------------------------------------------------------

  datatype Event =
    | TryAcquire(key: Key, cost: nat, now: int)
    | ReturnPermit(key: Key, now: int)
    | PruneExpired(now: int)
    | Close(now: int)

  /** The table together with the permits handed out and not returned. */
  datatype Limiter = Limiter(table: Table, permits: multiset<Key>)

  predicate Enabled(s: Limiter, ev: Event) {
    ev.ReturnPermit? ==> ev.key in s.permits && ev.key in s.table.entries && 0 < s.table.entries[ev.key].active
  }

  ghost function AnswerOf(o: Options, s: Limiter, ev: Event, always: bool): Answer
    requires ValidOptions(o)
  {
    if ev.TryAcquire? then Acquire(o, s.table, ev.key, ev.cost, ev.now, always).answer else Refused(Ok)
  }

  ghost function Apply(o: Options, s: Limiter, ev: Event, always: bool): Limiter
    requires ValidOptions(o) && Enabled(s, ev)
  {
    match ev
    case TryAcquire(key, cost, now) =>
      var r := Acquire(o, s.table, key, cost, now, always);
      Limiter(r.table, if r.answer == Granted then s.permits + multiset{key} else s.permits)
    case ReturnPermit(key, now) => Limiter(Release(o, s.table, key, now), s.permits - multiset{key})
    case PruneExpired(now) => s.(table := PruneTable(o, s.table, now, false))
    case Close(now) => s.(table := PruneTable(o, s.table.(closed := true), now, false))
  }
}
