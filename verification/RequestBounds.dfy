/**
What the request limiter guarantees over every run: the rate bound of a key survives evictions,
the cached scan time never changes an answer, and permits keep their entry.
*/
module RequestBounds {
  import opened Common
  import opened RequestLimiter

  /** An entry is accounted for up to `now`, and while inactive it is not full before `retry`. */
  ghost predicate EntryOk(o: Options, e: Entry, permits: nat, now: int, retry: int)
    requires ValidOptions(o)
  {
    && 0.0 <= e.tokens <= Burst(o)
    && 0 <= e.refill <= now
    && e.active == permits <= o.maxConcurrentPerKey
    && (e.active == 0 ==> NotFullUntil(o, e, retry))
  }

  ghost predicate NotFullUntil(o: Options, e: Entry, retry: int)
    requires ValidOptions(o)
  {
    forall t :: e.refill <= t < retry ==> !Full(o, e, t)
  }

  ghost predicate Good(o: Options, s: Limiter, now: int) {
    && ValidOptions(o) && 0 <= now
    && (forall k :: k in s.table.entries ==> EntryOk(o, s.table.entries[k], s.permits[k], now, s.table.pressureRetry))
    && (forall k :: k in s.permits ==> k in s.table.entries)
    && s.table.keyBytes == KeyBytes(s.table.entries.Keys) <= o.maxRetainedKeyBytes
    && |s.table.entries| <= o.maxKeys
    && s.table.active == |s.permits| <= o.maxConcurrentTotal
  }

  const FRESH := Limiter(EMPTY_TABLE, multiset{})

  lemma FreshGood(o: Options, now: int)
    requires ValidOptions(o) && 0 <= now
    ensures Good(o, FRESH, now)
  {
  }

  // ---- Keeping the invariant -------------------------------------------------

  lemma RefillOk(o: Options, e: Entry, permits: nat, before: int, now: int, retry: int)
    requires ValidOptions(o) && EntryOk(o, e, permits, before, retry) && before <= now
    ensures EntryOk(o, Refill(o, e, now), permits, now, retry)
  {
    LevelGrows(o, e, e.refill, now);
    if e.active == 0 {
      forall t | Refill(o, e, now).refill <= t < retry ensures !Full(o, Refill(o, e, now), t) {
        assert !Full(o, e, t);
        if now <= t { RefillKeepsLevel(o, e, now, t); }
      }
    }
  }

  /** What a scan keeps is not full before the time it caches. */
  lemma RetrySound(o: Options, es: map<Key, Entry>, k: Key)
    requires ValidOptions(o) && k in es && es[k].active == 0 && es[k].tokens <= Burst(o)
    ensures NotFullUntil(o, es[k], RetryOf(o, es))
  {
    forall t | es[k].refill <= t < RetryOf(o, es) ensures !Full(o, es[k], t) {
      NotFullBefore(o, es[k], t);
    }
  }

  lemma {:induction false} KeyBytesSplit(all: set<Key>, part: set<Key>)
    requires part <= all
    ensures KeyBytes(all) == KeyBytes(part) + KeyBytes(all - part)
    decreases |all - part|
  {
    if forall k :: k in all ==> k in part {
      assert all == part && all - part == {};
    } else {
      var k :| k in all && k !in part;
      KeyBytesSplit(all - {k}, part);
      KeyBytesRemove(all, k);
      KeyBytesRemove(all - part, k);
      assert all - {k} - part == all - part - {k};
    }
  }

  lemma PruneGood(o: Options, s: Limiter, before: int, now: int, pressure: bool)
    requires Good(o, s, before) && before <= now
    ensures Good(o, s.(table := PruneTable(o, s.table, now, pressure)), now)
  {
    var t := PruneTable(o, s.table, now, pressure);
    assert t.entries.Keys <= s.table.entries.Keys;
    KeyBytesSplit(s.table.entries.Keys, t.entries.Keys);
    Subset(t.entries.Keys, s.table.entries.Keys);
    assert |t.entries| == |t.entries.Keys| && |s.table.entries| == |s.table.entries.Keys|;
    forall k | k in t.entries ensures EntryOk(o, t.entries[k], s.permits[k], now, t.pressureRetry) {
      RefillOk(o, s.table.entries[k], s.permits[k], before, now, s.table.pressureRetry);
      if pressure && t.entries[k].active == 0 { RetrySound(o, t.entries, k); }
    }
    forall k | k in s.permits ensures k in t.entries {
      assert EntryOk(o, s.table.entries[k], s.permits[k], before, s.table.pressureRetry);
    }
  }

  lemma {:induction false} Subset(a: set<Key>, b: set<Key>)
    requires a <= b
    ensures |a| <= |b|
  {
    assert b == a + (b - a);
    assert |b| == |a| + |b - a|;
  }

  lemma InsertGood(o: Options, s: Limiter, key: Key, now: int)
    requires Good(o, s, now) && key !in s.table.entries && !Pressed(o, s.table, key) && s.permits[key] == 0
    ensures var t := Insert(o, s.table, key, now);
      && t.keyBytes == KeyBytes(t.entries.Keys) <= o.maxRetainedKeyBytes && |t.entries| <= o.maxKeys
  {
    var t := Insert(o, s.table, key, now);
    assert t.entries.Keys == s.table.entries.Keys + {key};
    KeyBytesRemove(t.entries.Keys, key);
    assert t.entries.Keys - {key} == s.table.entries.Keys;
    assert |t.entries.Keys| == |s.table.entries.Keys| + 1;
  }

  /**
    A decision keeps the table in order; `before` may differ from a good table in `key` alone, which is new and full.
   */
  lemma DecideGood(o: Options, t: Table, permits: multiset<Key>, key: Key, cost: nat, before: int, now: int,
      inserted: bool)
    requires ValidOptions(o) && 0 <= before <= now && key in t.entries && cost <= o.burstTokens
    requires forall k :: k in t.entries && (k != key || !inserted) ==>
      EntryOk(o, t.entries[k], permits[k], before, t.pressureRetry)
    requires inserted ==> t.entries[key] == Entry(Burst(o), 0, now, now) && permits[key] == 0
    requires forall k :: k in permits ==> k in t.entries
    requires t.keyBytes == KeyBytes(t.entries.Keys) <= o.maxRetainedKeyBytes && |t.entries| <= o.maxKeys
    requires t.active == |permits| < o.maxConcurrentTotal
    ensures var r := Decide(o, t, key, cost, now);
      Good(o, Limiter(r.table, if r.answer == Granted then permits + multiset{key} else permits), now)
  {
    var r := Decide(o, t, key, cost, now);
    var permits2 := if r.answer == Granted then permits + multiset{key} else permits;
    assert r.table.entries.Keys == t.entries.Keys;
    assert |r.table.entries| == |t.entries| by { assert |r.table.entries.Keys| == |t.entries.Keys|; }
    forall k | k in r.table.entries ensures EntryOk(o, r.table.entries[k], permits2[k], now, r.table.pressureRetry) {
      if k == key {
        DecidedOk(o, t, permits, key, cost, before, now, inserted);
      } else {
        assert EntryOk(o, t.entries[k], permits[k], before, t.pressureRetry);
      }
    }
  }

  lemma DecidedOk(o: Options, t: Table, permits: multiset<Key>, key: Key, cost: nat, before: int, now: int,
      inserted: bool)
    requires ValidOptions(o) && 0 <= before <= now && key in t.entries && cost <= o.burstTokens
    requires !inserted ==> EntryOk(o, t.entries[key], permits[key], before, t.pressureRetry)
    requires inserted ==> t.entries[key] == Entry(Burst(o), 0, now, now) && permits[key] == 0
    ensures var r := Decide(o, t, key, cost, now);
      EntryOk(o, r.table.entries[key], if r.answer == Granted then permits[key] + 1 else permits[key], now, r.table.pressureRetry)
  {
    var e := t.entries[key];
    if !inserted {
      RefillOk(o, e, permits[key], before, now, t.pressureRetry);
      var r, e1 := Refill(o, e, now), Refill(o, e, now).(seen := now);
      forall x | e1.refill <= x ensures Full(o, e1, x) <==> Full(o, r, x) { }
    }
  }

  /** The table on which a request for an absent key is decided. */
  ghost function Scanned(o: Options, t: Table, key: Key, now: int, always: bool): Table
    requires ValidOptions(o)
  {
    if Pressed(o, t, key) && (always || now >= t.pressureRetry) then PruneTable(o, t, now, true) else t
  }

  lemma ScannedGood(o: Options, s: Limiter, key: Key, before: int, now: int, always: bool)
    requires Good(o, s, before) && before <= now
    ensures Good(o, s.(table := Scanned(o, s.table, key, now, always)), now)
  {
    if Pressed(o, s.table, key) && (always || now >= s.table.pressureRetry) {
      PruneGood(o, s, before, now, true);
    } else {
      GoodLater(o, s, before, now);
    }
  }

  lemma AcquireNewGood(o: Options, s: Limiter, key: Key, cost: nat, now: int)
    requires Good(o, s, now) && key !in s.table.entries && !Pressed(o, s.table, key)
    requires cost <= o.burstTokens && s.table.active < o.maxConcurrentTotal
    ensures var r := Decide(o, Insert(o, s.table, key, now), key, cost, now);
      Good(o, Limiter(r.table, if r.answer == Granted then s.permits + multiset{key} else s.permits), now)
  {
    InsertGood(o, s, key, now);
    DecideGood(o, Insert(o, s.table, key, now), s.permits, key, cost, now, now, true);
  }

  lemma AcquireGood(o: Options, s: Limiter, key: Key, cost: nat, before: int, now: int, always: bool)
    requires Good(o, s, before) && before <= now
    ensures var r := Acquire(o, s.table, key, cost, now, always);
      Good(o, Limiter(r.table, if r.answer == Granted then s.permits + multiset{key} else s.permits), now)
  {
    var t := s.table;
    if key == "" || cost == 0 || |key| > o.maxKeyBytes || cost > o.burstTokens || t.closed || t.active >= o.maxConcurrentTotal {
      GoodLater(o, s, before, now);
    } else if key in t.entries {
      DecideGood(o, t, s.permits, key, cost, before, now, false);
    } else {
      ScannedGood(o, s, key, before, now, always);
      var t1 := Scanned(o, t, key, now, always);
      if !Pressed(o, t1, key) { AcquireNewGood(o, s.(table := t1), key, cost, now); }
    }
  }

  lemma GoodLater(o: Options, s: Limiter, before: int, now: int)
    requires Good(o, s, before) && before <= now
    ensures Good(o, s, now)
  {
    forall k | k in s.table.entries ensures EntryOk(o, s.table.entries[k], s.permits[k], now, s.table.pressureRetry) {
      assert EntryOk(o, s.table.entries[k], s.permits[k], before, s.table.pressureRetry);
    }
  }

  lemma ReleaseGood(o: Options, s: Limiter, key: Key, before: int, now: int)
    requires Good(o, s, before) && before <= now && Enabled(s, ReturnPermit(key, now))
    ensures Good(o, Apply(o, s, ReturnPermit(key, now), false), now)
  {
    var t, e := s.table, s.table.entries[key];
    assert EntryOk(o, e, s.permits[key], before, t.pressureRetry);
    var t1 := t.(entries := t.entries[key := e.(active := e.active - 1, seen := now)], active := t.active - 1, pressureRetry := NO_TIME);
    var s1 := Limiter(t1, s.permits - multiset{key});
    assert t1.entries.Keys == t.entries.Keys;
    assert |t1.entries| == |t.entries| by { assert |t1.entries.Keys| == |t.entries.Keys|; }
    forall k | k in t1.entries ensures EntryOk(o, t1.entries[k], s1.permits[k], now, NO_TIME) {
      assert EntryOk(o, t.entries[k], s.permits[k], before, t.pressureRetry);
    }
    if t.closed { PruneGood(o, s1, now, now, false); }
  }

  lemma StepGood(o: Options, s: Limiter, ev: Event, before: int, always: bool)
    requires Good(o, s, before) && before <= ev.now && Enabled(s, ev)
    ensures Good(o, Apply(o, s, ev, always), ev.now)
  {
    match ev
    case TryAcquire(key, cost, now) => AcquireGood(o, s, key, cost, before, now, always);
    case ReturnPermit(key, now) => ReleaseGood(o, s, key, before, now);
    case PruneExpired(now) => PruneGood(o, s, before, now, false);
    case Close(now) => PruneGood(o, s.(table := s.table.(closed := true)), before, now, false);
  }

  // ---- Runs ------------------------------------------------------------------

  /** States and events of a limiter whose clock never goes back. */
  ghost predicate IsRun(o: Options, ss: seq<Limiter>, evs: seq<Event>, always: bool) {
    && ValidOptions(o)
    && |ss| == |evs| + 1 && ss[0] == FRESH
    && (forall i :: 0 <= i < |evs| ==> StepAt(o, ss, evs, always, i))
  }

  ghost predicate StepAt(o: Options, ss: seq<Limiter>, evs: seq<Event>, always: bool, i: nat)
    requires ValidOptions(o) && i < |evs| < |ss|
  {
    LastTime(evs, i) <= evs[i].now && Enabled(ss[i], evs[i]) && ss[i + 1] == Apply(o, ss[i], evs[i], always)
  }

  function LastTime(evs: seq<Event>, i: nat): int
    requires i <= |evs|
  {
    if i == 0 then 0 else evs[i - 1].now
  }

  lemma {:induction false} RunGood(o: Options, ss: seq<Limiter>, evs: seq<Event>, always: bool, i: nat)
    requires IsRun(o, ss, evs, always) && i < |ss|
    ensures Good(o, ss[i], LastTime(evs, i))
  {
    if i == 0 {
      FreshGood(o, 0);
    } else {
      RunGood(o, ss, evs, always, i - 1);
      assert StepAt(o, ss, evs, always, i - 1);
      StepGood(o, ss[i - 1], evs[i - 1], LastTime(evs, i - 1), always);
    }
  }

  /** Limits hold in every state, and every permit handed out still has its entry. */
  lemma LimitsTheorem(o: Options, ss: seq<Limiter>, evs: seq<Event>, i: nat)
    requires IsRun(o, ss, evs, false) && i < |ss|
    ensures var s := ss[i];
      && |s.table.entries| <= o.maxKeys && 0 <= s.table.keyBytes <= o.maxRetainedKeyBytes
      && s.table.active == |s.permits| <= o.maxConcurrentTotal
      && (forall k :: k in s.permits ==>
            k in s.table.entries && s.table.entries[k].active == s.permits[k] <= o.maxConcurrentPerKey)
  {
    RunGood(o, ss, evs, false, i);
    forall k | k in ss[i].permits
      ensures k in ss[i].table.entries && ss[i].table.entries[k].active == ss[i].permits[k] <= o.maxConcurrentPerKey
    {
      assert EntryOk(o, ss[i].table.entries[k], ss[i].permits[k], LastTime(evs, i), ss[i].table.pressureRetry);
    }
  }

  // ---- The rate bound --------------------------------------------------------

  /** What `key` may still be granted at `now`: a missing entry counts as a full bucket. */
  function Allowance(o: Options, t: Table, key: Key, now: int): real
    requires ValidOptions(o)
  {
    if t.closed then 0.0
    else if key in t.entries then Level(o, t.entries[key], now)
    else Burst(o)
  }

  function GrantedCost(ev: Event, answer: Answer, key: Key): nat {
    if ev.TryAcquire? && ev.key == key && answer == Granted then ev.cost else 0
  }

  /** Evicting an entry of an open table gives nothing away. */
  lemma PruneAllows(o: Options, s: Limiter, before: int, now: int, pressure: bool, key: Key)
    requires Good(o, s, before) && before <= now
    ensures Allowance(o, PruneTable(o, s.table, now, pressure), key, now) == Allowance(o, s.table, key, now)
  {
    if key in s.table.entries {
      var e := s.table.entries[key];
      assert EntryOk(o, e, s.permits[key], before, s.table.pressureRetry);
      RefillKeepsLevel(o, e, now, now);
      LevelGrows(o, e, e.refill, now);
    }
  }

  lemma DecideAllows(o: Options, t: Table, key: Key, cost: nat, now: int, other: Key)
    requires ValidOptions(o) && key in t.entries && t.entries[key].tokens <= Burst(o) && !t.closed
    ensures var r := Decide(o, t, key, cost, now);
      Allowance(o, r.table, other, now) == Allowance(o, t, other, now) -
        (if other == key && r.answer == Granted then cost as real else 0.0)
  {
    RefillKeepsLevel(o, t.entries[key], now, now);
  }

  lemma AcquireAllows(o: Options, s: Limiter, key: Key, cost: nat, before: int, now: int, always: bool, other: Key)
    requires Good(o, s, before) && before <= now
    ensures var r := Acquire(o, s.table, key, cost, now, always);
      Allowance(o, r.table, other, now) + GrantedCost(TryAcquire(key, cost, now), r.answer, other) as real <= Allowance(o, s.table, other, now)
  {
    var t := s.table;
    if key == "" || cost == 0 || |key| > o.maxKeyBytes || cost > o.burstTokens || t.closed || t.active >= o.maxConcurrentTotal {
    } else if key in t.entries {
      assert EntryOk(o, t.entries[key], s.permits[key], before, t.pressureRetry);
      DecideAllows(o, t, key, cost, now, other);
    } else {
      var scan := Pressed(o, t, key) && (always || now >= t.pressureRetry);
      var t1 := if scan then PruneTable(o, t, now, true) else t;
      if scan { PruneAllows(o, s, before, now, true, other); }
      if !Pressed(o, t1, key) {
        DecideAllows(o, Insert(o, t1, key, now), key, cost, now, other);
      }
    }
  }

  lemma StepAllows(o: Options, s: Limiter, ev: Event, before: int, always: bool, key: Key)
    requires Good(o, s, before) && before <= ev.now && Enabled(s, ev)
    ensures Allowance(o, Apply(o, s, ev, always).table, key, ev.now) + GrantedCost(ev, AnswerOf(o, s, ev, always), key) as real
         <= Allowance(o, s.table, key, ev.now)
  {
    match ev
    case TryAcquire(k, cost, now) => AcquireAllows(o, s, k, cost, before, now, always, key);
    case ReturnPermit(k, now) =>
      if !s.table.closed && key == k {
        assert EntryOk(o, s.table.entries[k], s.permits[k], before, s.table.pressureRetry);
      }
    case PruneExpired(now) => PruneAllows(o, s, before, now, false, key);
    case Close(now) =>
      if key in s.table.entries {
        assert EntryOk(o, s.table.entries[key], s.permits[key], before, s.table.pressureRetry);
        LevelGrows(o, s.table.entries[key], s.table.entries[key].refill, now);
      }
  }

  lemma AllowanceGrows(o: Options, s: Limiter, before: int, now: int, key: Key)
    requires Good(o, s, before) && before <= now
    ensures 0.0 <= Allowance(o, s.table, key, now) <= Allowance(o, s.table, key, before) + Earned(o, now - before)
    ensures Allowance(o, s.table, key, now) <= Burst(o)
  {
    EarnedMonotone(o, 0, now - before);
    if key in s.table.entries {
      var e := s.table.entries[key];
      assert EntryOk(o, e, s.permits[key], before, s.table.pressureRetry);
      LevelGrows(o, e, before, now);
      LevelGrows(o, e, e.refill, before);
    }
  }

  /** Total cost granted to `key` by the events from `i` up to `j`. */
  ghost function GrantedBetween(o: Options, ss: seq<Limiter>, evs: seq<Event>, always: bool, key: Key, i: nat,
      j: nat): nat
    requires ValidOptions(o) && i <= j <= |evs| < |ss|
  {
    if i == j then 0
    else GrantedBetween(o, ss, evs, always, key, i, j - 1) + GrantedCost(evs[j - 1], AnswerOf(o, ss[j - 1], evs[j - 1], always), key)
  }

  /** One event, with the time that passed since the previous one. */
  lemma EventAllows(o: Options, s: Limiter, ev: Event, before: int, always: bool, key: Key)
    requires Good(o, s, before) && before <= ev.now && Enabled(s, ev)
    ensures var left := Allowance(o, Apply(o, s, ev, always).table, key, ev.now) + GrantedCost(ev, AnswerOf(o, s, ev, always), key) as real;
      left <= Burst(o) && left <= Allowance(o, s.table, key, before) + Earned(o, ev.now - before)
  {
    StepAllows(o, s, ev, before, always, key);
    AllowanceGrows(o, s, before, ev.now, key);
  }

  ghost predicate Bounded(o: Options, ss: seq<Limiter>, evs: seq<Event>, always: bool, key: Key, i: nat, j: nat)
    requires ValidOptions(o) && i < j <= |evs| < |ss|
  {
    GrantedBetween(o, ss, evs, always, key, i, j) as real + Allowance(o, ss[j].table, key, evs[j - 1].now)
      <= Burst(o) + Earned(o, evs[j - 1].now - evs[i].now)
  }

  lemma {:induction false} GrantsAgainstAllowance(o: Options, ss: seq<Limiter>, evs: seq<Event>, always: bool, key: Key,
      i: nat, j: nat)
    requires IsRun(o, ss, evs, always) && i < j <= |evs|
    ensures Bounded(o, ss, evs, always, key, i, j)
  {
    var m := j - 1;
    RunGood(o, ss, evs, always, m);
    assert StepAt(o, ss, evs, always, m);
    EventAllows(o, ss[m], evs[m], LastTime(evs, m), always, key);
    var g := GrantedCost(evs[m], AnswerOf(o, ss[m], evs[m], always), key);
    if m == i {
      assert GrantedBetween(o, ss, evs, always, key, i, j) == g;
      EarnedMonotone(o, 0, 0);
      assert Earned(o, evs[m].now - evs[i].now) == 0.0;
    } else {
      GrantsAgainstAllowance(o, ss, evs, always, key, i, m);
      EarnedAdds(o, evs[m - 1].now - evs[i].now, evs[m].now - evs[m - 1].now);
      assert GrantedBetween(o, ss, evs, always, key, i, j) == GrantedBetween(o, ss, evs, always, key, i, m) + g;
    }
  }

  /** The burst plus what a span of ticks earns, as the options state it. */
  function RateLimit(o: Options, ticks: int): real
    requires ValidOptions(o)
  {
    o.burstTokens as real + o.refillTokens as real * ticks as real / (o.refillInterval as real * TICKS_PER_MS as real)
  }

  lemma RateLimitIs(o: Options, ticks: int)
    requires ValidOptions(o)
    ensures RateLimit(o, ticks) == Burst(o) + Earned(o, ticks)
  {
    var d, n, r := o.refillInterval as real * TICKS_PER_MS as real, ticks as real, o.refillTokens as real;
    assert n * (r / d) == r * n / d;
  }

  /**
  The rate bound.  In any run, the cost granted to one key by consecutive events is at most the burst plus
  what the elapsed time earns, however often the key's entry was evicted and recreated in between.
  */
  lemma RateBound(o: Options, ss: seq<Limiter>, evs: seq<Event>, key: Key, i: nat, j: nat)
    requires IsRun(o, ss, evs, false) && i < j <= |evs|
    ensures GrantedBetween(o, ss, evs, false, key, i, j) as real <= RateLimit(o, evs[j - 1].now - evs[i].now)
  {
    GrantsAgainstAllowance(o, ss, evs, false, key, i, j);
    RunGood(o, ss, evs, false, j);
    AllowanceGrows(o, ss[j], LastTime(evs, j), LastTime(evs, j), key);
    RateLimitIs(o, evs[j - 1].now - evs[i].now);
  }

  // ---- The cached scan time --------------------------------------------------

  /** While the scan is skipped, a scan would evict nothing. */
  lemma SkipFindsNothing(o: Options, s: Limiter, before: int, now: int)
    requires Good(o, s, before) && before <= now < s.table.pressureRetry && !s.table.closed
    ensures forall k :: k in s.table.entries ==> !Evicts(o, s.table.entries[k], now, s.table.closed, true)
    ensures Kept(o, s.table, now, true).Keys == s.table.entries.Keys
  {
    forall k | k in s.table.entries ensures !Evicts(o, s.table.entries[k], now, s.table.closed, true) {
      assert EntryOk(o, s.table.entries[k], s.permits[k], before, s.table.pressureRetry);
    }
  }

  /** Two entries that every later request finds the same. */
  ghost predicate SameEntry(o: Options, a: Entry, b: Entry, now: int)
    requires ValidOptions(o)
  {
    && a.active == b.active && a.seen == b.seen && a.refill <= now && b.refill <= now
    && a.tokens <= Burst(o) && b.tokens <= Burst(o) && Level(o, a, now) == Level(o, b, now)
  }

  lemma SameLater(o: Options, a: Entry, b: Entry, now: int, later: int)
    requires ValidOptions(o) && SameEntry(o, a, b, now) && now <= later
    ensures SameEntry(o, Refill(o, a, later), Refill(o, b, later), later)
    ensures Refill(o, a, later).tokens == Refill(o, b, later).tokens
    ensures Full(o, a, later) == Full(o, b, later)
  {
    RefillKeepsLevel(o, a, now, later);
    RefillKeepsLevel(o, b, now, later);
    RefillKeepsLevel(o, a, later, later);
    RefillKeepsLevel(o, b, later, later);
    LevelGrows(o, a, a.refill, later);
    LevelGrows(o, b, b.refill, later);
  }

  ghost predicate SameTable(o: Options, t: Table, z: Table, now: int)
    requires ValidOptions(o)
  {
    && t.entries.Keys == z.entries.Keys && t.keyBytes == z.keyBytes && t.active == z.active && t.closed == z.closed
    && (forall k :: k in t.entries ==> SameEntry(o, t.entries[k], z.entries[k], now))
  }

  lemma SameTableLater(o: Options, t: Table, z: Table, now: int, later: int)
    requires ValidOptions(o) && SameTable(o, t, z, now) && now <= later
    ensures SameTable(o, t, z, later)
  {
    forall k | k in t.entries ensures SameEntry(o, t.entries[k], z.entries[k], later) {
      SameLater(o, t.entries[k], z.entries[k], now, later);
    }
  }

  lemma SamePrune(o: Options, t: Table, z: Table, now: int, pressure: bool)
    requires ValidOptions(o) && SameTable(o, t, z, now)
    ensures SameTable(o, PruneTable(o, t, now, pressure), PruneTable(o, z, now, pressure), now)
  {
    forall k | k in t.entries
      ensures Evicts(o, t.entries[k], now, t.closed, pressure) == Evicts(o, z.entries[k], now, z.closed, pressure)
      ensures SameEntry(o, Refill(o, t.entries[k], now), Refill(o, z.entries[k], now), now)
    {
      SameLater(o, t.entries[k], z.entries[k], now, now);
    }
    assert Kept(o, t, now, pressure).Keys == Kept(o, z, now, pressure).Keys;
  }

  /** A scan that evicts nothing leaves the same table. */
  lemma IdlePrune(o: Options, t: Table, z: Table, now: int)
    requires ValidOptions(o) && SameTable(o, t, z, now) && Kept(o, z, now, true).Keys == z.entries.Keys
    ensures SameTable(o, t, PruneTable(o, z, now, true), now)
  {
    var p := PruneTable(o, z, now, true);
    assert z.entries.Keys - p.entries.Keys == {};
    forall k | k in t.entries ensures SameEntry(o, t.entries[k], p.entries[k], now) {
      RefillKeepsLevel(o, z.entries[k], now, now);
      LevelGrows(o, z.entries[k], z.entries[k].refill, now);
    }
  }

  lemma SameDecide(o: Options, t: Table, z: Table, key: Key, cost: nat, now: int)
    requires ValidOptions(o) && SameTable(o, t, z, now) && key in t.entries
    ensures Decide(o, t, key, cost, now).answer == Decide(o, z, key, cost, now).answer
    ensures SameTable(o, Decide(o, t, key, cost, now).table, Decide(o, z, key, cost, now).table, now)
  {
    SameLater(o, t.entries[key], z.entries[key], now, now);
    var t2, z2 := Decide(o, t, key, cost, now).table, Decide(o, z, key, cost, now).table;
    assert t2.entries.Keys == t.entries.Keys && z2.entries.Keys == z.entries.Keys;
    forall k | k in t2.entries ensures SameEntry(o, t2.entries[k], z2.entries[k], now) {
      if k != key { assert t2.entries[k] == t.entries[k] && z2.entries[k] == z.entries[k]; }
    }
  }

  lemma SamePressed(o: Options, t: Table, z: Table, key: Key)
    requires t.entries.Keys == z.entries.Keys && t.keyBytes == z.keyBytes
    ensures Pressed(o, t, key) == Pressed(o, z, key)
  {
    assert |t.entries| == |t.entries.Keys| == |z.entries.Keys| == |z.entries|;
  }

  lemma SameScanned(o: Options, s: Limiter, z: Table, key: Key, before: int, now: int)
    requires Good(o, s, before) && before <= now && SameTable(o, s.table, z, now) && !s.table.closed
    ensures SameTable(o, Scanned(o, s.table, key, now, false), Scanned(o, z, key, now, true), now)
  {
    var t := s.table;
    SamePressed(o, t, z, key);
    if Pressed(o, t, key) {
      if now >= t.pressureRetry {
        SamePrune(o, t, z, now, true);
      } else {
        SkipFindsNothing(o, s, before, now);
        forall k | k in z.entries ensures !Evicts(o, z.entries[k], now, z.closed, true) {
          SameLater(o, t.entries[k], z.entries[k], now, now);
          assert !Evicts(o, t.entries[k], now, t.closed, true);
        }
        IdlePrune(o, t, z, now);
      }
    }
  }

  lemma SameNew(o: Options, t: Table, z: Table, key: Key, cost: nat, now: int)
    requires ValidOptions(o) && SameTable(o, t, z, now) && key !in t.entries
    ensures var a, b := Decide(o, Insert(o, t, key, now), key, cost, now), Decide(o, Insert(o, z, key, now), key, cost, now);
      a.answer == b.answer && SameTable(o, a.table, b.table, now)
  {
    var t1, z1 := Insert(o, t, key, now), Insert(o, z, key, now);
    assert t1.entries.Keys == t.entries.Keys + {key} && z1.entries.Keys == z.entries.Keys + {key};
    SameDecide(o, t1, z1, key, cost, now);
  }

  /** With the cached time or without it, a request gets the same answer. */
  lemma SameAcquire(o: Options, s: Limiter, z: Table, key: Key, cost: nat, before: int, now: int)
    requires Good(o, s, before) && before <= now && SameTable(o, s.table, z, now)
    ensures var a, b := Acquire(o, s.table, key, cost, now, false), Acquire(o, z, key, cost, now, true);
      a.answer == b.answer && SameTable(o, a.table, b.table, now)
  {
    var t := s.table;
    if key == "" || cost == 0 || |key| > o.maxKeyBytes || cost > o.burstTokens || t.closed || t.active >= o.maxConcurrentTotal {
    } else if key in t.entries {
      SameDecide(o, t, z, key, cost, now);
    } else {
      SameScanned(o, s, z, key, before, now);
      var t1, z1 := Scanned(o, t, key, now, false), Scanned(o, z, key, now, true);
      SamePressed(o, t1, z1, key);
      if !Pressed(o, t1, key) { SameNew(o, t1, z1, key, cost, now); }
    }
  }

  lemma SameRelease(o: Options, t: Table, z: Table, key: Key, now: int)
    requires ValidOptions(o) && SameTable(o, t, z, now) && key in t.entries && 0 < t.entries[key].active
    ensures SameTable(o, Release(o, t, key, now), Release(o, z, key, now), now)
  {
    var e, f := t.entries[key], z.entries[key];
    var t1 := t.(entries := t.entries[key := e.(active := e.active - 1, seen := now)], active := t.active - 1, pressureRetry := NO_TIME);
    var z1 := z.(entries := z.entries[key := f.(active := f.active - 1, seen := now)], active := z.active - 1, pressureRetry := NO_TIME);
    assert t1.entries.Keys == t.entries.Keys && z1.entries.Keys == z.entries.Keys;
    assert SameTable(o, t1, z1, now);
    SamePrune(o, t1, z1, now, false);
  }

  lemma SameStep(o: Options, s: Limiter, z: Limiter, ev: Event, before: int)
    requires Good(o, s, before) && before <= ev.now && SameTable(o, s.table, z.table, before) && s.permits == z.permits
    requires Enabled(s, ev)
    ensures Enabled(z, ev) && AnswerOf(o, s, ev, false) == AnswerOf(o, z, ev, true)
    ensures SameTable(o, Apply(o, s, ev, false).table, Apply(o, z, ev, true).table, ev.now)
    ensures Apply(o, s, ev, false).permits == Apply(o, z, ev, true).permits
  {
    SameTableLater(o, s.table, z.table, before, ev.now);
    match ev
    case TryAcquire(k, cost, now) => SameAcquire(o, s, z.table, k, cost, before, now);
    case ReturnPermit(k, now) => SameRelease(o, s.table, z.table, k, now);
    case PruneExpired(now) => SamePrune(o, s.table, z.table, now, false);
    case Close(now) => SamePrune(o, s.table.(closed := true), z.table.(closed := true), now, false);
  }

  /** Step `i` of the shadow run `zs` answers as the run `ss` does. */
  ghost predicate Shadows(o: Options, ss: seq<Limiter>, zs: seq<Limiter>, evs: seq<Event>, i: nat)
    requires ValidOptions(o)
  {
    i < |evs| < |ss| && i + 1 < |zs| && ShadowStep(o, ss[i], zs[i], zs[i + 1], evs[i])
  }

  ghost predicate ShadowStep(o: Options, s: Limiter, z: Limiter, z2: Limiter, ev: Event)
    requires ValidOptions(o)
  {
    Enabled(z, ev) && z2 == Apply(o, z, ev, true) && AnswerOf(o, s, ev, false) == AnswerOf(o, z, ev, true)
  }

  ghost predicate SameLimiter(o: Options, s: Limiter, z: Limiter, now: int)
    requires ValidOptions(o)
  {
    SameTable(o, s.table, z.table, now) && s.permits == z.permits
  }

  lemma {:induction false} Shadow(o: Options, ss: seq<Limiter>, evs: seq<Event>, n: nat) returns (zs: seq<Limiter>)
    requires IsRun(o, ss, evs, false) && n <= |evs|
    ensures |zs| == n + 1 && zs[0] == FRESH && SameLimiter(o, ss[n], zs[n], LastTime(evs, n))
    ensures forall i :: 0 <= i < n ==> Shadows(o, ss, zs, evs, i)
  {
    if n == 0 {
      zs := [FRESH];
    } else {
      var z0 := Shadow(o, ss, evs, n - 1);
      RunGood(o, ss, evs, false, n - 1);
      assert StepAt(o, ss, evs, false, n - 1);
      var next := ShadowNext(o, ss[n - 1], z0[n - 1], ss[n], evs[n - 1], LastTime(evs, n - 1));
      zs := z0 + [next];
      forall i | 0 <= i < n ensures Shadows(o, ss, zs, evs, i) {
        if i < n - 1 { assert Shadows(o, ss, z0, evs, i); }
      }
    }
  }

  lemma ShadowNext(o: Options, s: Limiter, z: Limiter, s2: Limiter, ev: Event, before: int) returns (z2: Limiter)
    requires Good(o, s, before) && before <= ev.now && SameLimiter(o, s, z, before) && Enabled(s, ev)
    requires s2 == Apply(o, s, ev, false)
    ensures ShadowStep(o, s, z, z2, ev) && SameLimiter(o, s2, z2, ev.now)
  {
    SameStep(o, s, z, ev, before);
    z2 := Apply(o, z, ev, true);
  }

  /**
  The cached time is only an optimisation: a limiter that scans on every pressed request runs through the
  same events and gives the same answer to each of them.
  */
  lemma CachedScanIsUnobservable(o: Options, ss: seq<Limiter>, evs: seq<Event>)
    requires IsRun(o, ss, evs, false)
    ensures exists zs :: IsRun(o, zs, evs, true) && SameAnswers(o, ss, zs, evs)
  {
    var zs := Shadow(o, ss, evs, |evs|);
    forall i | 0 <= i < |evs|
      ensures StepAt(o, zs, evs, true, i) && AnswerOf(o, ss[i], evs[i], false) == AnswerOf(o, zs[i], evs[i], true)
    {
      assert Shadows(o, ss, zs, evs, i) && StepAt(o, ss, evs, false, i);
    }
    assert IsRun(o, zs, evs, true) && SameAnswers(o, ss, zs, evs);
  }

  ghost predicate SameAnswers(o: Options, ss: seq<Limiter>, zs: seq<Limiter>, evs: seq<Event>)
    requires ValidOptions(o)
  {
    && |ss| == |zs| == |evs| + 1
    && forall i :: 0 <= i < |evs| ==> AnswerOf(o, ss[i], evs[i], false) == AnswerOf(o, zs[i], evs[i], true)
  }

  // ---- The advisory wait -----------------------------------------------------

  lemma LevelAfter(o: Options, e: Entry, ms: int)
    requires ValidOptions(o) && 0 < ms
    ensures var sum := e.tokens + ms as real * (RefillRate(o) * TICKS_PER_MS as real);
      Level(o, e, e.refill + ms * TICKS_PER_MS) == if sum <= Burst(o) then sum else Burst(o)
  {
    var n := ms * TICKS_PER_MS;
    assert n as real == ms as real * TICKS_PER_MS as real;
    assert e.refill + n - e.refill == n;
    assert Earned(o, n) == ms as real * (RefillRate(o) * TICKS_PER_MS as real);
  }

  lemma CeilBounds(x: real)
    requires x > 0.0
    ensures var d := if Ceil(x) < 1 then 1 else Ceil(x); 1 <= d && x <= d as real && (d > 1 ==> (d - 1) as real < x)
  {
  }

  lemma DelayBounds(o: Options, tokens: real, cost: nat)
    requires ValidOptions(o) && tokens < cost as real
    ensures var d, step := RetryAfter(o, tokens, cost), RefillRate(o) * TICKS_PER_MS as real;
      && 1 <= d && tokens + d as real * step >= cost as real
      && (d > 1 ==> tokens + (d - 1) as real * step < cost as real)
  {
    RefillRatePositive(o);
    var step, missing := RefillRate(o) * TICKS_PER_MS as real, cost as real - tokens;
    Quotient(missing, step);
    CeilBounds(missing / step);
    Multiplied(missing, step, RetryAfter(o, tokens, cost));
  }

  lemma Multiplied(missing: real, step: real, d: int)
    requires missing > 0.0 && step > 0.0 && missing / step <= d as real && (d > 1 ==> (d - 1) as real < missing / step)
    ensures missing <= d as real * step && (d > 1 ==> (d - 1) as real * step < missing)
  {
    var x := missing / step;
    Quotient(missing, step);
    Scales(x, d as real, step);
    Scales((d - 1) as real, x, step);
  }

  lemma Quotient(a: real, b: real)
    requires a > 0.0 && b > 0.0
    ensures a / b > 0.0 && a / b * b == a
  {
  }

  /**
    After the advised wait the bucket holds the cost; a millisecond earlier it does not, unless the wait is the minimum.
   */
  lemma RetryAfterIsTight(o: Options, e: Entry, cost: nat)
    requires ValidOptions(o) && e.tokens < cost as real <= Burst(o)
    ensures var d := RetryAfter(o, e.tokens, cost);
      && Level(o, e, e.refill + d * TICKS_PER_MS) >= cost as real
      && (d > 1 ==> Level(o, e, e.refill + (d - 1) * TICKS_PER_MS) < cost as real)
  {
    var d := RetryAfter(o, e.tokens, cost);
    DelayBounds(o, e.tokens, cost);
    LevelAfter(o, e, d);
    if d > 1 { LevelAfter(o, e, d - 1); }
  }

  lemma Scales(a: real, b: real, step: real)
    requires step > 0.0
    ensures a <= b ==> a * step <= b * step
    ensures a < b ==> a * step < b * step
  {
  }
}
