/** The limiter object: its table is changed in place, entry by entry. */
module RequestState {
  import opened Common
  import opened RequestLimiter

  lemma RetryUnique(o: Options, es: map<Key, Entry>, r: int)
    requires ValidOptions(o) && IsRetry(o, es, r)
    ensures r == RetryOf(o, es)
  {
  }

  /** Settling `k` in a scan: it is dropped or kept, and the cached time follows. */
  lemma RetryExtends(o: Options, done: map<Key, Entry>, k: Key, e: Entry, r: int)
    requires ValidOptions(o) && IsRetry(o, done, r) && k !in done
    ensures IsRetry(o, done[k := e], if e.active == 0 && FullAt(o, e) < r then FullAt(o, e) else r)
  {
    var es := done[k := e];
    forall x | x in es && es[x].active == 0 ensures x == k || r <= FullAt(o, es[x]) {
      if x != k { assert es[x] == done[x]; }
    }
    if r != TIME_MAX {
      var x :| x in done && done[x].active == 0 && r == FullAt(o, done[x]);
      assert es[x] == done[x];
    }
    assert es[k] == e;
  }

  /** A scan of `all` under way: `todo` is untouched, what was settled is refilled or gone. */
  ghost predicate Scanning(o: Options, all: map<Key, Entry>, todo: set<Key>, entries: map<Key, Entry>, now: int,
      closed: bool, pressure: bool)
    requires ValidOptions(o)
  {
    && todo <= all.Keys
    && (forall k :: k in todo ==> k in entries && entries[k] == all[k])
    && (forall k {:trigger Evicts(o, all[k], now, closed, pressure)} :: k in all && k !in todo ==> (k in entries <==> !Evicts(o, all[k], now, closed, pressure)))
    && (forall k :: k in entries ==> k in all)
    && (forall k {:trigger Refill(o, all[k], now)} :: k in entries && k !in todo ==> entries[k] == Refill(o, all[k], now))
  }

  /** The part of the table a scan has settled and kept. */
  ghost function Settled(entries: map<Key, Entry>, todo: set<Key>): map<Key, Entry> { entries - todo }

  lemma ScanDrops(o: Options, all: map<Key, Entry>, todo: set<Key>, entries: map<Key, Entry>, now: int, closed: bool,
      pressure: bool, k: Key)
    requires ValidOptions(o) && Scanning(o, all, todo, entries, now, closed, pressure) && k in todo
    requires Evicts(o, all[k], now, closed, pressure)
    ensures Scanning(o, all, todo - {k}, entries - {k}, now, closed, pressure)
    ensures Settled(entries - {k}, todo - {k}) == Settled(entries, todo)
    ensures KeyBytes(all.Keys - (entries - {k}).Keys) == |k| + KeyBytes(all.Keys - entries.Keys)
  {
    var gone, gone2 := all.Keys - entries.Keys, all.Keys - (entries - {k}).Keys;
    KeyBytesRemove(gone2, k);
    assert gone2 - {k} == gone;
  }

  lemma ScanKeeps(o: Options, all: map<Key, Entry>, todo: set<Key>, entries: map<Key, Entry>, now: int, closed: bool,
      pressure: bool, k: Key)
    requires ValidOptions(o) && Scanning(o, all, todo, entries, now, closed, pressure) && k in todo
    requires !Evicts(o, all[k], now, closed, pressure)
    ensures Scanning(o, all, todo - {k}, entries[k := Refill(o, all[k], now)], now, closed, pressure)
    ensures Settled(entries[k := Refill(o, all[k], now)], todo - {k}) == Settled(entries, todo)[k := Refill(o, all[k], now)]
    ensures entries[k := Refill(o, all[k], now)].Keys == entries.Keys
  {
  }

  lemma FewerKeys(more: map<Key, Entry>, fewer: map<Key, Entry>)
    requires fewer.Keys <= more.Keys
    ensures |fewer| <= |more|
  {
    assert |more| == |more.Keys| && |fewer| == |fewer.Keys|;
    assert more.Keys == fewer.Keys + (more.Keys - fewer.Keys);
  }

  lemma ScanKept(o: Options, t: Table, entries: map<Key, Entry>, now: int, pressure: bool)
    requires ValidOptions(o) && Scanning(o, t.entries, {}, entries, now, t.closed, pressure)
    ensures entries == Kept(o, t, now, pressure) && |entries| <= |t.entries|
  {
    FewerKeys(t.entries, entries);
  }

  /** A finished scan has produced the pruned table. */
  lemma ScanEnds(o: Options, t: Table, entries: map<Key, Entry>, now: int, pressure: bool, retry: int)
    requires ValidOptions(o) && entries == Kept(o, t, now, pressure) && IsRetry(o, entries, retry)
    ensures PruneTable(o, t, now, pressure) ==
      t.(entries := entries, keyBytes := t.keyBytes - KeyBytes(t.entries.Keys - entries.Keys), pressureRetry := if pressure then retry else t.pressureRetry)
  {
    RetryUnique(o, entries, retry);
  }

  class RequestLimitState {
    const options: Options
    var entries: map<Key, Entry>
    var keyBytes: int
    var active: int
    var pressureRetry: int
    var closed: bool

    constructor (o: Options)
      requires ValidOptions(o)
      ensures options == o && View() == EMPTY_TABLE
    {
      options := o;
      entries, keyBytes, active, pressureRetry, closed := map[], 0, 0, NO_TIME, false;
    }

    ghost function View(): Table
      reads this
    {
      Table(entries, keyBytes, active, pressureRetry, closed)
    }

    method Prune(now: int, pressure: bool) returns (removed: nat)
      requires ValidOptions(options)
      modifies this
      ensures View() == PruneTable(options, old(View()), now, pressure)
      ensures removed == |old(entries)| - |entries|
    {
      var before := |entries|;
      var retry := PruneAll(now, pressure);
      ScanKept(options, old(View()), entries, now, pressure);
      ScanEnds(options, old(View()), entries, now, pressure, retry);
      removed := before - |entries|;
      if pressure { pressureRetry := retry; }
    }

    method PruneAll(now: int, pressure: bool) returns (retry: int)
      requires ValidOptions(options)
      modifies this`entries, this`keyBytes
      ensures Scanning(options, old(entries), {}, entries, now, closed, pressure)
      ensures IsRetry(options, entries, retry)
      ensures keyBytes == old(keyBytes) - KeyBytes(old(entries).Keys - entries.Keys)
    {
      retry := TIME_MAX;
      var todo := entries.Keys;
      ghost var all := entries;
      assert all.Keys - entries.Keys == {} && Settled(entries, todo) == map[];
      while todo != {}
        invariant Scanning(options, all, todo, entries, now, closed, pressure)
        invariant keyBytes == old(keyBytes) - KeyBytes(all.Keys - entries.Keys)
        invariant IsRetry(options, Settled(entries, todo), retry)
        decreases |todo|
      {
        var k :| k in todo;
        retry := PruneOne(k, now, pressure, retry, all, todo);
        todo := todo - {k};
      }
      assert Settled(entries, {}) == entries;
    }

    /** Settles one entry of a scan, returning the earliest time at which a kept inactive entry may be full. */
    method PruneOne(k: Key, now: int, pressure: bool, retry: int, ghost all: map<Key, Entry>, ghost todo: set<Key>)
        returns (next: int)
      requires ValidOptions(options) && k in todo && Scanning(options, all, todo, entries, now, closed, pressure)
      requires IsRetry(options, Settled(entries, todo), retry)
      modifies this`entries, this`keyBytes
      ensures Scanning(options, all, todo - {k}, entries, now, closed, pressure)
      ensures IsRetry(options, Settled(entries, todo - {k}), next)
      ensures keyBytes + KeyBytes(all.Keys - entries.Keys) == old(keyBytes) + KeyBytes(all.Keys - old(entries).Keys)
      ensures |entries| == |old(entries)| - (if k in entries then 0 else 1)
    {
      next := retry;
      var e := Refill(options, entries[k], now);
      if e.active == 0 && (closed || (e.tokens >= Burst(options) && (pressure || now - e.seen >= options.idleExpiry * TICKS_PER_MS))) {
        ScanDrops(options, all, todo, entries, now, closed, pressure, k);
        assert (entries - {k}).Keys == entries.Keys - {k};
        keyBytes := keyBytes - |k|;
        entries := entries - {k};
      } else {
        ScanKeeps(options, all, todo, entries, now, closed, pressure, k);
        RetryExtends(options, Settled(entries, todo), k, e, retry);
        entries := entries[k := e];
        if e.active == 0 && FullAt(options, e) < retry { next := FullAt(options, e); }
      }
    }

    method TryAcquire(key: Key, cost: nat, now: int) returns (answer: Answer)
      requires ValidOptions(options)
      modifies this
      ensures Step(View(), answer) == Acquire(options, old(View()), key, cost, now, false)
    {
      if key == "" || cost == 0 { return Refused(InvalidArgument); }
      if |key| > options.maxKeyBytes || cost > options.burstTokens { return Refused(TooLarge); }
      if closed { return Refused(Closed); }
      if active >= options.maxConcurrentTotal { return Limited(TotalConcurrency, 0); }
      if key !in entries {
        if (|entries| >= options.maxKeys || |key| > options.maxRetainedKeyBytes - keyBytes) && now >= pressureRetry {
          var _ := Prune(now, true);
        }
        if |entries| >= options.maxKeys || |key| > options.maxRetainedKeyBytes - keyBytes { return Limited(KeyCapacity, 0); }
        entries := entries[key := Entry(Burst(options), 0, now, now)];
        keyBytes := keyBytes + |key|;
      }
      answer := Charge(key, cost, now);
    }

    method Charge(key: Key, cost: nat, now: int) returns (answer: Answer)
      requires ValidOptions(options) && key in entries
      modifies this`entries, this`active
      ensures Step(View(), answer) == Decide(options, old(View()), key, cost, now)
    {
      var e := Refill(options, entries[key], now).(seen := now);
      entries := entries[key := e];
      if e.active >= options.maxConcurrentPerKey {
        answer := Limited(KeyConcurrency, 0);
      } else if e.tokens < cost as real {
        answer := Limited(Rate, RetryAfter(options, e.tokens, cost));
      } else {
        entries := entries[key := e.(tokens := e.tokens - cost as real, active := e.active + 1)];
        active := active + 1;
        answer := Granted;
      }
    }

    method ResetPermit(key: Key, now: int)
      requires ValidOptions(options) && key in entries && 0 < entries[key].active
      modifies this
      ensures View() == Release(options, old(View()), key, now)
    {
      entries := entries[key := entries[key].(active := entries[key].active - 1, seen := now)];
      active := active - 1;
      pressureRetry := NO_TIME;
      if closed { var _ := Prune(now, false); }
    }

    method PruneIdle(now: int) returns (removed: nat)
      requires ValidOptions(options)
      modifies this
      ensures View() == PruneTable(options, old(View()), now, false)
      ensures removed == |old(entries)| - |entries|
    {
      removed := Prune(now, false);
    }

    method Close(now: int)
      requires ValidOptions(options)
      modifies this
      ensures View() == PruneTable(options, old(View()).(closed := true), now, false)
    {
      closed := true;
      var _ := Prune(now, false);
    }
  }
}
