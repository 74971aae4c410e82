/**
What the limiter answers, in terms of what happened before: a bucket per key that is never forgotten,
the permits handed out, and the keys with an entry.  The answers are exactly those of that picture.
*/
module RequestAnswers {
  import opened Common
  import opened RequestLimiter
  import opened RequestBounds

  // ---- A bucket per key ------------------------------------------------------

  function Capped(o: Options, tokens: real): real { if tokens <= Burst(o) then tokens else Burst(o) }

  /**
    What `key` has left at `now`, after the first `i` events: it starts full, earns by the clock and pays for its
    grants.
   */
  ghost function Bucket(o: Options, ss: seq<Limiter>, evs: seq<Event>, key: Key, i: nat, now: int): real
    requires ValidOptions(o) && i <= |evs| < |ss|
  {
    if i == 0 then Burst(o)
    else
      var last := evs[i - 1].now;
      var paid := GrantedCost(evs[i - 1], AnswerOf(o, ss[i - 1], evs[i - 1], false), key);
      Capped(o, Bucket(o, ss, evs, key, i - 1, last) - paid as real + Earned(o, now - last))
  }

  /** Waiting adds what the time earns, up to the burst. */
  lemma AllowanceLater(o: Options, s: Limiter, before: int, now: int, key: Key)
    requires Good(o, s, before) && before <= now && !s.table.closed
    ensures Allowance(o, s.table, key, now) == Capped(o, Allowance(o, s.table, key, before) + Earned(o, now - before))
  {
    EarnedMonotone(o, 0, now - before);
    if key in s.table.entries {
      var e := s.table.entries[key];
      assert EntryOk(o, e, s.permits[key], before, s.table.pressureRetry);
      if e.refill < before {
        EarnedAdds(o, before - e.refill, now - before);
      }
    }
  }

  lemma AcquirePays(o: Options, s: Limiter, key: Key, cost: nat, before: int, now: int, other: Key)
    requires Good(o, s, before) && before <= now && !s.table.closed
    ensures var r := Acquire(o, s.table, key, cost, now, false);
      Allowance(o, r.table, other, now) ==
        Allowance(o, s.table, other, now) - GrantedCost(TryAcquire(key, cost, now), r.answer, other) as real
  {
    var t := s.table;
    if key == "" || cost == 0 || |key| > o.maxKeyBytes || cost > o.burstTokens || t.active >= o.maxConcurrentTotal {
    } else if key in t.entries {
      assert EntryOk(o, t.entries[key], s.permits[key], before, t.pressureRetry);
      DecideAllows(o, t, key, cost, now, other);
    } else {
      var t1 := Scanned(o, t, key, now, false);
      if t1 != t { PruneAllows(o, s, before, now, true, other); }
      if !Pressed(o, t1, key) { DecideAllows(o, Insert(o, t1, key, now), key, cost, now, other); }
    }
  }

  lemma StepPays(o: Options, s: Limiter, ev: Event, before: int, key: Key)
    requires Good(o, s, before) && before <= ev.now && Enabled(s, ev) && !Apply(o, s, ev, false).table.closed
    ensures !s.table.closed
    ensures Allowance(o, Apply(o, s, ev, false).table, key, ev.now) ==
      Allowance(o, s.table, key, ev.now) - GrantedCost(ev, AnswerOf(o, s, ev, false), key) as real
  {
    match ev
    case TryAcquire(k, cost, now) => if !s.table.closed { AcquirePays(o, s, k, cost, before, now, key); }
    case ReturnPermit(k, now) =>
      if key == k { assert EntryOk(o, s.table.entries[k], s.permits[k], before, s.table.pressureRetry); }
    case PruneExpired(now) => PruneAllows(o, s, before, now, false, key);
    case Close(now) =>
  }

  lemma BucketStep(o: Options, ss: seq<Limiter>, evs: seq<Event>, key: Key, i: nat, now: int)
    requires IsRun(o, ss, evs, false) && 0 < i < |ss| && LastTime(evs, i) <= now && !ss[i].table.closed
    requires !ss[i - 1].table.closed ==>
      Allowance(o, ss[i - 1].table, key, evs[i - 1].now) == Bucket(o, ss, evs, key, i - 1, evs[i - 1].now)
    ensures !ss[i - 1].table.closed && Allowance(o, ss[i].table, key, now) == Bucket(o, ss, evs, key, i, now)
  {
    hide Apply, Good, AnswerOf, Allowance, Earned, Enabled, Capped;
    RunGood(o, ss, evs, false, i - 1);
    RunGood(o, ss, evs, false, i);
    assert StepAt(o, ss, evs, false, i - 1);
    StepPays(o, ss[i - 1], evs[i - 1], LastTime(evs, i - 1), key);
    AllowanceLater(o, ss[i], evs[i - 1].now, now, key);
  }

  lemma StaysOpen(o: Options, ss: seq<Limiter>, evs: seq<Event>, i: nat)
    requires IsRun(o, ss, evs, false) && 0 < i < |ss| && !ss[i].table.closed
    ensures !ss[i - 1].table.closed && LastTime(evs, i - 1) <= evs[i - 1].now
  {
    hide Apply, Enabled;
    assert StepAt(o, ss, evs, false, i - 1);
    StepCloses(o, ss[i - 1], evs[i - 1]);
  }

  /**
  Evictions are invisible: while the limiter is open, what the table allows a key, with an entry or
  without, is what a bucket that was never forgotten holds.
  */
  lemma {:induction false} BucketIsExact(o: Options, ss: seq<Limiter>, evs: seq<Event>, key: Key, i: nat, now: int)
    requires IsRun(o, ss, evs, false) && i < |ss| && LastTime(evs, i) <= now && !ss[i].table.closed
    ensures Allowance(o, ss[i].table, key, now) == Bucket(o, ss, evs, key, i, now)
  {
    if i > 0 {
      hide Bucket, Allowance, StepAt;
      StaysOpen(o, ss, evs, i);
      BucketIsExact(o, ss, evs, key, i - 1, evs[i - 1].now);
      BucketStep(o, ss, evs, key, i, now);
    }
  }

  // ---- When the limiter is closed --------------------------------------------

  ghost predicate ClosedBefore(evs: seq<Event>, i: nat)
    requires i <= |evs|
  {
    exists j :: 0 <= j < i && evs[j].Close?
  }

  lemma StepCloses(o: Options, s: Limiter, ev: Event)
    requires ValidOptions(o) && Enabled(s, ev)
    ensures Apply(o, s, ev, false).table.closed <==> s.table.closed || ev.Close?
  {
  }

  lemma ClosedIff(o: Options, ss: seq<Limiter>, evs: seq<Event>, i: nat)
    requires IsRun(o, ss, evs, false) && i < |ss|
    ensures ss[i].table.closed <==> ClosedBefore(evs, i)
  {
    hide Apply, Enabled;
    for j := 0 to i
      invariant ss[j].table.closed <==> ClosedBefore(evs, j)
    {
      assert StepAt(o, ss, evs, false, j);
      StepCloses(o, ss[j], evs[j]);
    }
  }

  // ---- Which keys make room --------------------------------------------------

  /** The keys a pressed table must keep: those with a permit out, and those whose bucket is not full. */
  ghost function Survivors(o: Options, ss: seq<Limiter>, evs: seq<Event>, i: nat, now: int): set<Key>
    requires ValidOptions(o) && i <= |evs| < |ss|
  {
    set k | k in ss[i].table.entries && (ss[i].permits[k] > 0 || Bucket(o, ss, evs, k, i, now) < Burst(o))
  }

  predicate Fits(o: Options, count: nat, bytes: nat, key: Key) {
    count < o.maxKeys && bytes + |key| <= o.maxRetainedKeyBytes
  }

  /** The key has an entry, or there is room for one once every idle full entry is gone. */
  ghost predicate HasRoom(o: Options, ss: seq<Limiter>, evs: seq<Event>, i: nat, key: Key, now: int)
    requires ValidOptions(o) && i <= |evs| < |ss|
  {
    var kept := Survivors(o, ss, evs, i, now);
    key in ss[i].table.entries || Fits(o, |kept|, KeyBytes(kept), key)
  }

  lemma KeptAreSurvivors(o: Options, ss: seq<Limiter>, evs: seq<Event>, i: nat, now: int)
    requires IsRun(o, ss, evs, false) && i < |ss| && LastTime(evs, i) <= now && !ss[i].table.closed
    ensures Kept(o, ss[i].table, now, true).Keys == Survivors(o, ss, evs, i, now)
  {
    var t := ss[i].table;
    RunGood(o, ss, evs, false, i);
    forall k | k in t.entries
      ensures Evicts(o, t.entries[k], now, t.closed, true) <==>
        !(ss[i].permits[k] > 0 || Bucket(o, ss, evs, k, i, now) < Burst(o))
    {
      assert EntryOk(o, t.entries[k], ss[i].permits[k], LastTime(evs, i), t.pressureRetry);
      BucketIsExact(o, ss, evs, k, i, now);
    }
  }

  /** Whether or not the scan is skipped, a pressed table is left with the survivors. */
  lemma ScannedKeys(o: Options, ss: seq<Limiter>, evs: seq<Event>, i: nat, key: Key, now: int)
    requires IsRun(o, ss, evs, false) && i < |ss| && LastTime(evs, i) <= now && !ss[i].table.closed
    ensures var t, t1, kept := ss[i].table, Scanned(o, ss[i].table, key, now, false), Survivors(o, ss, evs, i, now);
      && t1.entries.Keys == (if Pressed(o, t, key) then kept else t.entries.Keys)
      && t1.keyBytes == KeyBytes(t1.entries.Keys) && t1.closed == t.closed && t1.active == t.active
      && kept <= t.entries.Keys
  {
    var s := ss[i];
    RunGood(o, ss, evs, false, i);
    KeptAreSurvivors(o, ss, evs, i, now);
    ScannedGood(o, s, key, LastTime(evs, i), now, false);
    if Pressed(o, s.table, key) && now < s.table.pressureRetry { SkipFindsNothing(o, s, LastTime(evs, i), now); }
  }

  lemma RoomIff(o: Options, ss: seq<Limiter>, evs: seq<Event>, i: nat, key: Key, now: int)
    requires IsRun(o, ss, evs, false) && i < |ss| && LastTime(evs, i) <= now && !ss[i].table.closed
    requires key !in ss[i].table.entries
    ensures Pressed(o, Scanned(o, ss[i].table, key, now, false), key) <==> !HasRoom(o, ss, evs, i, key, now)
  {
    var t, t1, kept := ss[i].table, Scanned(o, ss[i].table, key, now, false), Survivors(o, ss, evs, i, now);
    RunGood(o, ss, evs, false, i);
    ScannedKeys(o, ss, evs, i, key, now);
    assert |t1.entries| == |t1.entries.Keys| && |t.entries| == |t.entries.Keys|;
    hide Survivors, Kept, Scanned;
    Subset(kept, t.entries.Keys);
    KeyBytesSplit(t.entries.Keys, kept);
  }

  // ---- Answers ---------------------------------------------------------------

  /** The shortest wait, in whole milliseconds and at least one, after which the bucket covers `cost`. */
  ghost predicate TightWait(o: Options, ss: seq<Limiter>, evs: seq<Event>, i: nat, key: Key, cost: nat, now: int,
      ms: int)
    requires ValidOptions(o) && i <= |evs| < |ss|
  {
    && 1 <= ms && Bucket(o, ss, evs, key, i, now + ms * TICKS_PER_MS) >= cost as real
    && (ms > 1 ==> Bucket(o, ss, evs, key, i, now + (ms - 1) * TICKS_PER_MS) < cost as real)
  }

  /** What a request that passes the argument checks, to an open limiter, is told. */
  ghost predicate Fitting(o: Options, ss: seq<Limiter>, evs: seq<Event>, i: nat, key: Key, cost: nat, now: int,
      answer: Answer)
    requires ValidOptions(o) && i <= |evs| < |ss|
  {
    var permits := ss[i].permits;
    if |permits| >= o.maxConcurrentTotal then answer == Limited(TotalConcurrency, 0)
    else if !HasRoom(o, ss, evs, i, key, now) then answer == Limited(KeyCapacity, 0)
    else if permits[key] >= o.maxConcurrentPerKey then answer == Limited(KeyConcurrency, 0)
    else if Bucket(o, ss, evs, key, i, now) < cost as real then
      answer.Limited? && answer.reason == Rate && TightWait(o, ss, evs, i, key, cost, now, answer.retryAfterMs)
    else answer == Granted
  }

  lemma WaitIsTight(o: Options, ss: seq<Limiter>, evs: seq<Event>, i: nat, key: Key, cost: nat, now: int)
    requires IsRun(o, ss, evs, false) && i < |ss| && LastTime(evs, i) <= now && !ss[i].table.closed
    requires key in ss[i].table.entries && cost <= o.burstTokens && Bucket(o, ss, evs, key, i, now) < cost as real
    ensures TightWait(o, ss, evs, i, key, cost, now, RetryAfter(o, Refill(o, ss[i].table.entries[key], now).tokens, cost))
  {
    var e := ss[i].table.entries[key];
    RunGood(o, ss, evs, false, i);
    assert EntryOk(o, e, ss[i].permits[key], LastTime(evs, i), ss[i].table.pressureRetry);
    var e1 := Refill(o, e, now);
    var d := RetryAfter(o, e1.tokens, cost);
    BucketIsExact(o, ss, evs, key, i, now);
    assert e1.refill == now;
    RetryAfterIsTight(o, e1, cost);
    RefillKeepsLevel(o, e, now, now + d * TICKS_PER_MS);
    BucketIsExact(o, ss, evs, key, i, now + d * TICKS_PER_MS);
    if d > 1 {
      RefillKeepsLevel(o, e, now, now + (d - 1) * TICKS_PER_MS);
      BucketIsExact(o, ss, evs, key, i, now + (d - 1) * TICKS_PER_MS);
    }
  }

  lemma KnownKeyFits(o: Options, ss: seq<Limiter>, evs: seq<Event>, i: nat, key: Key, cost: nat, now: int)
    requires IsRun(o, ss, evs, false) && i < |ss| && LastTime(evs, i) <= now && !ss[i].table.closed
    requires key in ss[i].table.entries && cost <= o.burstTokens && |ss[i].permits| < o.maxConcurrentTotal
    ensures Fitting(o, ss, evs, i, key, cost, now, Decide(o, ss[i].table, key, cost, now).answer)
  {
    RunGood(o, ss, evs, false, i);
    assert EntryOk(o, ss[i].table.entries[key], ss[i].permits[key], LastTime(evs, i), ss[i].table.pressureRetry);
    BucketIsExact(o, ss, evs, key, i, now);
    hide Bucket, TightWait, Survivors, RetryAfter;
    if Bucket(o, ss, evs, key, i, now) < cost as real { WaitIsTight(o, ss, evs, i, key, cost, now); }
  }

  lemma NewKeyFits(o: Options, ss: seq<Limiter>, evs: seq<Event>, i: nat, key: Key, cost: nat, now: int)
    requires IsRun(o, ss, evs, false) && i < |ss| && LastTime(evs, i) <= now && !ss[i].table.closed
    requires key !in ss[i].table.entries && cost <= o.burstTokens && |ss[i].permits| < o.maxConcurrentTotal
    ensures var t1 := Scanned(o, ss[i].table, key, now, false);
      Fitting(o, ss, evs, i, key, cost, now,
              if Pressed(o, t1, key) then Limited(KeyCapacity, 0) else Decide(o, Insert(o, t1, key, now), key, cost, now).answer)
  {
    RunGood(o, ss, evs, false, i);
    BucketIsExact(o, ss, evs, key, i, now);
    RoomIff(o, ss, evs, i, key, now);
    hide Bucket, TightWait, Survivors, HasRoom, Pressed, Scanned, RetryAfter;
    assert ss[i].permits[key] == 0;
  }

  /**
  The limiter's answers, exactly.  In every reachable state a request is granted if and only if it is well
  formed, the limiter was not closed, the permits out are below the total limit and below the key's limit,
  there is room for the key, and its bucket holds the cost.  Each refusal names the first of these that fails,
  and the advised wait of a rate refusal is the shortest that suffices.
  */
  lemma AnswersExactly(o: Options, ss: seq<Limiter>, evs: seq<Event>, i: nat, key: Key, cost: nat, now: int)
    requires IsRun(o, ss, evs, false) && i < |ss| && LastTime(evs, i) <= now
    ensures var answer := AnswerOf(o, ss[i], TryAcquire(key, cost, now), false);
      if key == "" || cost == 0 then answer == Refused(InvalidArgument)
      else if |key| > o.maxKeyBytes || cost > o.burstTokens then answer == Refused(TooLarge)
      else if ClosedBefore(evs, i) then answer == Refused(Closed)
      else Fitting(o, ss, evs, i, key, cost, now, answer)
  {
    ClosedIff(o, ss, evs, i);
    RunGood(o, ss, evs, false, i);
    if key != "" && 0 < cost <= o.burstTokens && |key| <= o.maxKeyBytes && !ss[i].table.closed
       && |ss[i].permits| < o.maxConcurrentTotal {
      if key in ss[i].table.entries {
        KnownKeyFits(o, ss, evs, i, key, cost, now);
      } else {
        NewKeyFits(o, ss, evs, i, key, cost, now);
      }
    }
    hide HasRoom, TightWait, Bucket, Survivors, Decide, PruneTable;
  }

  // ---- Which keys have an entry ----------------------------------------------

  /** The request got as far as the key's entry. */
  predicate Reaches(answer: Answer) {
    answer == Granted || (answer.Limited? && (answer.reason == KeyConcurrency || answer.reason == Rate))
  }

  /** The event uses the key: a request that reached its entry, or a returned permit. */
  ghost predicate Uses(o: Options, s: Limiter, ev: Event, key: Key)
    requires ValidOptions(o)
  {
    (ev.TryAcquire? || ev.ReturnPermit?) && ev.key == key && (ev.ReturnPermit? || Reaches(AnswerOf(o, s, ev, false)))
  }

  lemma DecideReaches(o: Options, t: Table, key: Key, cost: nat, now: int)
    requires ValidOptions(o) && key in t.entries
    ensures var r := Decide(o, t, key, cost, now);
      && Reaches(r.answer) && r.table.entries.Keys == t.entries.Keys && r.table.entries[key].seen == now
      && forall k :: k in t.entries && k != key ==> r.table.entries[k] == t.entries[k]
  {
  }

  /** The request passes every check that does not look at keys. */
  predicate Passes(o: Options, t: Table, key: Key, cost: nat) {
    key != "" && 0 < cost <= o.burstTokens && |key| <= o.maxKeyBytes && !t.closed && t.active < o.maxConcurrentTotal
  }

  lemma AcquireIs(o: Options, t: Table, key: Key, cost: nat, now: int)
    requires ValidOptions(o)
    ensures var r, t1 := Acquire(o, t, key, cost, now, false), Scanned(o, t, key, now, false);
      if !Passes(o, t, key, cost) then r.table == t && !Reaches(r.answer) && r.answer != Limited(KeyCapacity, 0)
      else if key in t.entries then r == Decide(o, t, key, cost, now)
      else if Pressed(o, t1, key) then r == Step(t1, Limited(KeyCapacity, 0))
      else r == Decide(o, Insert(o, t1, key, now), key, cost, now)
  {
  }

  /** A scan adds nothing and dates nothing. */
  lemma ScannedSees(o: Options, t: Table, key: Key, now: int, k: Key)
    requires ValidOptions(o)
    ensures var t1 := Scanned(o, t, key, now, false);
      k in t1.entries ==> k in t.entries && t1.entries[k].seen == t.entries[k].seen
  {
  }

  lemma AcquireSees(o: Options, s: Limiter, ev: Event, before: int, key: Key)
    requires Good(o, s, before) && before <= ev.now && ev.TryAcquire?
    ensures var s2 := Apply(o, s, ev, false);
      key in s2.table.entries ==>
        if Uses(o, s, ev, key) then s2.table.entries[key].seen == ev.now
        else key in s.table.entries && s2.table.entries[key].seen == s.table.entries[key].seen
  {
    hide Acquire, Decide, Scanned, Pressed, Passes, Reaches;
    var t, now := s.table, ev.now;
    var t1 := Scanned(o, t, ev.key, now, false);
    AcquireIs(o, t, ev.key, ev.cost, now);
    ScannedSees(o, t, ev.key, now, key);
    if ev.key in t.entries {
      DecideReaches(o, t, ev.key, ev.cost, now);
    } else {
      NotReached();
      DecideReaches(o, Insert(o, t1, ev.key, now), ev.key, ev.cost, now);
    }
  }

  lemma NotReached()
    ensures !Reaches(Limited(KeyCapacity, 0))
  {
  }

  lemma StepSees(o: Options, s: Limiter, ev: Event, before: int, key: Key)
    requires Good(o, s, before) && before <= ev.now && Enabled(s, ev)
    ensures var s2 := Apply(o, s, ev, false);
      key in s2.table.entries ==>
        if Uses(o, s, ev, key) then s2.table.entries[key].seen == ev.now
        else key in s.table.entries && s2.table.entries[key].seen == s.table.entries[key].seen
  {
    if ev.TryAcquire? { AcquireSees(o, s, ev, before, key); }
  }

  /** Event `j` is the last of the first `i` that used the key. */
  ghost predicate LastUse(o: Options, ss: seq<Limiter>, evs: seq<Event>, i: nat, key: Key, j: nat)
    requires ValidOptions(o) && i <= |evs| < |ss|
  {
    j < i && Uses(o, ss[j], evs[j], key) && forall m :: j < m < i ==> !Uses(o, ss[m], evs[m], key)
  }

  /** An entry is dated by the last event that used its key. */
  lemma SeenIsLastUse(o: Options, ss: seq<Limiter>, evs: seq<Event>, i: nat, key: Key) returns (j: nat)
    requires IsRun(o, ss, evs, false) && i < |ss| && key in ss[i].table.entries
    ensures LastUse(o, ss, evs, i, key, j) && ss[i].table.entries[key].seen == evs[j].now
  {
    hide Apply, Enabled, Good, Uses;
    j := i - 1;
    RunGood(o, ss, evs, false, j);
    assert StepAt(o, ss, evs, false, j);
    StepSees(o, ss[j], evs[j], LastTime(evs, j), key);
    while !Uses(o, ss[j], evs[j], key)
      invariant 0 <= j < i && key in ss[j + 1].table.entries
      invariant ss[j + 1].table.entries[key].seen == ss[i].table.entries[key].seen
      invariant forall m :: j < m < i ==> !Uses(o, ss[m], evs[m], key)
      invariant !Uses(o, ss[j], evs[j], key) ==>
        key in ss[j].table.entries && ss[j].table.entries[key].seen == ss[i].table.entries[key].seen
      invariant Uses(o, ss[j], evs[j], key) ==> ss[i].table.entries[key].seen == evs[j].now
      decreases j
    {
      j := j - 1;
      RunGood(o, ss, evs, false, j);
      assert StepAt(o, ss, evs, false, j);
      StepSees(o, ss[j], evs[j], LastTime(evs, j), key);
    }
  }

  /** Whom a clean-up spares: keys with a permit out, and while the limiter is open those not full or used lately. */
  ghost predicate Spared(o: Options, ss: seq<Limiter>, evs: seq<Event>, i: nat, k: Key)
    requires ValidOptions(o) && i < |evs| < |ss| && k in ss[i].table.entries
  {
    || ss[i].permits[k] > 0
    || (!ClosedBefore(evs, i + 1)
        && (Bucket(o, ss, evs, k, i, evs[i].now) < Burst(o)
            || evs[i].now - ss[i].table.entries[k].seen < o.idleExpiry * TICKS_PER_MS))
  }

  /** A clean-up, by request or by closing, removes exactly the entries it need not spare. */
  lemma CleanUpIsExact(o: Options, ss: seq<Limiter>, evs: seq<Event>, i: nat)
    requires IsRun(o, ss, evs, false) && i < |evs| && (evs[i].PruneExpired? || evs[i].Close?)
    ensures ss[i + 1].table.entries.Keys == set k | k in ss[i].table.entries && Spared(o, ss, evs, i, k)
  {
    var t, now := ss[i].table, evs[i].now;
    assert StepAt(o, ss, evs, false, i);
    RunGood(o, ss, evs, false, i);
    ClosedIff(o, ss, evs, i);
    ClosedIff(o, ss, evs, i + 1);
    var closed := t.closed || evs[i].Close?;
    forall k | k in t.entries ensures Evicts(o, t.entries[k], now, closed, false) <==> !Spared(o, ss, evs, i, k) {
      assert EntryOk(o, t.entries[k], ss[i].permits[k], LastTime(evs, i), t.pressureRetry);
      if !t.closed { BucketIsExact(o, ss, evs, k, i, now); }
    }
  }

  /** A request removes entries only to make room, and then exactly the idle full ones; it adds the key it reaches. */
  lemma RequestKeysExact(o: Options, ss: seq<Limiter>, evs: seq<Event>, i: nat)
    requires IsRun(o, ss, evs, false) && i < |evs| && evs[i].TryAcquire?
    ensures var t, key, answer := ss[i].table, evs[i].key, AnswerOf(o, ss[i], evs[i], false);
      var looks := Reaches(answer) || answer == Limited(KeyCapacity, 0);
      var kept := if looks && key !in t.entries && !Fits(o, |t.entries|, KeyBytes(t.entries.Keys), key)
                  then Survivors(o, ss, evs, i, evs[i].now) else t.entries.Keys;
      ss[i + 1].table.entries.Keys == if Reaches(answer) then kept + {key} else kept
  {
    hide Acquire, Decide, Scanned, Good, Passes, Reaches, Survivors, KeyBytes, LastTime;
    var t, key, cost, now := ss[i].table, evs[i].key, evs[i].cost, evs[i].now;
    assert StepAt(o, ss, evs, false, i);
    RunGood(o, ss, evs, false, i);
    AcquireIs(o, t, key, cost, now);
    PressedIs(o, ss[i], LastTime(evs, i), key);
    NotReached();
    if Passes(o, t, key, cost) {
      OpenIfPasses(o, t, key, cost);
      ScannedKeys(o, ss, evs, i, key, now);
      if key in t.entries {
        DecideReaches(o, t, key, cost, now);
      } else {
        DecideReaches(o, Insert(o, Scanned(o, t, key, now, false), key, now), key, cost, now);
      }
    }
    hide Fits, Pressed;
  }

  lemma OpenIfPasses(o: Options, t: Table, key: Key, cost: nat)
    requires Passes(o, t, key, cost)
    ensures !t.closed
  {
  }

  lemma PressedIs(o: Options, s: Limiter, now: int, key: Key)
    requires Good(o, s, now)
    ensures Pressed(o, s.table, key) <==> !Fits(o, |s.table.entries|, KeyBytes(s.table.entries.Keys), key)
  {
  }

  /** A returned permit removes no entry of an open limiter, and of a closed one all without permits. */
  lemma ReturnKeysExact(o: Options, ss: seq<Limiter>, evs: seq<Event>, i: nat)
    requires IsRun(o, ss, evs, false) && i < |evs| && evs[i].ReturnPermit?
    ensures ss[i + 1].table.entries.Keys ==
      set k | k in ss[i].table.entries && (ClosedBefore(evs, i) ==> ss[i + 1].permits[k] > 0)
  {
    assert StepAt(o, ss, evs, false, i);
    ClosedIff(o, ss, evs, i);
    RunGood(o, ss, evs, false, i);
    forall k | k in ss[i].table.entries ensures ss[i].table.entries[k].active == ss[i].permits[k] {
      assert EntryOk(o, ss[i].table.entries[k], ss[i].permits[k], LastTime(evs, i), ss[i].table.pressureRetry);
    }
  }
}
