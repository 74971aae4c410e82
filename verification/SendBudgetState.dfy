/**
  The shared send budget's own loops: compare-exchange accounting, and the dispatcher's pass over the registered waits.
 */
module SendBudgetState {
  import opened Common
  import opened SendBudget

  /** What an evaluation makes of one connection's wait. */
  function Evaluated(limit: nat, connectionLimit: nat, used: nat, c: Cap): Cap {
    if c.closed || (c.retained <= connectionLimit && c.required <= connectionLimit - c.retained && used <= limit && c.required <= limit - used)
    then c.(ticket := None) else c
  }

  function Visited(limit: nat, connectionLimit: nat, used: nat, c: Cap): Cap {
    if c.registration == 0 then c else Evaluated(limit, connectionLimit, used, c)
  }

  lemma VisitedTwice(limit: nat, connectionLimit: nat, used: nat, c: Cap)
    ensures var v := Visited(limit, connectionLimit, used, c);
      Visited(limit, connectionLimit, used, v) == v && v.registration == c.registration
  {
  }

  /** Registrations are given out upwards from one and are not shared; zero is none. */
  predicate Registered(caps: seq<Cap>, nextId: nat) {
    && 0 < nextId && (forall k :: 0 <= k < |caps| ==> caps[k].registration < nextId)
    && forall j, k :: 0 <= j < k < |caps| && caps[j].registration != 0 ==> caps[j].registration != caps[k].registration
  }

  class SendBudgetState {
    const limit: nat
    const connectionLimit: nat
    var used: nat
    var caps: seq<Cap>
    var nextId: nat
    var changed: bool
    var notifying: bool

    constructor (limitBytes: nat, connectionLimitBytes: nat)
      ensures limit == limitBytes && connectionLimit == connectionLimitBytes
      ensures used == 0 && caps == [] && nextId == 1 && !changed && !notifying
    {
      limit, connectionLimit, used, caps, nextId, changed, notifying := limitBytes, connectionLimitBytes, 0, [], 1, false, false;
    }

    /**
      `others` is what the counter holds after each exchange that fails, whether another thread changed it or not.
      All of the amount is reserved on top of the last such value, or nothing is.
     */
    method TryReserve(amount: nat, others: seq<nat>) returns (ok: bool)
      modifies this`used
      ensures amount == 0 ==> ok && used == old(used)
      ensures amount > 0 ==>
        exists v :: v in [old(used)] + others && ok == (v + amount <= limit) && used == if ok then v + amount else v
      ensures ok && amount > 0 ==> used <= limit
    {
      if amount == 0 { return true; }
      var current, i := used, 0;
      while true
        invariant i <= |others| && current == used && used in [old(used)] + others
        decreases |others| - i
      {
        if current > limit || amount > limit - current { return false; }
        if i == |others| {
          used := current + amount;
          return true;
        }
        used := others[i];
        assert ([old(used)] + others)[i + 1] == others[i];
        current, i := used, i + 1;
      }
    }

    /** The counter never holds less than what is released, so nothing wraps; the flag is set when bytes came back. */
    method Release(amount: nat, others: seq<nat>)
      requires amount <= used && forall i :: 0 <= i < |others| ==> amount <= others[i]
      modifies this`used, this`changed
      ensures amount == 0 ==> used == old(used) && changed == old(changed)
      ensures amount > 0 ==> changed && used + amount == if others == [] then old(used) else others[|others| - 1]
    {
      if amount == 0 { return; }
      var current, i := used, 0;
      while i < |others|
        invariant i <= |others| && current == used && used == if i == 0 then old(used) else others[i - 1]
      {
        used := others[i];
        current, i := used, i + 1;
      }
      used := current - amount;
      changed := true;
    }

    /** Completes the wait of connection `k` if it is closed or both budgets have room. */
    method Evaluate(k: nat) returns (code: Option<ErrorCode>)
      requires k < |caps|
      modifies this`caps
      ensures caps == old(caps)[k := Evaluated(limit, connectionLimit, used, old(caps)[k])]
      ensures code == if old(caps)[k].ticket.None? || caps[k].ticket.Some? then None
        else if caps[k].closed then Some(Closed) else Some(Ok)
    {
      var c := caps[k];
      code := None;
      if c.ticket.None? { return; }
      if c.closed {
        caps := caps[k := c.(ticket := None)];
        return Some(Closed);
      }
      var shared, local := used, c.retained;
      if local <= connectionLimit && c.required <= connectionLimit - local && shared <= limit && c.required <= limit - shared {
        caps := caps[k := c.(ticket := None)];
        code := Some(Ok);
      }
    }

    method Wait(k: nat, bytes: nat) returns (code: ErrorCode)
      requires k < |caps| && Registered(caps, nextId)
      modifies this`caps, this`nextId
      ensures Registered(caps, nextId) && |caps| == |old(caps)|
      ensures bytes == 0 ==> code == InvalidArgument
      ensures bytes > 0 && (bytes > connectionLimit || bytes > limit) ==> code == TooLarge
      ensures 0 < bytes <= connectionLimit && bytes <= limit ==>
        code == if old(caps)[k].closed then Closed else if old(caps)[k].ticket.Some? then AlreadyExists else Ok
      ensures code != Ok ==> caps == old(caps) && nextId == old(nextId)
      ensures code == Ok ==> caps[k].registration != 0 && caps[k].required == bytes
      ensures code == Ok ==>
        (caps[k].ticket.None? <==> caps[k].retained + bytes <= connectionLimit && used + bytes <= limit)
    {
      if bytes == 0 { return InvalidArgument; }
      if bytes > connectionLimit || bytes > limit { return TooLarge; }
      var c := caps[k];
      if c.closed { return Closed; }
      if c.ticket.Some? { return AlreadyExists; }
      var id := c.registration;
      if id == 0 {
        id := nextId;
        nextId := nextId + 1;
      }
      caps := caps[k := c.(registration := id, ticket := Some(id), required := bytes)];
      var _ := Evaluate(k);
      code := Ok;
    }

    /** The waiter with the lowest registration above `last` and up to `upper`, or the number of connections. */
    method FindNext(last: nat, upper: nat) returns (k: nat)
      ensures k <= |caps|
      ensures k < |caps| ==> last < caps[k].registration <= upper
      ensures forall j :: 0 <= j < |caps| && last < caps[j].registration <= upper ==>
        k < |caps| && caps[k].registration <= caps[j].registration
    {
      k := |caps|;
      for j := 0 to |caps|
        invariant k < j || k == |caps|
        invariant k < |caps| ==> last < caps[k].registration <= upper
        invariant forall i :: 0 <= i < j && last < caps[i].registration <= upper ==>
          k < |caps| && caps[k].registration <= caps[i].registration
      {
        if last < caps[j].registration <= upper && (k == |caps| || caps[j].registration < caps[k].registration) { k := j; }
      }
    }

    /** One pass evaluates exactly the waits registered when it began. */
    method Visit()
      requires Registered(caps, nextId)
      modifies this`caps
      ensures |caps| == |old(caps)|
      ensures forall k :: 0 <= k < |caps| ==> caps[k] == Visited(limit, connectionLimit, used, old(caps)[k])
    {
      ghost var before := caps;
      var last, upper := 0, nextId - 1;
      var k: nat := FindNext(last, upper);
      while k < |caps|
        invariant |caps| == |before| && k <= |caps| && last <= upper
        invariant forall j :: 0 <= j < |caps| ==> caps[j].registration == before[j].registration
        invariant forall j :: 0 <= j < |caps| ==>
          caps[j] == if before[j].registration == 0 || before[j].registration > last then before[j]
              else Evaluated(limit, connectionLimit, used, before[j])
        invariant k < |caps| ==> last < caps[k].registration <= upper
        invariant forall j :: 0 <= j < |caps| && last < caps[j].registration <= upper ==>
          k < |caps| && caps[k].registration <= caps[j].registration
        decreases upper - last
      {
        last := caps[k].registration;
        var _ := Evaluate(k);
        k := FindNext(last, upper);
      }
    }

    /**
      `marks` says whether the flag is found set again, at the end of a pass or after the handover. Whoever gets the dispatcher's flag leaves with both
      flags clear and with no registered wait that is closed or fits.
     */
    method Notify(marks: seq<bool>)
      requires Registered(caps, nextId)
      modifies this`caps, this`changed, this`notifying
      ensures |caps| == |old(caps)|
      ensures !old(changed) || old(notifying) ==>
        caps == old(caps) && changed == old(changed) && notifying == old(notifying)
      ensures old(changed) && !old(notifying) ==> !changed && !notifying
      ensures old(changed) && !old(notifying) ==> forall k :: 0 <= k < |caps| ==>
        caps[k] == Visited(limit, connectionLimit, used, old(caps)[k])
    {
      if !changed || notifying { return; }
      hide Visited, Evaluated;
      notifying := true;
      ghost var before := caps;
      var left := marks;
      while true
        invariant notifying && |caps| == |before| && Registered(caps, nextId)
        invariant caps == before || forall k :: 0 <= k < |caps| ==>
          caps[k] == Visited(limit, connectionLimit, used, before[k])
        decreases |left|
      {
        changed := false;
        Visit();
        forall k | 0 <= k < |caps|
          ensures caps[k] == Visited(limit, connectionLimit, used, before[k])
          ensures caps[k].registration == before[k].registration
        {
          VisitedTwice(limit, connectionLimit, used, before[k]);
        }
        if left != [] { changed, left := left[0], left[1..]; }
        if !changed {
          notifying := false;
          if left != [] { changed, left := left[0], left[1..]; }
          if !changed { return; }
          notifying := true;
        }
      }
    }
  }
}
