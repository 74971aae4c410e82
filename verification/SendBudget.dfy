/**
  The shared send budget: compare-exchange accounting by many connections, capacity waits, and the lock-free dispatcher
  that completes them. Every atomic access and every short critical section is one step.
 */
module SendBudget {
  import opened Common

  /**
    The capacity state of one connection. `holder` is the thread inside the connection's mutex with an operation on its
    queue; `held` is history: the bytes this connection has reserved in the shared counter.
   */
  datatype Cap = Cap(retained: int, closed: bool, ticket: Option<nat>, required: nat, registration: nat,
      holder: Option<nat>, held: int)

  /** Where an evaluation goes when it is done: back to its caller, or on with the dispatcher's pass. */
  datatype Cont = Return | Pass(last: nat, upper: int)

  datatype Pc =
    | Scope                                                   // about to leave the notification scope, or to start another operation in it
    | ReserveLoad(k: nat, n: nat)
    | ReserveTry(k: nat, n: nat, current: int)
    | ReserveStore(k: nat, n: nat)
    | ReleaseLoad(k: nat, n: nat)
    | ReleaseTry(k: nat, n: nat, current: int)
    | Mark                                                    // about to store changed
    | Acquire                                                 // has seen changed, about to test-and-set
    | Clear                                                   // dispatcher: about to reset changed
    | Bound                                                   // dispatcher: about to read the highest registration
    | Next(last: nat, upper: int)                             // dispatcher: about to look for the next waiter
    | Recheck                                                 // dispatcher: about to load changed after the pass
    | Hand                                                    // dispatcher: about to clear the flag
    | Reload                                                  // gave up the flag, about to load changed once more
    | Reacquire                                               // about to test-and-set again
    | Read(k: nat, cont: Cont)                                // evaluation: about to read the pending wait
    | LoadClosed(k: nat, ticket: nat, n: nat, cont: Cont)
    | LoadUsed(k: nat, ticket: nat, n: nat, cont: Cont)
    | LoadRetained(k: nat, ticket: nat, n: nat, shared: int, cont: Cont)

  /** `owner` is history: the thread that holds the dispatcher flag. */
  datatype World = World(
    limit: nat, connectionLimit: nat, used: int, caps: seq<Cap>, changed: bool, notifying: bool, nextId: nat, nextTicket: nat,
    threads: map<nat, Pc>, owner: Option<nat>)

  function Goto(w: World, t: nat, pc: Pc): World { w.(threads := w.threads[t := pc]) }
  function Leave(w: World, t: nat): World { w.(threads := w.threads - {t}) }
  function SetCap(w: World, k: nat, c: Cap): World
    requires k < |w.caps|
  {
    w.(caps := w.caps[k := c])
  }

  predicate FitsLocal(w: World, c: Cap, n: nat) {
    c.retained <= w.connectionLimit && n <= w.connectionLimit - c.retained
  }
  predicate FitsShared(w: World, shared: int, n: nat) { shared <= w.limit && n <= w.limit - shared }

  datatype Action =
    | AEnter(t: nat)                       // a call that opens a notification scope
    | AReserve(t: nat, k: nat, n: nat)     // Enqueue of n bytes, connection limit checked under the mutex
    | ARelease(t: nat, k: nat, n: nat)     // Consume or Clear gives n bytes back
    | AClose(t: nat, k: nat)
    | AWait(t: nat, k: nat, n: nat)
    | ACancel(k: nat)
    | AForget(k: nat)                      // the connection's capacity state is destroyed; a new connection may take its place
    | AExit(t: nat)                        // the scope ends: Notify loads changed
    | AStep(t: nat, spurious: bool)        // the thread's next atomic access; a compare-exchange may fail spuriously

  predicate AtScope(w: World, t: nat) { t in w.threads && w.threads[t].Scope? }

  predicate Enabled(w: World, a: Action) {
    match a
    case AEnter(t) => t !in w.threads
    case AReserve(t, k, n) => AtScope(w, t) && k < |w.caps| && w.caps[k].holder.None? && 0 < n && FitsLocal(w, w.caps[k], n)
    case ARelease(t, k, n) => AtScope(w, t) && k < |w.caps| && w.caps[k].holder.None? && 0 < n <= w.caps[k].retained
    case AClose(t, k) => AtScope(w, t) && k < |w.caps|
    case AWait(t, k, n) => t !in w.threads && k < |w.caps| && 0 < n <= w.connectionLimit && n <= w.limit
    case ACancel(k) => k < |w.caps|
    case AForget(k) => k < |w.caps| && w.caps[k].holder.None? && w.caps[k].retained == 0
    case AExit(t) => AtScope(w, t)
    case AStep(t, _) => t in w.threads && !w.threads[t].Scope? && Placed(w, w.threads[t])
  }

  /** The connection a thread works on exists. */
  predicate Placed(w: World, pc: Pc) {
    match pc
    case ReserveStore(k, _) => k < |w.caps|
    case ReserveTry(k, _, _) => k < |w.caps|
    case ReleaseTry(k, _, _) => k < |w.caps|
    case Read(k, _) => k < |w.caps|
    case LoadClosed(k, _, _, _) => k < |w.caps|
    case LoadUsed(k, _, _, _) => k < |w.caps|
    case LoadRetained(k, _, _, _, _) => k < |w.caps|
    case _ => true
  }

  // Operations on the queues.

  function ReserveBegin(w: World, t: nat, k: nat, n: nat): World
    requires k < |w.caps|
  {
    Goto(SetCap(w, k, w.caps[k].(holder := Some(t))), t, ReserveLoad(k, n))
  }

  function ReserveTryStep(w: World, t: nat, k: nat, n: nat, current: int, spurious: bool): World
    requires k < |w.caps|
  {
    if current > w.limit || n > w.limit - current then Goto(SetCap(w, k, w.caps[k].(holder := None)), t, Scope)
    else if spurious || w.used != current then Goto(w, t, ReserveTry(k, n, w.used))
    else Goto(SetCap(w.(used := current + n), k, w.caps[k].(held := w.caps[k].held + n)), t, ReserveStore(k, n))
  }

  function ReserveStoreStep(w: World, t: nat, k: nat, n: nat): World
    requires k < |w.caps|
  {
    Goto(SetCap(w, k, w.caps[k].(retained := w.caps[k].retained + n, holder := None)), t, Scope)
  }

  /** The local counter is published before the shared one. */
  function ReleaseBegin(w: World, t: nat, k: nat, n: nat): World
    requires k < |w.caps|
  {
    Goto(SetCap(w, k, w.caps[k].(retained := w.caps[k].retained - n, holder := Some(t))), t, ReleaseLoad(k, n))
  }

  function ReleaseTryStep(w: World, t: nat, k: nat, n: nat, current: int, spurious: bool): World
    requires k < |w.caps|
  {
    if spurious || w.used != current then Goto(w, t, ReleaseTry(k, n, w.used))
    else Goto(SetCap(w.(used := current - n), k, w.caps[k].(held := w.caps[k].held - n, holder := None)), t, Mark)
  }

  function CloseBegin(w: World, t: nat, k: nat): World
    requires k < |w.caps|
  {
    Goto(SetCap(w, k, w.caps[k].(closed := true)), t, Mark)
  }

  /**
    A wait is refused when closed or when another is pending; otherwise it is published and then evaluated by its
    caller.
   */
  function WaitBegin(w: World, t: nat, k: nat, n: nat): World
    requires k < |w.caps|
  {
    var c := w.caps[k];
    if c.closed || c.ticket.Some? then w
    else
      var id := if c.registration == 0 then w.nextId else c.registration;
      Goto(SetCap(w.(nextId := if c.registration == 0 then w.nextId + 1 else w.nextId, nextTicket := w.nextTicket + 1), k,
                  c.(ticket := Some(w.nextTicket), required := n, registration := id)), t, Read(k, Return))
  }

  /** The destructor takes the registration back; its wait is gone with it. */
  function Forgotten(c: Cap): Cap { c.(ticket := None, registration := 0, closed := false) }

  // The dispatcher.

  function AcquireStep(w: World, t: nat): World {
    if w.notifying then Leave(w, t) else Goto(w.(notifying := true, owner := Some(t)), t, Clear)
  }

  /** The waiter with the lowest registration above `last`, up to `upper`. */
  ghost predicate IsNext(w: World, last: nat, upper: int, k: nat) {
    && k < |w.caps| && last < w.caps[k].registration <= upper
    && forall j :: 0 <= j < |w.caps| && last < w.caps[j].registration <= upper ==>
      w.caps[k].registration <= w.caps[j].registration
  }

  ghost predicate NoneLeft(w: World, last: nat, upper: int) {
    forall j :: 0 <= j < |w.caps| ==> !(last < w.caps[j].registration <= upper)
  }

  ghost function NextStep(w: World, t: nat, last: nat, upper: int): World {
    if exists k: nat :: IsNext(w, last, upper, k) then
      var k: nat :| IsNext(w, last, upper, k);
      Goto(w, t, Read(k, Pass(w.caps[k].registration, upper)))
    else Goto(w, t, Recheck)
  }

  // One evaluation.

  function Resume(w: World, t: nat, cont: Cont): World {
    match cont
    case Return => Leave(w, t)
    case Pass(last, upper) => Goto(w, t, Next(last, upper))
  }

  function Complete(w: World, k: nat, ticket: nat): World
    requires k < |w.caps|
  {
    if w.caps[k].ticket == Some(ticket) then SetCap(w, k, w.caps[k].(ticket := None)) else w
  }

  function ReadStep(w: World, t: nat, k: nat, cont: Cont): World
    requires k < |w.caps|
  {
    var c := w.caps[k];
    if c.ticket.None? then Resume(w, t, cont) else Goto(w, t, LoadClosed(k, c.ticket.value, c.required, cont))
  }

  function LoadClosedStep(w: World, t: nat, k: nat, ticket: nat, n: nat, cont: Cont): World
    requires k < |w.caps|
  {
    if w.caps[k].closed then Resume(Complete(w, k, ticket), t, cont) else Goto(w, t, LoadUsed(k, ticket, n, cont))
  }

  function LoadRetainedStep(w: World, t: nat, k: nat, ticket: nat, n: nat, shared: int, cont: Cont): World
    requires k < |w.caps|
  {
    if FitsLocal(w, w.caps[k], n) && FitsShared(w, shared, n) then Resume(Complete(w, k, ticket), t, cont)
    else Resume(w, t, cont)
  }

  ghost function Advance(w: World, t: nat, spurious: bool): World
    requires t in w.threads && Placed(w, w.threads[t])
  {
    match w.threads[t]
    case Scope => w
    case ReserveLoad(k, n) => Goto(w, t, ReserveTry(k, n, w.used))
    case ReserveTry(k, n, current) => ReserveTryStep(w, t, k, n, current, spurious)
    case ReserveStore(k, n) => ReserveStoreStep(w, t, k, n)
    case ReleaseLoad(k, n) => Goto(w, t, ReleaseTry(k, n, w.used))
    case ReleaseTry(k, n, current) => ReleaseTryStep(w, t, k, n, current, spurious)
    case Mark => Goto(w.(changed := true), t, Scope)
    case Acquire => AcquireStep(w, t)
    case Clear => Goto(w.(changed := false), t, Bound)
    case Bound => Goto(w, t, Next(0, w.nextId - 1))
    case Next(last, upper) => NextStep(w, t, last, upper)
    case Recheck => Goto(w, t, if w.changed then Clear else Hand)
    case Hand => Goto(w.(notifying := false, owner := None), t, Reload)
    case Reload => if w.changed then Goto(w, t, Reacquire) else Leave(w, t)
    case Reacquire => AcquireStep(w, t)
    case Read(k, cont) => ReadStep(w, t, k, cont)
    case LoadClosed(k, ticket, n, cont) => LoadClosedStep(w, t, k, ticket, n, cont)
    case LoadUsed(k, ticket, n, cont) => Goto(w, t, LoadRetained(k, ticket, n, w.used, cont))
    case LoadRetained(k, ticket, n, shared, cont) => LoadRetainedStep(w, t, k, ticket, n, shared, cont)
  }

  ghost function Apply(w: World, a: Action): World
    requires Enabled(w, a)
  {
    match a
    case AEnter(t) => Goto(w, t, Scope)
    case AReserve(t, k, n) => ReserveBegin(w, t, k, n)
    case ARelease(t, k, n) => ReleaseBegin(w, t, k, n)
    case AClose(t, k) => CloseBegin(w, t, k)
    case AWait(t, k, n) => WaitBegin(w, t, k, n)
    case ACancel(k) => SetCap(w, k, w.caps[k].(ticket := None))
    case AForget(k) => SetCap(w, k, Forgotten(w.caps[k]))
    case AExit(t) => if w.changed then Goto(w, t, Acquire) else Leave(w, t)
    case AStep(t, spurious) => Advance(w, t, spurious)
  }
}
