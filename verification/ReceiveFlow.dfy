/**
  Receive flow control of the C interface: a connection pauses while the caller wants it, while its own event budget is
  full, or while the global one is. Each critical section and each reading of a budget is one step.
 */
module ReceiveFlow {
  import opened Common

  datatype Budget = Budget(maxCount: nat, maxBytes: nat, count: int, bytes: int)

  predicate Full(b: Budget) { b.count >= b.maxCount || b.bytes >= b.maxBytes }
  function Charge(b: Budget, size: nat): Budget { b.(count := b.count + 1, bytes := b.bytes + size) }
  function Release(b: Budget, size: nat): Budget { b.(count := b.count - 1, bytes := b.bytes - size) }

  /** `holder` is the thread inside the flow mutex. */
  datatype Peer = Peer(userPaused: bool, paused: bool, waiting: bool, own: Budget, holder: Option<nat>)

  /** What a thread does after an update: return, or go on with the connections it woke. */
  datatype Cont = Done | Rest(batch: seq<nat>)

  datatype Pc =
    | ChargeGlobal(p: nat, size: nat)                      // bytes arrived and the own budget is charged
    | Lock(p: nat, cont: Cont)                             // about to enter UpdateFlow
    | ReadGlobal(p: nat, cont: Cont)
    | ReadOwn(p: nat, g: bool, cont: Cont)
    | Settle(p: nat, g: bool, want: bool, cont: Cont)      // about to pause or resume
    | Add(p: nat, cont: Cont)                              // about to join the global waiters
    | Set(p: nat, cont: Cont)                              // about to note that it has joined
    | Recheck(p: nat, cont: Cont)
    | Swap                                                 // a global lease was returned: about to take the waiters
    | Waken(batch: seq<nat>)

  datatype World = World(peers: seq<Peer>, global: Budget, waiters: seq<nat>, threads: map<nat, Pc>)

  datatype Action =
    | AReceive(t: nat, p: nat, size: nat)
    | AReleaseOwn(t: nat, p: nat, size: nat)
    | AReleaseGlobal(t: nat, size: nat)
    | ASetPaused(t: nat, p: nat, value: bool)
    | AStep(t: nat)

  function Goto(w: World, t: nat, pc: Pc): World { w.(threads := w.threads[t := pc]) }
  function SetPeer(w: World, p: nat, x: Peer): World
    requires p < |w.peers|
  {
    w.(peers := w.peers[p := x])
  }

  function Resume(w: World, t: nat, cont: Cont): World {
    match cont
    case Done => w.(threads := w.threads - {t})
    case Rest(batch) => Goto(w, t, Waken(batch))
  }

  /** UpdateFlow returns: the flow mutex is released. */
  function Unlock(w: World, t: nat, p: nat, cont: Cont): World
    requires p < |w.peers|
  {
    Resume(SetPeer(w, p, w.peers[p].(holder := None)), t, cont)
  }

  predicate CanStep(w: World, pc: Pc) {
    match pc
    case ChargeGlobal(p, _) => p < |w.peers|
    case Lock(p, _) => p < |w.peers| && w.peers[p].holder.None?
    case ReadGlobal(p, _) => p < |w.peers|
    case ReadOwn(p, _, _) => p < |w.peers|
    case Settle(p, _, _, _) => p < |w.peers|
    case Add(p, _) => p < |w.peers|
    case Set(p, _) => p < |w.peers|
    case Recheck(p, _) => p < |w.peers|
    case Swap => true
    case Waken(batch) => batch == [] || (batch[0] < |w.peers| && w.peers[batch[0]].holder.None?)
  }

  predicate Enabled(w: World, a: Action) {
    match a
    case AReceive(t, p, _) => t !in w.threads && p < |w.peers|
    case AReleaseOwn(t, p, _) => t !in w.threads && p < |w.peers|
    case AReleaseGlobal(t, _) => t !in w.threads
    case ASetPaused(t, p, _) => t !in w.threads && p < |w.peers| && w.peers[p].holder.None?
    case AStep(t) => t in w.threads && CanStep(w, w.threads[t])
  }

  function SettleStep(w: World, t: nat, p: nat, g: bool, want: bool, cont: Cont): World
    requires p < |w.peers|
  {
    var w1 := SetPeer(w, p, w.peers[p].(paused := want));
    if !g || w.peers[p].waiting then Unlock(w1, t, p, cont) else Goto(w1, t, Add(p, cont))
  }

  function WakenStep(w: World, t: nat, batch: seq<nat>): World
    requires batch == [] || batch[0] < |w.peers|
  {
    if batch == [] then Resume(w, t, Done)
    else Goto(SetPeer(w, batch[0], w.peers[batch[0]].(waiting := false)), t, Lock(batch[0], Rest(batch[1..])))
  }

  function Advance(w: World, t: nat): World
    requires t in w.threads && CanStep(w, w.threads[t])
  {
    match w.threads[t]
    case ChargeGlobal(p, size) => Goto(w.(global := Charge(w.global, size)), t, Lock(p, Done))
    case Lock(p, cont) => Goto(SetPeer(w, p, w.peers[p].(holder := Some(t))), t, ReadGlobal(p, cont))
    case ReadGlobal(p, cont) => Goto(w, t, ReadOwn(p, Full(w.global), cont))
    case ReadOwn(p, g, cont) => Goto(w, t, Settle(p, g, w.peers[p].userPaused || Full(w.peers[p].own) || g, cont))
    case Settle(p, g, want, cont) => SettleStep(w, t, p, g, want, cont)
    case Add(p, cont) => Goto(w.(waiters := w.waiters + [p]), t, Set(p, cont))
    case Set(p, cont) => Goto(SetPeer(w, p, w.peers[p].(waiting := true)), t, Recheck(p, cont))
    case Recheck(p, cont) => if Full(w.global) then Unlock(w, t, p, cont) else Goto(w, t, ReadGlobal(p, cont))
    case Swap => Goto(w.(waiters := []), t, Waken(w.waiters))
    case Waken(batch) => WakenStep(w, t, batch)
  }

  function Apply(w: World, a: Action): World
    requires Enabled(w, a)
  {
    match a
    case AReceive(t, p, size) => Goto(SetPeer(w, p, w.peers[p].(own := Charge(w.peers[p].own, size))), t, ChargeGlobal(p, size))
    case AReleaseOwn(t, p, size) => Goto(SetPeer(w, p, w.peers[p].(own := Release(w.peers[p].own, size))), t, Lock(p, Done))
    case AReleaseGlobal(t, size) => Goto(w.(global := Release(w.global, size)), t, Swap)
    case ASetPaused(t, p, value) => Goto(SetPeer(w, p, w.peers[p].(userPaused := value)), t, Lock(p, Done))
    case AStep(t) => Advance(w, t)
  }
}
