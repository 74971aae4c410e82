/** One connection's flow object, with the update loop as the source writes it. */
module ReceiveFlowState {
  import opened ReceiveFlow

  class PeerState {
    const id: nat
    var userPaused: bool
    var paused: bool
    var waiting: bool
    var own: Budget
    var waiters: seq<nat>

    constructor (peer: nat, ownBudget: Budget)
      ensures id == peer && own == ownBudget && waiters == [] && !userPaused && !paused && !waiting
    {
      id, own, waiters := peer, ownBudget, [];
      userPaused, paused, waiting := false, false, false;
    }

    /** What the shared budget says at this moment; other threads charge and release it at any time. */
    method GlobalIsFull() returns (full: bool)
    {
      full := *;
    }

    /**
      An update leaves the connection paused exactly when its own causes or the last global reading it acted on say so;
      when that reading was full, it is noted as waiting and is listed once.
     */
    method UpdateFlow() returns (full: bool)
      requires waiting ==> id in waiters
      modifies this`paused, this`waiting, this`waiters
      ensures paused == (userPaused || Full(own) || full)
      ensures full ==> waiting
      ensures waiting ==> id in waiters
      ensures waiters == old(waiters) + if waiting && !old(waiting) then [id] else []
    {
      while true
        invariant waiting ==> id in waiters
        invariant waiters == old(waiters) + if waiting && !old(waiting) then [id] else []
        invariant old(waiting) ==> waiting
        decreases !waiting
      {
        full := GlobalIsFull();
        var want := userPaused || Full(own) || full;
        if want != paused { paused := want; }
        if !full || waiting { return; }
        waiters := waiters + [id];
        waiting := true;
        var still := GlobalIsFull();
        if still { return; }
      }
    }

    method SetUserPaused(value: bool) returns (full: bool)
      requires waiting ==> id in waiters
      modifies this`userPaused, this`paused, this`waiting, this`waiters
      ensures userPaused == value && paused == (value || Full(own) || full) && (full ==> waiting)
      ensures (waiting ==> id in waiters)
    {
      userPaused := value;
      full := UpdateFlow();
    }
  }
}
