/** The guarantees of a TCP connection over every run. */
module TcpRuns {
  import opened Common
  import opened TcpConnection
  import opened TcpSafety
  import SQ = SendQueue

  const INITIAL: World := World(FRESH, map[], None, None, false)

  ghost predicate StepAt(ws: seq<World>, acts: seq<Action>, i: nat)
    requires |ws| == |acts| + 1 && i < |acts|
  {
    Enabled(ws[i], acts[i]) && ws[i + 1] == Apply(ws[i], acts[i])
  }

  ghost predicate IsRun(ws: seq<World>, acts: seq<Action>) {
    |ws| == |acts| + 1 && ws[0] == INITIAL && forall i :: 0 <= i < |acts| ==> StepAt(ws, acts, i)
  }

  lemma FreshSound()
    ensures Flags(FRESH) && Stream(FRESH) && FRESH.events == [] && !FRESH.callbackActive && !FRESH.notified
    ensures !FRESH.observer
  {
    EmptyValid();
    assert FRESH.queue == SQ.EMPTY && FRESH.completed == [] && FRESH.accepted == [];
  }

  lemma InitialSafe()
    ensures Safe(INITIAL)
  {
    hide Flags, Stream;
    FreshSound();
    assert INITIAL.conn == FRESH && INITIAL.threads == map[] && INITIAL.receiver == None && INITIAL.notifier == None;
    assert !INITIAL.destroyed;
    assert Told(INITIAL) && Threads(INITIAL) && Promised(INITIAL);
  }

  lemma StepFlag(w: World, a: Action)
    requires Enabled(w, a)
    ensures !w.destroyed && Apply(w, a).destroyed == a.ADestroy?
  {
    hide Start, Send, StartReceive, ReceiveDone, SendDone, Close, CloseAfterSend, CallbackDone, MustNotify;
  }

  lemma RunSafe(ws: seq<World>, acts: seq<Action>, i: nat)
    requires IsRun(ws, acts) && i < |ws| && !ws[i].destroyed
    ensures Safe(ws[i])
  {
    hide Safe, Apply, Enabled;
    InitialSafe();
    var j := 0;
    while j < i
      invariant j <= i && (!ws[j].destroyed ==> Safe(ws[j]))
    {
      assert StepAt(ws, acts, j);
      StepFlag(ws[j], acts[j]);
      if !acts[j].ADestroy? { StepSafe(ws[j], acts[j]); }
      j := j + 1;
    }
  }

  // Disconnection.

  lemma LastOnly(w: World, j: nat)
    requires Told(w) && j < |w.conn.events| && w.conn.events[j].Disconnected?
    ensures j == |w.conn.events| - 1 && w.conn.notified
  {
    var init := w.conn.events[..|w.conn.events| - 1];
    assert forall k :: 0 <= k < |init| ==> init[k] == w.conn.events[k];
  }

  /** OnDisconnected is delivered at most once, and nothing is delivered after it. */
  lemma DisconnectsOnceAndLast(ws: seq<World>, acts: seq<Action>, i: nat, j: nat)
    requires IsRun(ws, acts) && i < |ws| && !ws[i].destroyed && j < |ws[i].conn.events|
    requires ws[i].conn.events[j].Disconnected?
    ensures j == |ws[i].conn.events| - 1 && ws[i].conn.notified
  {
    RunSafe(ws, acts, i);
    hide Flags, Stream, Threads, Promised;
    LastOnly(ws[i], j);
  }

  /** When OnDisconnected is called, the connection is closed, nothing is in flight and no receive callback runs. */
  lemma DisconnectsAtRest(ws: seq<World>, acts: seq<Action>, i: nat, t: nat)
    requires IsRun(ws, acts) && i < |acts| && acts[i].ADeliver?
    ensures var c := ws[i].conn; c.closed && c.observer && !c.sendInFlight && !c.receiveInFlight && !c.lingering
    ensures t in ws[i].threads ==> !Receives(ws[i].threads[t])
  {
    hide Stream, Promised, Apply;
    assert StepAt(ws, acts, i);
    StepFlag(ws[i], acts[i]);
    RunSafe(ws, acts, i);
  }

  /** Once claimed, the notification is final: no further receive callback starts. */
  lemma NoReceiveOnceNotified(ws: seq<World>, acts: seq<Action>, i: nat)
    requires IsRun(ws, acts) && i < |acts| && ws[i].conn.notified
    ensures !acts[i].AEnter? && !acts[i].AReceiveDone?
  {
    hide Stream, Promised, Apply;
    assert StepAt(ws, acts, i);
    StepFlag(ws[i], acts[i]);
    RunSafe(ws, acts, i);
  }

  /** At rest, a closed connection with an observer and nothing in flight has delivered its disconnect. */
  lemma QuiescentMeansDelivered(ws: seq<World>, acts: seq<Action>, i: nat)
    requires IsRun(ws, acts) && i < |ws| && !ws[i].destroyed && ws[i].threads == map[]
    requires var c := ws[i].conn; c.closed && c.observer && c.pending == 0
    ensures var events := ws[i].conn.events; |events| > 0 && events[|events| - 1].Disconnected?
  {
    hide Stream;
    RunSafe(ws, acts, i);
  }

  /** After destruction an observer has been told exactly once, and the destructor's assertions held. */
  lemma DestroyedMeansDelivered(ws: seq<World>, acts: seq<Action>, i: nat)
    requires IsRun(ws, acts) && i < |acts| && acts[i].ADestroy?
    ensures var c := ws[i].conn; c.pending == 0 && !c.sendInFlight && !c.receiveInFlight && !c.callbackActive
    ensures var c := ws[i + 1].conn;
      c.observer ==> |c.events| > 0 && c.events[|c.events| - 1].Disconnected? && NoDisconnect(c.events[..|c.events| - 1])
  {
    hide Safe, DestroyStep, Flags, Told;
    assert StepAt(ws, acts, i);
    StepFlag(ws[i], acts[i]);
    RunSafe(ws, acts, i);
    DestroySafe(ws[i]);
    Parts(ws[i]);
    AtEnd(ws[i]);
  }

  lemma AtEnd(w: World)
    requires Safe(w) && w.threads == map[]
    ensures !w.conn.callbackActive
  {
  }

  /** Lingering always means an open socket with a receive in flight or a callback running. */
  lemma LingeringIsDraining(ws: seq<World>, acts: seq<Action>, i: nat)
    requires IsRun(ws, acts) && i < |ws| && !ws[i].destroyed && ws[i].conn.lingering
    ensures var c := ws[i].conn; c.closed && c.socket.SendShut? && (c.receiveInFlight || c.callbackActive)
  {
    hide Stream, Told, Threads, Promised;
    RunSafe(ws, acts, i);
  }

  /**
    No receive is in flight while an observer callback borrows the receive buffer, and only one such callback exists.
   */
  lemma ReceiveBufferIsBorrowedAlone(ws: seq<World>, acts: seq<Action>, i: nat, t: nat, u: nat)
    requires IsRun(ws, acts) && i < |ws| && !ws[i].destroyed && t in ws[i].threads && Receives(ws[i].threads[t])
    ensures !ws[i].conn.receiveInFlight && (u in ws[i].threads && Receives(ws[i].threads[u]) ==> u == t)
  {
    hide Stream, Told, Promised;
    RunSafe(ws, acts, i);
  }

  // The byte stream.

  /**
    Until the close, the completed bytes and then the unsent bytes are exactly the accepted bytes; afterwards a prefix
    was sent.
   */
  lemma StreamIntegrity(ws: seq<World>, acts: seq<Action>, i: nat)
    requires IsRun(ws, acts) && i < |ws| && !ws[i].destroyed
    ensures var c := ws[i].conn;
      SQ.Valid(c.queue) && (!c.closed ==> c.completed + SQ.Unsent(c.queue) == c.accepted) && c.completed <= c.accepted
  {
    hide Flags, Told, Threads, Promised, SQ.Valid;
    RunSafe(ws, acts, i);
  }

  /**
    While open, a send is in flight exactly when something is queued; a closed connection with no send in flight holds
    nothing.
   */
  lemma SendsExactlyWhileQueued(ws: seq<World>, acts: seq<Action>, i: nat)
    requires IsRun(ws, acts) && i < |ws| && !ws[i].destroyed
    ensures var c := ws[i].conn;
      && (!c.closed ==> (c.sendInFlight <==> c.queue.payloads != []))
      && (c.closed && !c.sendInFlight ==> c.queue == SQ.EMPTY)
  {
    hide Flags, Told, Threads, Promised, SQ.Valid;
    RunSafe(ws, acts, i);
  }

  /** The send side is shut down gracefully only after every accepted byte has completed. */
  lemma GracefulShutdownLosesNothing(ws: seq<World>, acts: seq<Action>, i: nat)
    requires IsRun(ws, acts) && i < |ws| && !ws[i].destroyed && ws[i].conn.socket.SendShut?
    ensures var c := ws[i].conn; c.completed == c.accepted && c.queue == SQ.EMPTY && !c.sendInFlight
  {
    hide Told, Threads, Promised, SQ.Valid;
    RunSafe(ws, acts, i);
  }

  /** The payload at the front of the queue is lent to a send, and `c2` still lends the same bytes of it. */
  ghost predicate Stays(c: Conn, c2: Conn) {
    && c2.sendInFlight && c2.queue.payloads != [] && c.queue.payloads != []
    && c2.queue.payloads[0] == c.queue.payloads[0] && c2.queue.offset == c.queue.offset
  }

  ghost predicate Lent(c: Conn) { c.sendInFlight && c.queue.payloads != [] }

  lemma ShutStays(c: Conn, c1: Conn, why: ErrorCode)
    requires Stays(c, c1)
    ensures Stays(c, CloseSocket(c1)) && Stays(c, CloseSocket(MarkClosed(c1, why)))
  {
    hide CloseSocket;
    if !c1.closed { assert MarkClosed(c1, why) == c1.(closed := true, reason := why); }
    SocketStays(c, c1);
    SocketStays(c, MarkClosed(c1, why));
  }

  lemma SocketStays(c: Conn, c1: Conn)
    ensures Stays(c, CloseSocket(c1)) == Stays(c, c1)
  {
    if !c1.socket.Gone? { assert CloseSocket(c1) == c1.(socket := Gone, lingering := false); }
  }

  lemma ReceiveStays(c: Conn, c1: Conn, ok: bool)
    requires Stays(c, c1)
    ensures Stays(c, StartReceive(c1, ok)) && Stays(c, CloseSocket(c1))
    ensures Stays(c, CloseSocket(MarkClosed(c1, PlatformError))) && Stays(c, CloseSocket(MarkClosed(c1, Closed)))
  {
    hide CloseSocket, MarkClosed;
    ShutStays(c, c1, PlatformError);
    ShutStays(c, c1, Closed);
  }

  lemma ReceiveDoneStays(c: Conn, count: nat, failed: bool, ok: bool)
    requires Lent(c)
    ensures Stays(c, ReceiveDone(c, count, failed, ok)) && Stays(c, CallbackDone(c, ok))
  {
    hide StartReceive, CloseSocket, MarkClosed;
    ReceiveStays(c, c.(receiveInFlight := false, pending := c.pending - 1), ok);
    ReceiveStays(c, c.(callbackActive := false), ok);
  }

  lemma CallStays(c: Conn, ok: bool)
    requires Lent(c)
    ensures Stays(c, Start(c, ok)) && Stays(c, StartReceive(c.(paused := false), ok)) && Stays(c, Close(c))
  {
    hide StartReceive, CloseSocket, MarkClosed;
    ReceiveStays(c, c.(started := true), ok);
    ReceiveStays(c, c.(paused := false), ok);
    ReceiveStays(c, c.(closeAfterSend := false), ok);
  }

  lemma SendStays(c: Conn, bytes: Bytes, ok: bool)
    requires Lent(c)
    ensures Stays(c, CloseAfterSend(c, ok)) && Stays(c, Send(c, bytes, ok))
  {
    hide LingerClose, StartSend, MarkClosed;
  }

  lemma SendingIsPending(w: World)
    requires Safe(w) && w.conn.sendInFlight
    ensures w.conn.pending > 0
  {
  }

  lemma CallsStay(w: World, a: Action)
    requires Enabled(w, a) && Lent(w.conn)
    requires a.AStart? || a.ASend? || a.AClose? || a.ACloseAfterSend? || a.AResume?
    ensures Stays(w.conn, Apply(w, a).conn)
  {
    hide StartReceive, Start, Close, CloseAfterSend, Send;
    var c := w.conn;
    match a
    case AStart(_, ok) => CallStays(c, ok);
    case ASend(_, bytes, _, ok) => SendStays(c, bytes, ok);
    case AClose(_) => CallStays(c, true);
    case ACloseAfterSend(_, ok) => SendStays(c, [], ok);
    case AResume(_, ok) => CallStays(c, ok);
  }

  lemma ReceivesStay(w: World, a: Action)
    requires Enabled(w, a) && Lent(w.conn) && (a.AReceiveDone? || a.ALeave?)
    ensures Stays(w.conn, Apply(w, a).conn)
  {
    hide ReceiveDone, CallbackDone;
    match a
    case AReceiveDone(_, count, failed, ok) => ReceiveDoneStays(w.conn, count, failed, ok);
    case ALeave(_, ok) => ReceiveDoneStays(w.conn, 0, false, ok);
  }

  lemma OthersStay(w: World, a: Action)
    requires Enabled(w, a) && Lent(w.conn)
    requires a.ASetObserver? || a.APause? || a.AEnter? || a.ANotify? || a.ADeliver?
    ensures Stays(w.conn, Apply(w, a).conn)
  {
    hide MustNotify;
  }

  /** Nothing but the send's own completion moves what the send borrowed; the destructor cannot run. */
  lemma StepStays(w: World, a: Action)
    requires Safe(w) && Enabled(w, a) && !a.ASendDone? && Lent(w.conn)
    ensures !a.ADestroy? && Stays(w.conn, Apply(w, a).conn)
  {
    hide Safe, Apply, Stays;
    SendingIsPending(w);
    if a.AStart? || a.ASend? || a.AClose? || a.ACloseAfterSend? || a.AResume? {
      CallsStay(w, a);
    } else if a.AReceiveDone? || a.ALeave? {
      ReceivesStay(w, a);
    } else {
      OthersStay(w, a);
    }
  }

  /** From any moment of any run at which a send borrows bytes, they stay in place until that send completes. */
  lemma SendBufferStays(ws: seq<World>, acts: seq<Action>, i: nat, j: nat)
    requires IsRun(ws, acts) && i <= j < |ws| && !ws[i].destroyed && Lent(ws[i].conn)
    requires forall k :: i <= k < j ==> !acts[k].ASendDone?
    ensures !ws[j].destroyed && Stays(ws[i].conn, ws[j].conn)
  {
    hide Safe, Apply, Enabled;
    for k := i to j
      invariant !ws[k].destroyed && Stays(ws[i].conn, ws[k].conn)
    {
      RunSafe(ws, acts, k);
      RunAction(ws, acts, k);
      StepStays(ws[k], acts[k]);
      StepFlag(ws[k], acts[k]);
    }
  }

  lemma RunAction(ws: seq<World>, acts: seq<Action>, i: nat)
    requires IsRun(ws, acts) && i < |acts|
    ensures Enabled(ws[i], acts[i]) && ws[i + 1] == Apply(ws[i], acts[i])
  {
    hide Enabled, Apply;
    assert StepAt(ws, acts, i);
  }
}
