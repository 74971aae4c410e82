/**
What a TCP connection does for its user over every run: it listens while it should and only then, it
tells the observer every chunk it received, it closes for the first cause and names that cause.
*/
module TcpTraffic {
  import opened Common
  import opened TcpConnection
  import opened TcpSafety
  import opened TcpRuns
  import SQ = SendQueue

  // Listening.

  /** An open, started, unpaused connection that is not inside its callback has a receive in flight. */
  ghost predicate Listens(c: Conn) {
    !c.closed && c.started && !c.paused && !c.callbackActive ==> c.receiveInFlight
  }

  /** A receive newly in flight in `c2` was one the connection may have. */
  ghost predicate Rightly(c2: Conn) {
    !c2.callbackActive && (c2.lingering || (!c2.closed && c2.started && !c2.paused))
  }

  lemma StartReceiveListens(c: Conn, ok: bool)
    requires BeforeReceive(c)
    ensures Listens(StartReceive(c, ok))
    ensures !c.receiveInFlight && StartReceive(c, ok).receiveInFlight ==> Rightly(StartReceive(c, ok))
  {
  }

  lemma SocketIsSilent(c: Conn)
    ensures CloseSocket(c).closed == c.closed && CloseSocket(c).receiveInFlight == c.receiveInFlight
  {
    if !c.socket.Gone? { assert CloseSocket(c) == c.(socket := Gone, lingering := false); }
  }

  lemma ShutIsSilent(c: Conn, why: ErrorCode)
    ensures CloseSocket(MarkClosed(c, why)).closed
    ensures CloseSocket(MarkClosed(c, why)).receiveInFlight == c.receiveInFlight
    ensures CloseSocket(c).closed == c.closed && CloseSocket(c).receiveInFlight == c.receiveInFlight
  {
    hide CloseSocket;
    SocketIsSilent(c);
    SocketIsSilent(MarkClosed(c, why));
  }

  lemma SendListens(c: Conn, bytes: Bytes, ok: bool)
    requires Flags(c) && Listens(c) && CanSend(c)
    ensures Listens(Send(c, bytes, ok)) && Send(c, bytes, ok).receiveInFlight == c.receiveInFlight
  {
    hide CloseSocket, MarkClosed, SQ.Append;
    ShutIsSilent(c.(queue := SQ.Append(c.queue, bytes), accepted := c.accepted + bytes), PlatformError);
  }

  lemma FinishListens(c: Conn, ok: bool)
    requires Flags(c) && Listens(c)
    ensures Listens(FinishCloseAfterSend(c, ok))
    ensures !c.receiveInFlight && FinishCloseAfterSend(c, ok).receiveInFlight ==> Rightly(FinishCloseAfterSend(c, ok))
  {
    if DrainDone(c) { StartReceiveListens(MarkClosed(c, Closed).(socket := SendShut, lingering := true), ok); }
  }

  lemma ReceiveDoneListens(c: Conn, count: nat, failed: bool, ok: bool)
    requires Flags(c) && c.receiveInFlight
    ensures Listens(ReceiveDone(c, count, failed, ok))
    ensures ReceiveDone(c, count, failed, ok).receiveInFlight ==> Rightly(ReceiveDone(c, count, failed, ok))
  {
    hide CloseSocket, MarkClosed, StartReceive;
    var c1 := c.(receiveInFlight := false, pending := c.pending - 1);
    ShutIsSilent(c1, PlatformError);
    ShutIsSilent(c1, Closed);
    StartReceiveListens(c1, ok);
  }

  lemma CallbackDoneListens(c: Conn, ok: bool)
    requires Flags(c) && c.callbackActive
    ensures Listens(CallbackDone(c, ok))
    ensures CallbackDone(c, ok).receiveInFlight ==> Rightly(CallbackDone(c, ok))
  {
    hide StartReceive;
    StartReceiveListens(c.(callbackActive := false), ok);
  }

  lemma AdvancedListens(c: Conn, count: nat, sendOk: bool, receiveOk: bool)
    requires Flags(c) && Listens(c) && Consumable(c.queue, count) && !c.sendInFlight && !c.closed
    ensures var c2 := SendAdvanced(c, count, sendOk, receiveOk);
      Listens(c2) && (!c.receiveInFlight && c2.receiveInFlight ==> Rightly(c2))
  {
    hide CloseSocket, MarkClosed, FinishCloseAfterSend, SQ.Consume, SQ.Front;
    var c1 := Taken(c, count);
    ShutIsSilent(c1, PlatformError);
    var c2 := if c1.queue.payloads != [] then StartSend(c1, sendOk) else c1;
    if c2.closed {
      assert FinishCloseAfterSend(c2, receiveOk) == c2 by { ClosedStays(c2, receiveOk); }
    } else {
      FinishListens(c2, receiveOk);
    }
  }

  lemma ClosedStays(c: Conn, ok: bool)
    requires c.closed
    ensures FinishCloseAfterSend(c, ok) == c
  {
  }

  lemma SendDoneListens(c: Conn, count: nat, failed: bool, sendOk: bool, receiveOk: bool)
    requires Flags(c) && Listens(c) && c.sendInFlight
    requires (!c.closed && !failed && 0 < count ==> Consumable(c.queue, count))
    ensures var c2 := SendDone(c, count, failed, sendOk, receiveOk);
      Listens(c2) && (!c.receiveInFlight && c2.receiveInFlight ==> Rightly(c2))
  {
    hide SendAdvanced, CloseSocket, MarkClosed, Consumable;
    var c1 := c.(sendInFlight := false, pending := c.pending - 1);
    ShutIsSilent(c1, Closed);
    ShutIsSilent(c1, PlatformError);
    if !c.closed && !failed && 0 < count { AdvancedListens(c1, count, sendOk, receiveOk); }
  }

  /** A receive is in flight after the step that was not before, or that replaces the one just completed. */
  predicate PostsReceive(w: World, a: Action, w2: World) {
    w2.conn.receiveInFlight && (!w.conn.receiveInFlight || a.AReceiveDone?)
  }

  lemma CallListens(w: World, a: Action)
    requires Flags(w.conn) && Listens(w.conn) && Enabled(w, a)
    requires a.AStart? || a.ASend? || a.AClose? || a.ACloseAfterSend? || a.ASetObserver? || a.APause? || a.AResume?
    ensures Listens(Apply(w, a).conn)
    ensures PostsReceive(w, a, Apply(w, a)) ==> Rightly(Apply(w, a).conn)
  {
    hide StartReceive, Send, Close, CloseAfterSend, FinishCloseAfterSend;
    var c := w.conn;
    match a
    case AStart(_, ok) => StartReceiveListens(c.(started := true), ok);
    case ASend(_, bytes, _, ok) => if CanSend(c) { SendListens(c, bytes, ok); }
    case AClose(_) => CloseIsSilent(c);
    case ACloseAfterSend(_, ok) => CloseAfterSendListens(c, ok);
    case AResume(_, ok) => StartReceiveListens(c.(paused := false), ok);
    case _ =>
  }

  lemma DoneListens(w: World, a: Action)
    requires Flags(w.conn) && Threads(w) && Listens(w.conn) && Enabled(w, a)
    requires (a.AReceiveDone? || a.ASendDone? || a.ALeave?)
    ensures Listens(Apply(w, a).conn)
    ensures PostsReceive(w, a, Apply(w, a)) ==> Rightly(Apply(w, a).conn)
  {
    hide ReceiveDone, SendDone, CallbackDone, Consumable;
    match a
    case AReceiveDone(_, count, failed, ok) => ReceiveDoneListens(w.conn, count, failed, ok);
    case ASendDone(_, count, failed, ok, receiveOk) => SendDoneListens(w.conn, count, failed, ok, receiveOk);
    case ALeave(_, ok) => CallbackDoneListens(w.conn, ok);
  }

  /** The steps between two sections. */
  predicate Between(a: Action) { a.AEnter? || a.ANotify? || a.ADeliver? }

  lemma BetweenKeeps(w: World, a: Action)
    requires Enabled(w, a) && Between(a)
    ensures var c, c2 := w.conn, Apply(w, a).conn; c2 == c.(notified := c2.notified, events := c2.events)
  {
  }

  lemma StepListens(w: World, a: Action)
    requires Safe(w) && Enabled(w, a) && !a.ADestroy? && Listens(w.conn)
    ensures Listens(Apply(w, a).conn)
    ensures PostsReceive(w, a, Apply(w, a)) ==> Rightly(Apply(w, a).conn)
  {
    hide Safe, Apply, Enabled, Flags, Stream, Told, Threads, Promised;
    Parts(w);
    if a.AReceiveDone? || a.ASendDone? || a.ALeave? {
      DoneListens(w, a);
    } else if Between(a) {
      BetweenKeeps(w, a);
    } else {
      CallListens(w, a);
    }
  }

  lemma CloseIsSilent(c: Conn)
    ensures Close(c).closed && Close(c).receiveInFlight == c.receiveInFlight
  {
  }

  lemma CloseAfterSendListens(c: Conn, ok: bool)
    requires Flags(c) && Listens(c)
    ensures Listens(CloseAfterSend(c, ok))
    ensures !c.receiveInFlight && CloseAfterSend(c, ok).receiveInFlight ==> Rightly(CloseAfterSend(c, ok))
  {
    hide FinishCloseAfterSend;
    if !c.closed { FinishListens(c.(closeAfterSend := true), ok); }
  }

  /**
    In every state of every run, an open, started, unpaused connection outside its callback has a receive in flight.
   */
  lemma KeepsListening(ws: seq<World>, acts: seq<Action>, i: nat)
    requires IsRun(ws, acts) && i < |ws| && !ws[i].destroyed
    ensures Listens(ws[i].conn)
  {
    hide Safe, Apply, Enabled;
    var j := 0;
    while j < i
      invariant j <= i && (!ws[j].destroyed ==> Listens(ws[j].conn))
    {
      RunAction(ws, acts, j);
      StepFlag(ws[j], acts[j]);
      if !acts[j].ADestroy? {
        RunSafe(ws, acts, j);
        StepListens(ws[j], acts[j]);
      }
      j := j + 1;
    }
  }

  /** A receive is posted only by a connection that lingers or is open, started and not paused, outside its callback. */
  lemma NoReceiveUninvited(ws: seq<World>, acts: seq<Action>, i: nat)
    requires IsRun(ws, acts) && i < |acts| && PostsReceive(ws[i], acts[i], ws[i + 1]) && !ws[i + 1].destroyed
    ensures Rightly(ws[i + 1].conn)
  {
    hide Safe, Apply, Enabled, Listens, Rightly;
    RunAction(ws, acts, i);
    StepFlag(ws[i], acts[i]);
    RunSafe(ws, acts, i);
    KeepsListening(ws, acts, i);
    StepListens(ws[i], acts[i]);
  }
}
