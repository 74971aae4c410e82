/** Why, how and with which reason a TCP connection ends, over every run. */
module TcpOutcome {
  import opened Common
  import opened TcpConnection
  import opened TcpSafety
  import opened TcpRuns
  import opened TcpTraffic
  import SQ = SendQueue

  /** Every accepted byte has completed. */
  predicate Drained(c: Conn) { c.completed == c.accepted }

  /** The action completes the last accepted byte. */
  predicate CompletesAll(c: Conn, a: Action) {
    a.ASendDone? && !a.failed && 0 < a.count && |c.completed| + a.count == |c.accepted|
  }

  /** What ends an open connection: the code it ends with, or nothing. */
  function ShutBy(c: Conn, a: Action): Option<ErrorCode> {
    match a
    case AClose(_) => Some(Closed)
    case ACloseAfterSend(_, _) => if Drained(c) then Some(Closed) else None
    case AReceiveDone(_, count, failed, _) =>
      if failed then Some(PlatformError) else if count == 0 then Some(Closed) else None
    case ASend(_, bytes, granted, ok) =>
      if !ok && granted && bytes != [] && !c.closeAfterSend && Drained(c) then Some(PlatformError) else None
    case ASendDone(_, count, failed, ok, _) =>
      if failed then Some(PlatformError)
      else if count == 0 then Some(Closed)
      else if CompletesAll(c, a) then (if c.closeAfterSend then Some(Closed) else None)
      else if ok then None else Some(PlatformError)
    case AStart(_, ok) => if !ok && !c.paused && !c.callbackActive && !c.receiveInFlight then Some(PlatformError)
      else None
    case AResume(_, ok) => if !ok && c.started && !c.callbackActive && !c.receiveInFlight then Some(PlatformError)
      else None
    case ALeave(_, ok) => if !ok && c.started && !c.paused then Some(PlatformError) else None
    case _ => None
  }

  /** The connection ends because it was asked to once everything was sent, and everything was. */
  predicate Graceful(c: Conn, a: Action) {
    (a.ACloseAfterSend? && Drained(c)) || (CompletesAll(c, a) && c.closeAfterSend)
  }

  /** A graceful end keeps the socket to read what the peer still sends, unless the kernel refuses that receive. */
  predicate Lingers(c: Conn, a: Action) {
    && Graceful(c, a)
    && (c.receiveInFlight || c.callbackActive || (if a.ASendDone? then a.receiveOk else a.ACloseAfterSend? && a.ok))
  }

  ghost predicate Ends(c: Conn, c2: Conn, shut: Option<ErrorCode>, lingers: bool) {
    if c.closed then c2.closed && c2.reason == c.reason
    else if shut.None? then !c2.closed
    else
      && c2.closed && c2.reason == shut.value && c2.lingering == lingers
      && c2.socket == (if lingers then SendShut else Gone)
  }

  lemma SocketEnds(c: Conn)
    ensures var c2 := CloseSocket(c);
      && c2.closed == c.closed && c2.reason == c.reason && c2.socket.Gone?
      && c2.lingering == (c.lingering && c.socket.Gone?)
  {
    if !c.socket.Gone? { assert CloseSocket(c) == c.(socket := Gone, lingering := false); }
  }

  lemma ShutEnds(c: Conn, why: ErrorCode)
    requires !c.closed ==> c.socket.Open?
    ensures Ends(c, CloseSocket(MarkClosed(c, why)), Some(why), false)
    ensures Ends(c, CloseSocket(c), None, false)
  {
    hide CloseSocket;
    SocketEnds(c);
    SocketEnds(MarkClosed(c, why));
  }

  lemma ReceiveEnds(c: Conn, ok: bool)
    requires !c.closed ==> c.socket.Open? && !c.lingering
    ensures Ends(c, StartReceive(c, ok),
                 if !ok && c.started && !c.paused && !c.receiveInFlight && !c.callbackActive then Some(PlatformError) else None, false)
  {
    hide CloseSocket, MarkClosed;
    ShutEnds(c, PlatformError);
  }

  lemma SendEnds(c: Conn, bytes: Bytes, ok: bool)
    requires Flags(c) && Stream(c) && CanSend(c) && bytes != []
    ensures Ends(c, Send(c, bytes, ok), if !ok && Drained(c) then Some(PlatformError) else None, false)
  {
    hide CloseSocket, MarkClosed, SQ.Append;
    SQ.EmptyIff(c.queue);
    var c1 := c.(queue := SQ.Append(c.queue, bytes), accepted := c.accepted + bytes);
    ShutEnds(c1, PlatformError);
    hide SQ.Unsent;
  }

  lemma FinishEnds(c: Conn, ok: bool)
    requires Flags(c) && !c.sendInFlight
    ensures var drained := c.closeAfterSend && c.queue.payloads == [];
      Ends(c, FinishCloseAfterSend(c, ok), if drained then Some(Closed) else None, drained && (c.receiveInFlight || c.callbackActive || ok))
  {
    if DrainDone(c) {
      var c1 := MarkClosed(c, Closed).(socket := SendShut, lingering := true);
      SocketEnds(c1);
      hide CloseSocket;
    }
  }

  /** What a completed send leaves: the next bytes, and whether they were the last. */
  lemma TakenFacts(c: Conn, count: nat)
    requires SQ.Valid(c.queue) && Consumable(c.queue, count) && c.completed + SQ.Unsent(c.queue) == c.accepted
    ensures var c1 := Taken(c, count);
      && |c1.completed| == |c.completed| + count
      && (c1.queue.payloads == [] <==> |c.completed| + count == |c.accepted|)
      && c1 == c.(queue := c1.queue, completed := c1.completed)
  {
    hide SQ.Unsent, SQ.Counted, SQ.Consume, SQ.Front;
    SQ.ConsumeAdvances(c.queue, count);
    SQ.EmptyIff(SQ.Consume(c.queue, count));
  }

  lemma StartSendEnds(c: Conn, ok: bool)
    requires !c.closed && c.socket.Open?
    ensures Ends(c, StartSend(c, ok), if ok then None else Some(PlatformError), false)
    ensures ok ==> StartSend(c, ok).sendInFlight
  {
    hide CloseSocket, MarkClosed;
    ShutEnds(c, PlatformError);
  }

  lemma AdvancedEnds(c: Conn, a: Action)
    requires Flags(c) && !c.closed && !c.sendInFlight && SQ.Valid(c.queue)
    requires c.completed + SQ.Unsent(c.queue) == c.accepted
    requires a.ASendDone? && !a.failed && 0 < a.count && Consumable(c.queue, a.count)
    ensures Ends(c, SendAdvanced(c, a.count, a.ok, a.receiveOk), ShutBy(c, a), Lingers(c, a))
  {
    var c1 := Taken(c, a.count);
    TakenFacts(c, a.count);
    hide Taken, StartSend, FinishCloseAfterSend, Consumable, SQ.Unsent;
    if c1.queue.payloads == [] {
      FinishEnds(c1, a.receiveOk);
    } else {
      StartSendEnds(c1, a.ok);
      var c2 := StartSend(c1, a.ok);
      if c2.closed { ClosedStays(c2, a.receiveOk); } else { BusyStays(c2, a.receiveOk); }
    }
  }

  lemma BusyStays(c: Conn, ok: bool)
    requires c.sendInFlight
    ensures FinishCloseAfterSend(c, ok) == c
  {
  }

  lemma SendDoneEnds(c: Conn, a: Action)
    requires Flags(c) && Stream(c) && c.sendInFlight && a.ASendDone?
    requires !c.closed && !a.failed && 0 < a.count ==> Consumable(c.queue, a.count)
    ensures Ends(c, SendDone(c, a.count, a.failed, a.ok, a.receiveOk), ShutBy(c, a), Lingers(c, a))
  {
    hide SendAdvanced, CloseSocket, MarkClosed, Consumable, SQ.Unsent, SQ.Valid;
    var c1 := c.(sendInFlight := false, pending := c.pending - 1);
    ShutEnds(c1, Closed);
    ShutEnds(c1, PlatformError);
    if !c.closed && !a.failed && 0 < a.count { AdvancedEnds(c1, a); }
  }

  lemma ReceiveDoneEnds(c: Conn, a: Action)
    requires Flags(c) && c.receiveInFlight && a.AReceiveDone?
    ensures Ends(c, ReceiveDone(c, a.count, a.failed, a.ok), ShutBy(c, a), Lingers(c, a))
  {
    hide CloseSocket, MarkClosed, StartReceive;
    var c1 := c.(receiveInFlight := false, pending := c.pending - 1);
    ShutEnds(c1, Closed);
    ShutEnds(c1, PlatformError);
    ReceiveEnds(c1, a.ok);
  }

  lemma CallbackDoneEnds(c: Conn, a: Action)
    requires Flags(c) && c.callbackActive && a.ALeave?
    ensures Ends(c, CallbackDone(c, a.ok), ShutBy(c, a), Lingers(c, a))
  {
    hide StartReceive;
    ReceiveEnds(c.(callbackActive := false), a.ok);
  }

  lemma CloseAfterSendEnds(c: Conn, a: Action)
    requires Flags(c) && Stream(c) && a.ACloseAfterSend?
    ensures Ends(c, CloseAfterSend(c, a.ok), ShutBy(c, a), Lingers(c, a))
  {
    hide FinishCloseAfterSend, SQ.Unsent;
    if !c.closed {
      SQ.EmptyIff(c.queue);
      if c.sendInFlight { BusyStays(c.(closeAfterSend := true), a.ok); } else { FinishEnds(c.(closeAfterSend := true), a.ok); }
    }
  }

  lemma CallEnds(w: World, a: Action)
    requires Flags(w.conn) && Stream(w.conn) && Enabled(w, a)
    requires a.AStart? || a.ASend? || a.AClose? || a.ACloseAfterSend? || a.ASetObserver? || a.APause? || a.AResume?
    ensures Ends(w.conn, Apply(w, a).conn, ShutBy(w.conn, a), Lingers(w.conn, a))
  {
    hide StartReceive, Send, MarkClosed, CloseSocket, CloseAfterSend, FinishCloseAfterSend, Stream;
    var c := w.conn;
    match a
    case AStart(_, ok) => ReceiveEnds(c.(started := true), ok);
    case ASend(_, bytes, _, ok) => if CanSend(c) && bytes != [] { SendEnds(c, bytes, ok); }
    case AClose(_) => ShutEnds(c.(closeAfterSend := false), Closed);
    case ACloseAfterSend(_, ok) => CloseAfterSendEnds(c, a);
    case AResume(_, ok) => ReceiveEnds(c.(paused := false), ok);
    case _ =>
  }

  lemma DoneEnds(w: World, a: Action)
    requires Flags(w.conn) && Stream(w.conn) && Threads(w) && Enabled(w, a)
    requires (a.AReceiveDone? || a.ASendDone? || a.ALeave?)
    ensures Ends(w.conn, Apply(w, a).conn, ShutBy(w.conn, a), Lingers(w.conn, a))
  {
    hide ReceiveDone, SendDone, CallbackDone, Consumable, Stream;
    match a
    case AReceiveDone(_, _, _, _) => ReceiveDoneEnds(w.conn, a);
    case ASendDone(_, _, _, _, _) => SendDoneEnds(w.conn, a);
    case ALeave(_, _) => CallbackDoneEnds(w.conn, a);
  }

  lemma StepEnds(w: World, a: Action)
    requires Safe(w) && Enabled(w, a) && !a.ADestroy?
    ensures Ends(w.conn, Apply(w, a).conn, ShutBy(w.conn, a), Lingers(w.conn, a))
  {
    hide Safe, Apply, Enabled, Flags, Stream, Told, Threads, Promised;
    Parts(w);
    if a.AReceiveDone? || a.ASendDone? || a.ALeave? {
      DoneEnds(w, a);
    } else if Between(a) {
      BetweenKeeps(w, a);
    } else {
      CallEnds(w, a);
    }
  }

  /**
    An open connection ends exactly by one of the listed causes and with its code; the first code stays.  After a
    graceful end the sending side is shut and the socket lingers, after any other it is gone.
   */
  lemma EndsForItsCause(ws: seq<World>, acts: seq<Action>, i: nat)
    requires IsRun(ws, acts) && i < |acts| && !acts[i].ADestroy?
    ensures Ends(ws[i].conn, ws[i + 1].conn, ShutBy(ws[i].conn, acts[i]), Lingers(ws[i].conn, acts[i]))
  {
    hide Safe, Apply, Enabled, Ends;
    RunAction(ws, acts, i);
    StepFlag(ws[i], acts[i]);
    RunSafe(ws, acts, i);
    StepEnds(ws[i], acts[i]);
  }

  // How long the socket lingers.

  /** What ends the lingering: the owner closes, the peer is done, or the kernel fails or refuses the next receive. */
  predicate Breaks(a: Action) {
    a.AClose? || (a.AReceiveDone? && (a.failed || a.count == 0 || !a.ok)) || (a.ALeave? && !a.ok)
  }

  lemma CallLingers(w: World, a: Action)
    requires Flags(w.conn) && w.conn.closed && Enabled(w, a)
    requires a.AStart? || a.ASend? || a.AClose? || a.ACloseAfterSend? || a.ASetObserver? || a.APause? || a.AResume?
    ensures Apply(w, a).conn.lingering <==> w.conn.lingering && !Breaks(a)
  {
    var c := w.conn;
    if a.AClose? { SocketEnds(c.(closeAfterSend := false)); }
    hide CloseSocket, FinishCloseAfterSend, SQ.Append;
  }

  lemma DoneLingers(w: World, a: Action)
    requires Flags(w.conn) && Stream(w.conn) && Threads(w) && w.conn.closed && Enabled(w, a)
    requires (a.AReceiveDone? || a.ASendDone? || a.ALeave?)
    ensures Apply(w, a).conn.lingering <==> w.conn.lingering && !Breaks(a)
  {
    hide CloseSocket, SendAdvanced, Consumable, SQ.Unsent, SQ.Valid;
    var c := w.conn;
    SocketEnds(c.(receiveInFlight := false, pending := c.pending - 1));
    SocketEnds(c.(callbackActive := false));
  }

  /** The socket lingers exactly from a graceful end until the first of those. */
  lemma LingersUntil(ws: seq<World>, acts: seq<Action>, i: nat)
    requires IsRun(ws, acts) && i < |acts| && !acts[i].ADestroy?
    ensures ws[i + 1].conn.lingering <==>
      if ws[i].conn.closed then ws[i].conn.lingering && !Breaks(acts[i]) else Lingers(ws[i].conn, acts[i])
  {
    hide Safe, Apply, Enabled, Stream, Told, Threads, Promised;
    RunAction(ws, acts, i);
    var w, a := ws[i], acts[i];
    StepFlag(w, a);
    RunSafe(ws, acts, i);
    Parts(w);
    if !w.conn.closed {
      StepEnds(w, a);
      StepSafe(w, a);
      Parts(ws[i + 1]);
    } else if a.AReceiveDone? || a.ASendDone? || a.ALeave? {
      DoneLingers(w, a);
    } else if Between(a) {
      BetweenKeeps(w, a);
    } else {
      CallLingers(w, a);
    }
  }
}
