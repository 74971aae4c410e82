/** What every run of a TCP connection keeps: the byte stream, the in-flight requests, lingering, and one disconnect. */
module TcpSafety {
  import opened Common
  import opened TcpConnection
  import SQ = SendQueue

  function One(b: bool): int { if b then 1 else 0 }

  /** Requests in flight, socket and lingering. */
  ghost predicate Flags(c: Conn) {
    && c.pending == One(c.sendInFlight) + One(c.receiveInFlight)
    && (!c.closed ==> c.socket.Open? && !c.lingering)
    && (c.closed ==> (c.lingering <==> !c.socket.Gone?) && !c.socket.Open?)
    && (c.lingering ==> c.receiveInFlight || c.callbackActive)
    && (c.callbackActive ==> !c.receiveInFlight)
  }

  /** The stream: completed bytes, then unsent bytes, are the accepted bytes until the close. */
  ghost predicate Stream(c: Conn) {
    && SQ.Valid(c.queue)
    && (!c.closed ==> (c.sendInFlight <==> c.queue.payloads != []))
    && (!c.closed ==> c.completed + SQ.Unsent(c.queue) == c.accepted)
    && (c.closed && !c.sendInFlight ==> c.queue == SQ.EMPTY)
    && c.completed <= c.accepted
    && (c.socket.SendShut? ==> !c.sendInFlight && c.completed == c.accepted)
  }

  ghost predicate NoDisconnect(events: seq<Event>) { forall i :: 0 <= i < |events| ==> events[i].Received? }

  /** The disconnect event is the last one, and it was claimed under the lock. */
  ghost predicate Told(w: World) {
    var c := w.conn;
    && (c.notified ==> c.observer && (w.destroyed || (c.closed && c.pending == 0 && !c.callbackActive)))
    && (w.notifier.Some? || !c.notified ==> NoDisconnect(c.events))
    && (c.notified && w.notifier.None? ==> |c.events| > 0 && c.events[|c.events| - 1].Disconnected? && NoDisconnect(c.events[..|c.events| - 1]))
    && (w.notifier.Some? ==> c.notified)
  }

  /** Threads and the marks they own. */
  ghost predicate Threads(w: World) {
    && w.conn.callbackActive == w.receiver.Some?
    && (w.receiver.Some? ==> w.receiver.value in w.threads && Receives(w.threads[w.receiver.value]))
    && (w.notifier.Some? ==> w.notifier.value in w.threads && w.threads[w.notifier.value].Delivering?)
    && (forall t :: t in w.threads ==> (Receives(w.threads[t]) ==> w.receiver == Some(t)) && (w.threads[t].Delivering? ==> w.notifier == Some(t)))
  }

  predicate Receives(pc: Pc) { pc.Entering? || pc.Inside? }

  ghost predicate Promised(w: World) {
    MustNotify(w.conn) && !w.destroyed ==> exists t :: t in w.threads && w.threads[t].Notify?
  }

  ghost predicate Safe(w: World) { Flags(w.conn) && Stream(w.conn) && Told(w) && Threads(w) && Promised(w) }

  // The locked helpers keep flags and stream.

  lemma EmptyValid()
    ensures SQ.Valid(SQ.EMPTY) && SQ.Unsent(SQ.EMPTY) == []
  {
  }

  lemma Extends(a: Bytes, b: Bytes)
    ensures a <= a + b
  {
  }

  /** Closing for good: the reason, the queue and the socket. */
  lemma ShutKeeps(c: Conn, reason: ErrorCode)
    requires Flags(c) && SQ.Valid(c.queue) && c.completed <= c.accepted
    requires c.closed ==> Stream(c)
    requires c.sendInFlight || c.closed || SQ.Shaped(c.queue)
    ensures Flags(CloseSocket(MarkClosed(c, reason))) && Stream(CloseSocket(MarkClosed(c, reason)))
  {
    assert SQ.Valid(SQ.EMPTY);
  }

  /** A receive may be started from any state that is consistent but for lingering's promise. */
  ghost predicate BeforeReceive(c: Conn) {
    && c.pending == One(c.sendInFlight) + One(c.receiveInFlight)
    && (!c.closed ==> c.socket.Open? && !c.lingering)
    && (c.closed ==> (c.lingering <==> !c.socket.Gone?) && !c.socket.Open?)
    && (c.callbackActive ==> !c.receiveInFlight)
  }

  lemma StartReceiveKeeps(c: Conn, ok: bool)
    requires BeforeReceive(c) && Stream(c)
    ensures Flags(StartReceive(c, ok)) && Stream(StartReceive(c, ok))
  {
    assert SQ.Valid(SQ.EMPTY);
  }

  lemma StartSendKeeps(c: Conn, ok: bool)
    requires Flags(c) && SQ.Valid(c.queue) && c.queue.payloads != [] && !c.closed && !c.sendInFlight
    requires c.completed + SQ.Unsent(c.queue) == c.accepted
    ensures Flags(StartSend(c, ok)) && Stream(StartSend(c, ok))
  {
    hide SQ.Unsent, SQ.Counted;
    EmptyValid();
    Extends(c.completed, SQ.Unsent(c.queue));
  }

  lemma FinishKeeps(c: Conn, ok: bool)
    requires Flags(c) && Stream(c)
    ensures Flags(FinishCloseAfterSend(c, ok)) && Stream(FinishCloseAfterSend(c, ok))
  {
    if DrainDone(c) {
      assert SQ.Valid(SQ.EMPTY);
      SQ.EmptyIff(c.queue);
      assert c.completed == c.accepted;
      var c1 := MarkClosed(c, Closed);
      StartReceiveKeeps(c1.(socket := SendShut, lingering := true), ok);
    }
  }

  // The sections keep flags and stream.

  ghost predicate Sound(c: Conn) { Flags(c) && Stream(c) }

  lemma SendSound(c: Conn, bytes: Bytes, ok: bool)
    requires Sound(c) && CanSend(c) && bytes != []
    ensures Sound(Send(c, bytes, ok))
  {
    hide SQ.Unsent, SQ.Counted, SQ.Append;
    SQ.AppendExtends(c.queue, bytes);
    var c1 := c.(queue := SQ.Append(c.queue, bytes), accepted := c.accepted + bytes);
    assert c1.completed + SQ.Unsent(c1.queue) == c1.accepted;
    SQ.EmptyIff(c1.queue);
    Extends(c.completed, SQ.Unsent(c1.queue));
    if !c1.sendInFlight { StartSendKeeps(c1, ok); }
  }

  lemma CloseSound(c: Conn)
    requires Sound(c)
    ensures Sound(Close(c))
  {
    ShutKeeps(c.(closeAfterSend := false), Closed);
  }

  lemma CloseAfterSendSound(c: Conn, ok: bool)
    requires Sound(c)
    ensures Sound(CloseAfterSend(c, ok))
  {
    FinishKeeps(c.(closeAfterSend := true), ok);
  }

  lemma ReceiveDoneSound(c: Conn, count: nat, failed: bool, ok: bool)
    requires Sound(c) && c.receiveInFlight
    ensures Sound(ReceiveDone(c, count, failed, ok))
  {
    hide SQ.Unsent, SQ.Counted, SQ.Shaped;
    var c1 := c.(receiveInFlight := false, pending := c.pending - 1);
    EmptyValid();
    if c1.lingering {
      if !failed && count != 0 { StartReceiveKeeps(c1, ok); }
    } else if !c1.closed {
      if failed { ShutKeeps(c1, PlatformError); } else if count == 0 { ShutKeeps(c1, Closed); }
    }
  }

  lemma CallbackDoneSound(c: Conn, ok: bool)
    requires Sound(c) && c.callbackActive
    ensures Sound(CallbackDone(c, ok))
  {
    var c1 := c.(callbackActive := false);
    if !c1.closed || c1.lingering { StartReceiveKeeps(c1, ok); }
  }

  lemma AdvancedStream(completed: Bytes, unsent: Bytes, accepted: Bytes, count: nat)
    requires completed + unsent == accepted && count <= |unsent|
    ensures (completed + unsent[..count]) + unsent[count..] == accepted && completed + unsent[..count] <= accepted
  {
    assert unsent == unsent[..count] + unsent[count..];
  }

  lemma SendAdvancedSound(c: Conn, count: nat, sendOk: bool, receiveOk: bool)
    requires Flags(c) && SQ.Valid(c.queue) && Consumable(c.queue, count) && !c.closed && !c.sendInFlight
    requires c.completed + SQ.Unsent(c.queue) == c.accepted
    ensures Sound(SendAdvanced(c, count, sendOk, receiveOk))
  {
    hide SQ.Unsent, SQ.Counted, SQ.Consume, SQ.Front;
    SQ.ConsumeAdvances(c.queue, count);
    AdvancedStream(c.completed, SQ.Unsent(c.queue), c.accepted, count);
    var c1 := c.(queue := SQ.Consume(c.queue, count), completed := c.completed + SQ.Front(c.queue)[..count]);
    SQ.EmptyIff(c1.queue);
    var c2 := if c1.queue.payloads != [] then StartSend(c1, sendOk) else c1;
    if c1.queue.payloads != [] { StartSendKeeps(c1, sendOk); }
    FinishKeeps(c2, receiveOk);
  }

  lemma SendDoneSound(c: Conn, count: nat, failed: bool, sendOk: bool, receiveOk: bool)
    requires Sound(c) && c.sendInFlight && (!c.closed && !failed && 0 < count ==> Consumable(c.queue, count))
    ensures Sound(SendDone(c, count, failed, sendOk, receiveOk))
  {
    hide SQ.Unsent, SQ.Counted;
    EmptyValid();
    var c1 := c.(sendInFlight := false, pending := c.pending - 1);
    if !c1.closed {
      if failed {
        ShutKeeps(c1, PlatformError);
      } else if count == 0 {
        ShutKeeps(c1, Closed);
      } else {
        SendAdvancedSound(c1, count, sendOk, receiveOk);
      }
    }
  }

  // Steps.

  /** What a section leaves alone, and that a connection at its end stays there. */
  ghost predicate Frame(c: Conn, c2: Conn) {
    && c2.observer == c.observer && c2.notified == c.notified && c2.events == c.events && (c.closed ==> c2.closed)
    && (c.closed && c.pending == 0 && !c.callbackActive ==> c2.pending == 0)
  }

  /** A section that ends with MaybeNotifyDisconnected still to run. */
  lemma ThenNotify(w: World, c2: Conn, t: nat)
    requires Safe(w) && !w.destroyed && Sound(c2) && Frame(w.conn, c2) && c2.callbackActive == w.conn.callbackActive
    requires t !in w.threads
    ensures Safe(Then(w, c2, t, Notify))
  {
    var w2 := Then(w, c2, t, Notify);
    hide Flags, Stream;
    assert t in w2.threads && w2.threads[t].Notify?;
  }

  /** A section of a connection that is open afterwards. */
  lemma StillOpen(w: World, c2: Conn)
    requires Safe(w) && !w.destroyed && Sound(c2) && Frame(w.conn, c2) && c2.callbackActive == w.conn.callbackActive
    requires !c2.closed
    ensures Safe(w.(conn := c2))
  {
    hide Flags, Stream;
  }

  lemma StartFrame(c: Conn, ok: bool)
    requires Flags(c)
    ensures Frame(c, Start(c, ok)) && Start(c, ok).callbackActive == c.callbackActive
    ensures Frame(c, StartReceive(c.(paused := false), ok))
    ensures StartReceive(c.(paused := false), ok).callbackActive == c.callbackActive
  {
  }

  lemma StartSafe(w: World, t: nat, ok: bool)
    requires Safe(w) && !w.destroyed && t !in w.threads
    ensures Safe(StartStep(w, t, ok)) && Safe(ResumeStep(w, t, ok))
  {
    hide Stream, Safe, Told, Threads, Promised, SQ.Valid;
    assert Flags(w.conn) && Stream(w.conn) by { Parts(w); }
    StartFrame(w.conn, ok);
    SameStream(w.conn, w.conn.(started := true));
    SameStream(w.conn, w.conn.(paused := false));
    StartReceiveKeeps(w.conn.(started := true), ok);
    StartReceiveKeeps(w.conn.(paused := false), ok);
    var c := Start(w.conn, ok);
    if c.closed { ThenNotify(w, c, t); } else { StillOpen(w, c); }
    var c2 := StartReceive(w.conn.(paused := false), ok);
    if c2.closed { ThenNotify(w, c2, t); } else { StillOpen(w, c2); }
  }

  lemma Parts(w: World)
    requires Safe(w)
    ensures Flags(w.conn) && Stream(w.conn) && Told(w) && Threads(w) && Promised(w) && Sound(w.conn)
  {
  }

  lemma SameStream(c: Conn, c2: Conn)
    requires Stream(c) && c2.queue == c.queue && c2.closed == c.closed && c2.sendInFlight == c.sendInFlight
    requires c2.completed == c.completed && c2.accepted == c.accepted && c2.socket == c.socket
    ensures Stream(c2)
  {
  }

  lemma SendSafe(w: World, t: nat, bytes: Bytes, granted: bool, ok: bool)
    requires Safe(w) && !w.destroyed && t !in w.threads
    ensures Safe(SendStep(w, t, bytes, granted, ok))
  {
    hide Stream, Safe, Told, Threads, Promised, SQ.Append, Flags;
    Parts(w);
    if CanSend(w.conn) && bytes != [] && granted {
      SendSound(w.conn, bytes, ok);
      var c := Send(w.conn, bytes, ok);
      if c.closed { ThenNotify(w, c, t); } else { StillOpen(w, c); }
    }
  }

  lemma CloseSafe(w: World, t: nat)
    requires Safe(w) && !w.destroyed && t !in w.threads
    ensures Safe(Then(w, Close(w.conn), t, Notify))
  {
    hide Stream, Safe, Told, Threads, Promised, Flags;
    Parts(w);
    CloseSound(w.conn);
    ThenNotify(w, Close(w.conn), t);
  }

  lemma CloseAfterSendSafe(w: World, t: nat, ok: bool)
    requires Safe(w) && !w.destroyed && t !in w.threads
    ensures Safe(Then(w, CloseAfterSend(w.conn, ok), t, Notify))
  {
    hide Stream, Safe, Told, Threads, Promised, Flags;
    Parts(w);
    CloseAfterSendSound(w.conn, ok);
    ThenNotify(w, CloseAfterSend(w.conn, ok), t);
  }

  lemma SetObserverSafe(w: World, t: nat)
    requires Safe(w) && !w.destroyed && t !in w.threads && !w.conn.observer
    ensures Safe(Then(w, w.conn.(observer := true), t, Notify))
  {
    hide Stream, SQ.Valid;
    SameStream(w.conn, w.conn.(observer := true));
    var w2 := Then(w, w.conn.(observer := true), t, Notify);
    assert t in w2.threads && w2.threads[t].Notify?;
  }

  lemma PauseSafe(w: World)
    requires Safe(w) && !w.destroyed && !w.conn.closed
    ensures Safe(w.(conn := w.conn.(paused := true)))
  {
    hide Stream, SQ.Valid;
    SameStream(w.conn, w.conn.(paused := true));
  }

  /** What every helper leaves alone. */
  ghost predicate Kept(c: Conn, c2: Conn) {
    && c2.observer == c.observer && c2.notified == c.notified && c2.events == c.events && (c.closed ==> c2.closed)
    && c2.callbackActive == c.callbackActive
  }

  lemma SocketKept(c: Conn)
    ensures Kept(c, CloseSocket(c)) && CloseSocket(c).closed == c.closed
  {
    if c.socket.Gone? { assert CloseSocket(c) == c; } else { assert CloseSocket(c) == c.(socket := Gone, lingering := false); }
  }

  lemma MarkKept(c: Conn, reason: ErrorCode)
    ensures Kept(c, MarkClosed(c, reason)) && MarkClosed(c, reason).closed
  {
  }

  lemma ShutKept(c: Conn, reason: ErrorCode)
    ensures Kept(c, CloseSocket(c)) && Kept(c, CloseSocket(MarkClosed(c, reason)))
    ensures CloseSocket(MarkClosed(c, reason)).closed
  {
    hide CloseSocket, MarkClosed;
    SocketKept(c);
    MarkKept(c, reason);
    SocketKept(MarkClosed(c, reason));
  }

  lemma StartKept(c: Conn, ok: bool)
    ensures Kept(c, StartReceive(c, ok)) && Kept(c, StartSend(c, ok))
  {
    hide CloseSocket, MarkClosed;
    ShutKept(c, PlatformError);
  }

  lemma FinishKept(c: Conn, ok: bool)
    ensures Kept(c, FinishCloseAfterSend(c, ok))
  {
    hide StartReceive;
    StartKept(MarkClosed(c, Closed).(socket := SendShut, lingering := true), ok);
  }

  lemma AdvancedKept(c: Conn, count: nat, sendOk: bool, receiveOk: bool)
    requires Consumable(c.queue, count)
    ensures Kept(c, SendAdvanced(c, count, sendOk, receiveOk))
  {
    hide StartSend, FinishCloseAfterSend, SQ.Consume, SQ.Front;
    var c1 := c.(queue := SQ.Consume(c.queue, count), completed := c.completed + SQ.Front(c.queue)[..count]);
    StartKept(c1, sendOk);
    FinishKept(if c1.queue.payloads != [] then StartSend(c1, sendOk) else c1, receiveOk);
  }

  lemma ReceiveDoneFrame(c: Conn, count: nat, failed: bool, ok: bool)
    requires Flags(c) && c.receiveInFlight
    ensures var c2 := ReceiveDone(c, count, failed, ok);
      && c2.observer == c.observer && c2.notified == c.notified && c2.events == c.events && (c.closed ==> c2.closed)
      && !c.callbackActive && (c2.callbackActive ==> !c2.closed)
  {
    hide StartReceive, CloseSocket, MarkClosed;
    var c1 := c.(receiveInFlight := false, pending := c.pending - 1);
    StartKept(c1, ok);
    ShutKept(c1, Closed);
    ShutKept(c1, PlatformError);
  }

  lemma ReceiveDoneSafe(w: World, t: nat, count: nat, failed: bool, ok: bool)
    requires Safe(w) && !w.destroyed && t !in w.threads && w.conn.receiveInFlight
    ensures Safe(ReceiveDoneStep(w, t, count, failed, ok))
  {
    hide Stream, SQ.Valid, ReceiveDone;
    ReceiveDoneSound(w.conn, count, failed, ok);
    ReceiveDoneFrame(w.conn, count, failed, ok);
    var c := ReceiveDone(w.conn, count, failed, ok);
    if c.callbackActive {
      var w2 := Then(w, c, t, Entering(count, c.observer)).(receiver := Some(t));
      assert Threads(w2);
    } else {
      ThenNotify(w, c, t);
    }
  }

  lemma SendDoneFrame(c: Conn, count: nat, failed: bool, sendOk: bool, receiveOk: bool)
    requires Flags(c) && c.sendInFlight && (!c.closed && !failed && 0 < count ==> Consumable(c.queue, count))
    ensures var c2 := SendDone(c, count, failed, sendOk, receiveOk);
      Frame(c, c2) && c2.callbackActive == c.callbackActive
  {
    hide SendAdvanced, CloseSocket, MarkClosed;
    var c1 := c.(sendInFlight := false, pending := c.pending - 1);
    ShutKept(c1, Closed);
    ShutKept(c1, PlatformError);
    if Consumable(c1.queue, count) { AdvancedKept(c1, count, sendOk, receiveOk); }
  }

  lemma SendDoneSafe(w: World, t: nat, count: nat, failed: bool, sendOk: bool, receiveOk: bool)
    requires Safe(w) && Enabled(w, ASendDone(t, count, failed, sendOk, receiveOk))
    ensures Safe(Then(w, SendDone(w.conn, count, failed, sendOk, receiveOk), t, Notify))
  {
    hide Stream, Flags, Told, Threads, Promised, SendDone, Safe, Consumable;
    Parts(w);
    SendDoneSound(w.conn, count, failed, sendOk, receiveOk);
    SendDoneFrame(w.conn, count, failed, sendOk, receiveOk);
    ThenNotify(w, SendDone(w.conn, count, failed, sendOk, receiveOk), t);
  }

  lemma EnterSafe(w: World, t: nat)
    requires Safe(w) && Enabled(w, AEnter(t))
    ensures Safe(Apply(w, AEnter(t)))
  {
    hide Stream, SQ.Valid;
    var w2 := Apply(w, AEnter(t));
    SameStream(w.conn, w2.conn);
    assert !w.conn.notified;
    assert Promised(w2) by { assert !MustNotify(w2.conn); }
  }

  lemma LeaveFrame(c: Conn, ok: bool)
    requires Flags(c) && c.callbackActive
    ensures var c2 := CallbackDone(c, ok);
      && c2.observer == c.observer && c2.notified == c.notified && c2.events == c.events && (c.closed ==> c2.closed)
      && !c2.callbackActive
  {
  }

  lemma LeaveSafe(w: World, t: nat, ok: bool)
    requires Safe(w) && Enabled(w, ALeave(t, ok))
    ensures Safe(Apply(w, ALeave(t, ok)))
  {
    hide Stream, SQ.Valid, CallbackDone;
    CallbackDoneSound(w.conn, ok);
    LeaveFrame(w.conn, ok);
    var w2 := Then(w, CallbackDone(w.conn, ok), t, Notify).(receiver := None);
    assert t in w2.threads && w2.threads[t].Notify?;
    assert Threads(w2);
  }

  lemma NotifySafe(w: World, t: nat)
    requires Safe(w) && Enabled(w, ANotify(t))
    ensures Safe(NotifyStep(w, t))
  {
    hide Stream, SQ.Valid;
    var w2 := NotifyStep(w, t);
    SameStream(w.conn, w2.conn);
    assert Threads(w2);
    assert Told(w2);
    assert Promised(w2) by { assert !MustNotify(w2.conn); }
  }

  lemma DeliverSafe(w: World, t: nat)
    requires Safe(w) && Enabled(w, ADeliver(t))
    ensures Safe(Apply(w, ADeliver(t)))
  {
    hide Stream, SQ.Valid;
    var w2 := Apply(w, ADeliver(t));
    SameStream(w.conn, w2.conn);
    assert w2.conn.events[..|w2.conn.events| - 1] == w.conn.events;
    assert Threads(w2) && Told(w2);
  }

  lemma DestroySafe(w: World)
    requires Safe(w) && Enabled(w, ADestroy)
    ensures Flags(w.conn) && Told(DestroyStep(w)) && DestroyStep(w).conn.callbackActive == false && !w.conn.sendInFlight
    ensures !w.conn.receiveInFlight
    ensures var c := DestroyStep(w).conn;
      c.observer ==> c.notified && |c.events| > 0 && c.events[|c.events| - 1].Disconnected? && NoDisconnect(c.events[..|c.events| - 1])
  {
    hide Stream, SQ.Valid;
    var c2 := DestroyStep(w).conn;
    assert w.notifier.None? && w.receiver.None?;
    if w.conn.observer && !w.conn.notified { assert c2.events[..|c2.events| - 1] == w.conn.events; }
  }

  lemma StepSafe(w: World, a: Action)
    requires Safe(w) && Enabled(w, a) && !a.ADestroy?
    ensures Safe(Apply(w, a))
  {
    hide Safe;
    match a
    case AStart(t, ok) => StartSafe(w, t, ok);
    case ASend(t, bytes, granted, ok) => SendSafe(w, t, bytes, granted, ok);
    case AClose(t) => CloseSafe(w, t);
    case ACloseAfterSend(t, ok) => CloseAfterSendSafe(w, t, ok);
    case ASetObserver(t) => SetObserverSafe(w, t);
    case APause => if !w.conn.closed { PauseSafe(w); }
    case AResume(t, ok) => StartSafe(w, t, ok);
    case AReceiveDone(t, count, failed, ok) => ReceiveDoneSafe(w, t, count, failed, ok);
    case ASendDone(t, count, failed, ok, receiveOk) => SendDoneSafe(w, t, count, failed, ok, receiveOk);
    case AEnter(t) => EnterSafe(w, t);
    case ALeave(t, ok) => LeaveSafe(w, t, ok);
    case ANotify(t) => NotifySafe(w, t);
    case ADeliver(t) => DeliverSafe(w, t);
  }
}
