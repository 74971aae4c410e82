/** The connection object: the locked helpers and handlers as methods that change its fields. */
module TcpState {
  import opened Common
  import opened TcpConnection
  import SQ = SendQueue

  /** Bytes taken from the caller, bytes the kernel reported sent, and callbacks made: history only. */
  datatype History = History(accepted: Bytes, completed: Bytes, events: seq<Event>)

  class ConnectionState {
    var socket: Socket
    var observer: bool
    var started: bool
    var queue: SQ.Queue
    var sendInFlight: bool
    var receiveInFlight: bool
    var closeAfterSend: bool
    var lingering: bool
    var pending: int
    var callbackActive: bool
    var paused: bool
    var closed: bool
    var notified: bool
    var reason: ErrorCode
    ghost var history: History

    constructor ()
      ensures View() == FRESH
    {
      socket, observer, started, queue, sendInFlight, receiveInFlight := Open, false, false, SQ.EMPTY, false, false;
      closeAfterSend, lingering, pending, callbackActive, paused, closed, notified, reason := false, false, 0, false, false, false, false, Ok;
      history := History([], [], []);
    }

    ghost function View(): Conn
      reads this
    {
      Conn(socket, observer, started, queue, sendInFlight, receiveInFlight, closeAfterSend, lingering, pending, callbackActive, paused,
           closed, notified, reason, history.accepted, history.completed, history.events)
    }

    method MarkClosedLocked(why: ErrorCode)
      modifies this`closed, this`reason, this`queue
      ensures View() == MarkClosed(old(View()), why)
    {
      if closed { return; }
      reason := why;
      closed := true;
      if !sendInFlight { queue := SQ.EMPTY; }
    }

    method CloseSocketLocked()
      modifies this`socket, this`lingering
      ensures View() == CloseSocket(old(View()))
    {
      if socket.Gone? { return; }
      socket := Gone;
      lingering := false;
    }

    method StartReceiveLocked(accepted: bool) returns (ok: bool)
      modifies this`receiveInFlight, this`pending, this`closed, this`reason, this`queue, this`socket, this`lingering
      ensures View() == StartReceive(old(View()), accepted)
      ensures !ok ==> old((closed && !lingering) || socket.Gone?) || (closed && socket.Gone?)
    {
      if (closed && !lingering) || socket.Gone? { return false; }
      if !lingering && (!started || paused) { return true; }
      if receiveInFlight || callbackActive { return true; }
      if !accepted {
        MarkClosedLocked(PlatformError);
        CloseSocketLocked();
        return false;
      }
      receiveInFlight := true;
      pending := pending + 1;
      return true;
    }

    method StartSendLocked(accepted: bool) returns (ok: bool)
      modifies this`sendInFlight, this`pending, this`closed, this`reason, this`queue, this`socket, this`lingering
      ensures View() == StartSend(old(View()), accepted)
      ensures ok ==> !closed && sendInFlight
    {
      if closed || socket.Gone? { return false; }
      if !accepted {
        MarkClosedLocked(PlatformError);
        CloseSocketLocked();
        return false;
      }
      sendInFlight := true;
      pending := pending + 1;
      return true;
    }

    method FinishCloseAfterSendLocked(accepted: bool)
      modifies this`receiveInFlight, this`pending, this`closed, this`reason, this`queue, this`socket, this`lingering
      ensures View() == FinishCloseAfterSend(old(View()), accepted)
    {
      if !closeAfterSend || closed || sendInFlight || queue.payloads != [] { return; }
      MarkClosedLocked(Closed);
      if socket.Gone? { return; }
      socket := SendShut;
      lingering := true;
      var ok := StartReceiveLocked(accepted);
    }

    method SendLocked(bytes: Bytes, granted: bool, accepted: bool) returns (code: ErrorCode)
      modifies this`sendInFlight, this`pending, this`closed, this`reason, this`queue, this`socket, this`lingering, this`history
      ensures !CanSend(old(View())) ==> code == Closed
      ensures CanSend(old(View())) && bytes == [] ==> code == Ok
      ensures CanSend(old(View())) && bytes != [] && !granted ==> code == WouldBlock
      ensures View() == if CanSend(old(View())) && bytes != [] && granted then Send(old(View()), bytes, accepted)
        else old(View())
    {
      if closed || closeAfterSend { return Closed; }
      if bytes == [] { return Ok; }
      if !granted { return WouldBlock; }
      queue := SQ.Append(queue, bytes);
      history := history.(accepted := history.accepted + bytes);
      if sendInFlight { return Ok; }
      var ok := StartSendLocked(accepted);
      return if ok then Ok else PlatformError;
    }

    method CloseLocked()
      modifies this`closeAfterSend, this`closed, this`reason, this`queue, this`socket, this`lingering
      ensures View() == Close(old(View()))
    {
      hide CloseSocket, MarkClosed;
      closeAfterSend := false;
      MarkClosedLocked(Closed);
      CloseSocketLocked();
    }

    method CloseAfterSendLocked(accepted: bool)
      modifies this`closeAfterSend, this`receiveInFlight, this`pending, this`closed, this`reason, this`queue, this`socket, this`lingering
      ensures View() == CloseAfterSend(old(View()), accepted)
    {
      if closed { return; }
      closeAfterSend := true;
      FinishCloseAfterSendLocked(accepted);
    }

    /** The first section of OnReceiveCompleted; `deliver` says that the observer is called next. */
    method ReceiveCompleted(count: nat, failed: bool, accepted: bool) returns (deliver: bool)
      modifies this`callbackActive, this`receiveInFlight, this`pending, this`closed, this`reason, this`queue, this`socket, this`lingering
      ensures View() == ReceiveDone(old(View()), count, failed, accepted)
      ensures deliver <==> !old(lingering) && !old(closed) && !failed && count > 0
    {
      hide StartReceive, CloseSocket, MarkClosed;
      receiveInFlight := false;
      pending := pending - 1;
      assert View() == old(View()).(receiveInFlight := false, pending := old(pending) - 1);
      if lingering {
        if failed || count == 0 { CloseSocketLocked(); } else { var ok := StartReceiveLocked(accepted); }
        return false;
      }
      if closed { return false; }
      if failed || count == 0 {
        MarkClosedLocked(if failed then PlatformError else Closed);
        CloseSocketLocked();
        return false;
      }
      callbackActive := true;
      return true;
    }

    method CallbackReturned(accepted: bool)
      modifies this`callbackActive, this`receiveInFlight, this`pending, this`closed, this`reason, this`queue, this`socket, this`lingering
      ensures View() == CallbackDone(old(View()), accepted)
    {
      callbackActive := false;
      if !closed || lingering { var ok := StartReceiveLocked(accepted); }
    }

    method SendCompleted(count: nat, failed: bool, sendAccepted: bool, receiveAccepted: bool)
      requires !closed && !failed && 0 < count ==> Consumable(queue, count)
      modifies this`sendInFlight, this`receiveInFlight, this`pending, this`closed, this`reason, this`queue, this`socket, this`lingering, this`history
      ensures View() == SendDone(old(View()), count, failed, sendAccepted, receiveAccepted)
    {
      hide SendAdvanced, CloseSocket, MarkClosed, Consumable;
      pending := pending - 1;
      sendInFlight := false;
      assert View() == old(View()).(sendInFlight := false, pending := old(pending) - 1);
      if closed {
        queue := SQ.EMPTY;
        return;
      }
      if failed || count == 0 {
        MarkClosedLocked(if failed then PlatformError else Closed);
        CloseSocketLocked();
        return;
      }
      Advance(count, sendAccepted, receiveAccepted);
    }

    method Advance(count: nat, sendAccepted: bool, receiveAccepted: bool)
      requires Consumable(queue, count)
      modifies this`sendInFlight, this`receiveInFlight, this`pending, this`closed, this`reason, this`queue, this`socket, this`lingering, this`history
      ensures View() == SendAdvanced(old(View()), count, sendAccepted, receiveAccepted)
    {
      hide StartSend, FinishCloseAfterSend, SQ.Consume, SQ.Front, Consumable;
      TakeCompleted(count);
      if queue.payloads != [] { var ok := StartSendLocked(sendAccepted); }
      FinishCloseAfterSendLocked(receiveAccepted);
    }

    /** The queue gives up what was sent. */
    method TakeCompleted(count: nat)
      requires Consumable(queue, count)
      modifies this`queue, this`history
      ensures View() == Taken(old(View()), count)
    {
      hide SQ.Consume, SQ.Front;
      history := history.(completed := history.completed + SQ.Front(queue)[..count]);
      queue := SQ.Consume(queue, count);
    }

    /** The claim of MaybeNotifyDisconnected: at most one caller gets to deliver the reason. */
    method ClaimDisconnect() returns (claim: Option<ErrorCode>)
      modifies this`notified
      ensures claim == if MustNotify(old(View())) then Some(reason) else None
      ensures View() == if claim.Some? then old(View()).(notified := true) else old(View())
    {
      if !observer || !closed || pending != 0 || callbackActive || notified { return None; }
      notified := true;
      return Some(reason);
    }
  }
}
