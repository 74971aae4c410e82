/** One TCP connection: its state under the mutex, its locked helpers and handlers, and the threads that run them. */
module TcpConnection {
  import opened Common
  import SQ = SendQueue

  type Bytes = seq<nat>

  datatype Socket = Open | SendShut | Gone

  datatype Event = Received(count: nat) | Disconnected(reason: ErrorCode)

  /** `accepted`, `completed` and `events` are history. */
  datatype Conn = Conn(
    socket: Socket, observer: bool, started: bool, queue: SQ.Queue, sendInFlight: bool, receiveInFlight: bool, closeAfterSend: bool,
    lingering: bool, pending: int, callbackActive: bool, paused: bool, closed: bool, notified: bool, reason: ErrorCode,
    accepted: Bytes, completed: Bytes, events: seq<Event>)

  const FRESH: Conn := Conn(Open, false, false, SQ.EMPTY, false, false, false, false, 0, false, false, false, false, Ok, [], [], [])

  // Locked helpers.

  function MarkClosed(c: Conn, reason: ErrorCode): Conn {
    if c.closed then c
    else c.(closed := true, reason := reason, queue := if c.sendInFlight then c.queue else SQ.EMPTY)
  }

  function CloseSocket(c: Conn): Conn { if c.socket.Gone? then c else c.(socket := Gone, lingering := false) }

  predicate MayReceive(c: Conn) {
    && !((c.closed && !c.lingering) || c.socket.Gone?)
    && (c.lingering || (c.started && !c.paused))
    && !c.receiveInFlight && !c.callbackActive
  }

  /** `ok` is whether the kernel takes the request. */
  function StartReceive(c: Conn, ok: bool): Conn {
    if !MayReceive(c) then c
    else if ok then c.(receiveInFlight := true, pending := c.pending + 1)
    else CloseSocket(MarkClosed(c, PlatformError))
  }

  function StartSend(c: Conn, ok: bool): Conn {
    if c.closed || c.socket.Gone? then c
    else if ok then c.(sendInFlight := true, pending := c.pending + 1)
    else CloseSocket(MarkClosed(c, PlatformError))
  }

  function LingerClose(c: Conn, ok: bool): Conn {
    if c.socket.Gone? then c else StartReceive(c.(socket := SendShut, lingering := true), ok)
  }

  predicate DrainDone(c: Conn) { c.closeAfterSend && !c.closed && !c.sendInFlight && c.queue.payloads == [] }

  function FinishCloseAfterSend(c: Conn, ok: bool): Conn {
    if DrainDone(c) then LingerClose(MarkClosed(c, Closed), ok) else c
  }

  // Sections of the calls and of the completion handlers.

  function Start(c: Conn, ok: bool): Conn { StartReceive(c.(started := true), ok) }

  function CanSend(c: Conn): bool { !c.closed && !c.closeAfterSend }

  function Send(c: Conn, bytes: Bytes, ok: bool): Conn {
    var c1 := c.(queue := SQ.Append(c.queue, bytes), accepted := c.accepted + bytes);
    if c1.sendInFlight then c1 else StartSend(c1, ok)
  }

  function Close(c: Conn): Conn { CloseSocket(MarkClosed(c.(closeAfterSend := false), Closed)) }

  function CloseAfterSend(c: Conn, ok: bool): Conn {
    if c.closed then c else FinishCloseAfterSend(c.(closeAfterSend := true), ok)
  }

  /** The completion of a receive; `count` is 0 when the peer closed its side. */
  function ReceiveDone(c: Conn, count: nat, failed: bool, ok: bool): Conn {
    var c1 := c.(receiveInFlight := false, pending := c.pending - 1);
    if c1.lingering then (if failed || count == 0 then CloseSocket(c1) else StartReceive(c1, ok))
    else if c1.closed then c1
    else if failed then CloseSocket(MarkClosed(c1, PlatformError))
    else if count == 0 then CloseSocket(MarkClosed(c1, Closed))
    else c1.(callbackActive := true)
  }

  /** The callback returned. */
  function CallbackDone(c: Conn, ok: bool): Conn {
    var c1 := c.(callbackActive := false);
    if !c1.closed || c1.lingering then StartReceive(c1, ok) else c1
  }

  function SendDone(c: Conn, count: nat, failed: bool, sendOk: bool, receiveOk: bool): Conn
    requires !c.closed && !failed && 0 < count ==> Consumable(c.queue, count)
  {
    var c1 := c.(sendInFlight := false, pending := c.pending - 1);
    if c1.closed then c1.(queue := SQ.EMPTY)
    else if failed then CloseSocket(MarkClosed(c1, PlatformError))
    else if count == 0 then CloseSocket(MarkClosed(c1, Closed))
    else SendAdvanced(c1, count, sendOk, receiveOk)
  }

  predicate Consumable(q: SQ.Queue, count: nat) { SQ.Shaped(q) && q.payloads != [] && count <= |SQ.Front(q)| }

  function Taken(c: Conn, count: nat): Conn
    requires Consumable(c.queue, count)
  {
    c.(queue := SQ.Consume(c.queue, count), completed := c.completed + SQ.Front(c.queue)[..count])
  }

  function SendAdvanced(c: Conn, count: nat, sendOk: bool, receiveOk: bool): Conn
    requires Consumable(c.queue, count)
  {
    var c1 := Taken(c, count);
    var c2 := if c1.queue.payloads != [] then StartSend(c1, sendOk) else c1;
    FinishCloseAfterSend(c2, receiveOk)
  }

  predicate MustNotify(c: Conn) { c.observer && c.closed && c.pending == 0 && !c.callbackActive && !c.notified }

  // Threads between two sections.

  datatype Pc =
    | Notify                     // about to run MaybeNotifyDisconnected
    | Entering(count: nat, heard: bool) // about to call OnBytesReceived, on the observer seen under the lock
    | Inside                     // in OnBytesReceived
    | Delivering(code: ErrorCode) // about to call OnDisconnected

  /** `receiver` and `notifier` are history: the threads that own the callback and the notification. */
  datatype World = World(conn: Conn, threads: map<nat, Pc>, receiver: Option<nat>, notifier: Option<nat>,
      destroyed: bool)

  datatype Action =
    | AStart(t: nat, ok: bool)
    | ASend(t: nat, bytes: Bytes, granted: bool, ok: bool)
    | AClose(t: nat)
    | ACloseAfterSend(t: nat, ok: bool)
    | ASetObserver(t: nat)
    | APause
    | AResume(t: nat, ok: bool)
    | AReceiveDone(t: nat, count: nat, failed: bool, ok: bool)
    | ASendDone(t: nat, count: nat, failed: bool, ok: bool, receiveOk: bool)
    | AEnter(t: nat)
    | ALeave(t: nat, ok: bool)
    | ANotify(t: nat)
    | ADeliver(t: nat)
    | ADestroy

  predicate Enabled(w: World, a: Action) {
    && !w.destroyed
    && match a
       case AStart(t, _) => t !in w.threads && !w.conn.started
       case ASend(t, _, _, _) => t !in w.threads
       case AClose(t) => t !in w.threads
       case ACloseAfterSend(t, _) => t !in w.threads
       case ASetObserver(t) => t !in w.threads && !w.conn.observer
       case APause => true
       case AResume(t, _) => t !in w.threads
       case AReceiveDone(t, _, _, _) => t !in w.threads && w.conn.receiveInFlight
       case ASendDone(t, count, failed, _, _) =>
         && t !in w.threads && w.conn.sendInFlight
         && (!w.conn.closed && !failed && 0 < count ==> Consumable(w.conn.queue, count))
       case AEnter(t) => t in w.threads && w.threads[t].Entering?
       case ALeave(t, _) => t in w.threads && w.threads[t].Inside?
       case ANotify(t) => t in w.threads && w.threads[t].Notify?
       case ADeliver(t) => t in w.threads && w.threads[t].Delivering?
       case ADestroy => w.threads == map[] && w.conn.pending == 0
  }

  function Then(w: World, c: Conn, t: nat, pc: Pc): World { w.(conn := c, threads := w.threads[t := pc]) }
  function Leave(w: World, t: nat): World { w.(threads := w.threads - {t}) }

  function NotifyStep(w: World, t: nat): World {
    if MustNotify(w.conn) then w.(conn := w.conn.(notified := true), threads := w.threads[t := Delivering(w.conn.reason)], notifier := Some(t))
    else Leave(w, t)
  }

  function ReceiveDoneStep(w: World, t: nat, count: nat, failed: bool, ok: bool): World {
    var c := ReceiveDone(w.conn, count, failed, ok);
    if c.callbackActive && !w.conn.callbackActive then Then(w, c, t, Entering(count, c.observer)).(receiver := Some(t))
    else Then(w, c, t, Notify)
  }

  function SendStep(w: World, t: nat, bytes: Bytes, granted: bool, ok: bool): World {
    if !CanSend(w.conn) || bytes == [] || !granted then w
    else var c := Send(w.conn, bytes, ok); if c.closed then Then(w, c, t, Notify) else w.(conn := c)
  }

  function ResumeStep(w: World, t: nat, ok: bool): World {
    if w.conn.closed then w
    else var c := StartReceive(w.conn.(paused := false), ok); if c.closed then Then(w, c, t, Notify) else w.(conn := c)
  }

  function StartStep(w: World, t: nat, ok: bool): World {
    var c := Start(w.conn, ok);
    if c.closed then Then(w, c, t, Notify) else w.(conn := c)
  }

  function DestroyStep(w: World): World {
    var c := w.conn.(queue := SQ.EMPTY, socket := Gone);
    var reason := if c.closed then c.reason else Closed;
    w.(destroyed := true, conn := if c.observer && !c.notified then c.(notified := true, events := c.events + [Disconnected(reason)]) else c)
  }

  function Apply(w: World, a: Action): World
    requires Enabled(w, a)
  {
    match a
    case AStart(t, ok) => StartStep(w, t, ok)
    case ASend(t, bytes, granted, ok) => SendStep(w, t, bytes, granted, ok)
    case AClose(t) => Then(w, Close(w.conn), t, Notify)
    case ACloseAfterSend(t, ok) => Then(w, CloseAfterSend(w.conn, ok), t, Notify)
    case ASetObserver(t) => Then(w, w.conn.(observer := true), t, Notify)
    case APause => if w.conn.closed then w else w.(conn := w.conn.(paused := true))
    case AResume(t, ok) => ResumeStep(w, t, ok)
    case AReceiveDone(t, count, failed, ok) => ReceiveDoneStep(w, t, count, failed, ok)
    case ASendDone(t, count, failed, ok, receiveOk) => Then(w, SendDone(w.conn, count, failed, ok, receiveOk), t, Notify)
    case AEnter(t) =>
      var heard := if w.threads[t].heard then [Received(w.threads[t].count)] else [];
      w.(conn := w.conn.(events := w.conn.events + heard), threads := w.threads[t := Inside])
    case ALeave(t, ok) => Then(w, CallbackDone(w.conn, ok), t, Notify).(receiver := None)
    case ANotify(t) => NotifyStep(w, t)
    case ADeliver(t) =>
      Leave(w, t).(conn := w.conn.(events := w.conn.events + [Disconnected(w.threads[t].code)]), notifier := None)
    case ADestroy => DestroyStep(w)
  }
}
