/** The connection tells its story truly: what it was asked for, accepted, sent and passed on, and why it ended. */
module TcpHistory {
  import opened Common
  import opened TcpConnection
  import opened TcpSafety
  import opened TcpRuns
  import opened TcpTraffic
  import opened TcpOutcome
  import SQ = SendQueue

  /** What the actions of a run amount to. */
  datatype Past = Past(started: bool, paused: bool, drain: bool, observer: bool, accepted: Bytes, completed: nat,
      chunks: seq<nat>)

  const NOTHING := Past(false, false, false, false, [], 0, [])

  /** One more action; `closed` is whether the connection had ended. */
  function Noted(p: Past, closed: bool, a: Action): Past {
    match a
    case AStart(_, _) => p.(started := true)
    case APause => if closed then p else p.(paused := true)
    case AResume(_, _) => if closed then p else p.(paused := false)
    case ACloseAfterSend(_, _) => if closed then p else p.(drain := true)
    case ASetObserver(_) => p.(observer := true)
    case ASend(_, bytes, granted, _) => if closed || p.drain || !granted then p else p.(accepted := p.accepted + bytes)
    case ASendDone(_, count, failed, _, _) => if closed || failed then p else p.(completed := p.completed + count)
    case AReceiveDone(_, count, failed, _) =>
      if closed || failed || count == 0 || !p.observer then p else p.(chunks := p.chunks + [count])
    case _ => p
  }

  ghost function PastOf(ws: seq<World>, acts: seq<Action>, i: nat): Past
    requires i <= |acts| < |ws|
  {
    if i == 0 then NOTHING else Noted(PastOf(ws, acts, i - 1), ws[i - 1].conn.closed, acts[i - 1])
  }

  /** The sizes of the chunks the observer was called with. */
  function Chunks(events: seq<Event>): seq<nat> {
    if events == [] then []
    else Chunks(events[..|events| - 1]) + if events[|events| - 1].Received? then [events[|events| - 1].count] else []
  }

  /** The chunk a thread is about to call the observer with. */
  function InHand(w: World): seq<nat> {
    if w.receiver.Some? && w.receiver.value in w.threads && w.threads[w.receiver.value].Entering?
       && w.threads[w.receiver.value].heard then [w.threads[w.receiver.value].count] else []
  }

  /** The fields that only their own actions change. */
  ghost predicate Agrees(c: Conn, p: Past) {
    && c.started == p.started && c.paused == p.paused && c.observer == p.observer
    && (!c.closed ==> c.closeAfterSend == p.drain)
    && c.accepted == p.accepted && |c.completed| == p.completed
  }

  /** A section that changes none of them. */
  ghost predicate Plain(c: Conn, c2: Conn) {
    && c2.started == c.started && c2.paused == c.paused && c2.observer == c.observer
    && c2.closeAfterSend == c.closeAfterSend
    && c2.accepted == c.accepted && c2.completed == c.completed && c2.events == c.events && (c.closed ==> c2.closed)
  }

  lemma SocketPlain(c: Conn)
    ensures Plain(c, CloseSocket(c))
  {
    if !c.socket.Gone? { assert CloseSocket(c) == c.(socket := Gone, lingering := false); }
  }

  lemma ShutPlain(c: Conn, why: ErrorCode)
    ensures Plain(c, CloseSocket(c)) && Plain(c, MarkClosed(c, why)) && Plain(c, CloseSocket(MarkClosed(c, why)))
  {
    hide CloseSocket;
    SocketPlain(c);
    SocketPlain(MarkClosed(c, why));
  }

  lemma StartPlain(c: Conn, ok: bool)
    ensures Plain(c, StartReceive(c, ok)) && Plain(c, StartSend(c, ok))
  {
    hide CloseSocket, MarkClosed;
    ShutPlain(c, PlatformError);
  }

  lemma FinishPlain(c: Conn, ok: bool)
    ensures Plain(c, FinishCloseAfterSend(c, ok))
  {
    hide StartReceive, MarkClosed;
    ShutPlain(c, Closed);
    var c1 := MarkClosed(c, Closed);
    StartPlain(c1.(socket := SendShut, lingering := true), ok);
  }

  lemma AdvancedAgrees(c: Conn, count: nat, sendOk: bool, receiveOk: bool, p: Past)
    requires Agrees(c, p) && SQ.Valid(c.queue) && Consumable(c.queue, count) && !c.closed
    requires c.completed + SQ.Unsent(c.queue) == c.accepted
    ensures Agrees(SendAdvanced(c, count, sendOk, receiveOk), p.(completed := p.completed + count))
  {
    TakenFacts(c, count);
    hide Taken, StartSend, FinishCloseAfterSend, Consumable, SQ.Unsent, SQ.Valid;
    var c1 := Taken(c, count);
    StartPlain(c1, sendOk);
    FinishPlain(if c1.queue.payloads != [] then StartSend(c1, sendOk) else c1, receiveOk);
  }

  lemma SendDoneAgrees(c: Conn, a: Action, p: Past)
    requires Agrees(c, p) && Stream(c) && c.sendInFlight && a.ASendDone?
    requires !c.closed && !a.failed && 0 < a.count ==> Consumable(c.queue, a.count)
    ensures Agrees(SendDone(c, a.count, a.failed, a.ok, a.receiveOk), Noted(p, c.closed, a))
  {
    hide SendAdvanced, CloseSocket, MarkClosed, Consumable, SQ.Unsent, SQ.Valid;
    var c1 := c.(sendInFlight := false, pending := c.pending - 1);
    ShutPlain(c1, Closed);
    ShutPlain(c1, PlatformError);
    if !c.closed && !a.failed && 0 < a.count { AdvancedAgrees(c1, a.count, a.ok, a.receiveOk, p); }
  }

  lemma ReceiveDonePlain(c: Conn, count: nat, failed: bool, ok: bool)
    ensures Plain(c, ReceiveDone(c, count, failed, ok))
  {
    hide CloseSocket, MarkClosed, StartReceive, Plain;
    var c1 := c.(receiveInFlight := false, pending := c.pending - 1);
    ShutPlain(c1, Closed);
    ShutPlain(c1, PlatformError);
    StartPlain(c1, ok);
    CountedPlain(c, ReceiveDone(c, count, failed, ok), c1);
  }

  lemma CountedPlain(c: Conn, c2: Conn, c1: Conn)
    requires c1 == c.(receiveInFlight := false, pending := c.pending - 1)
    requires Plain(c1, c2) || c2 == c1 || c2 == c1.(callbackActive := true)
    ensures Plain(c, c2)
  {
  }

  lemma PlainAgrees(c: Conn, c2: Conn, p: Past, chunks: seq<nat>)
    requires Agrees(c, p) && Plain(c, c2)
    ensures Agrees(c2, p.(chunks := chunks))
  {
  }

  lemma ReceiveDoneAgrees(c: Conn, a: Action, p: Past)
    requires Agrees(c, p) && a.AReceiveDone?
    ensures Agrees(ReceiveDone(c, a.count, a.failed, a.ok), Noted(p, c.closed, a))
  {
    hide ReceiveDone, Plain, Agrees;
    ReceiveDonePlain(c, a.count, a.failed, a.ok);
    PlainAgrees(c, ReceiveDone(c, a.count, a.failed, a.ok), p, Noted(p, c.closed, a).chunks);
  }

  lemma SendAgrees(c: Conn, a: Action, p: Past)
    requires Agrees(c, p) && a.ASend? && CanSend(c) && a.bytes != [] && a.granted
    ensures Agrees(Send(c, a.bytes, a.ok), Noted(p, c.closed, a))
  {
    hide StartSend, SQ.Append;
    StartPlain(c.(queue := SQ.Append(c.queue, a.bytes), accepted := c.accepted + a.bytes), a.ok);
  }

  lemma CallAgrees(w: World, a: Action, p: Past)
    requires Agrees(w.conn, p) && Enabled(w, a)
    requires a.AStart? || a.ASend? || a.AClose? || a.ACloseAfterSend? || a.ASetObserver? || a.APause? || a.AResume?
    ensures Agrees(Apply(w, a).conn, Noted(p, w.conn.closed, a))
  {
    hide StartReceive, Send, MarkClosed, CloseSocket, FinishCloseAfterSend;
    var c := w.conn;
    match a
    case AStart(_, ok) => StartPlain(c.(started := true), ok);
    case ASend(_, bytes, granted, ok) =>
      if CanSend(c) && bytes != [] && granted { SendAgrees(c, a, p); } else { assert p.accepted + [] == p.accepted; }
    case AClose(_) => ShutPlain(c.(closeAfterSend := false), Closed); ShutIsSilent(c.(closeAfterSend := false), Closed);
    case ACloseAfterSend(_, ok) => FinishPlain(c.(closeAfterSend := true), ok);
    case AResume(_, ok) => StartPlain(c.(paused := false), ok);
    case _ =>
  }

  lemma StepAgrees(w: World, a: Action, p: Past)
    requires Safe(w) && Enabled(w, a) && !a.ADestroy? && Agrees(w.conn, p)
    ensures Agrees(Apply(w, a).conn, Noted(p, w.conn.closed, a))
  {
    hide Safe, Flags, Stream, Told, Promised, Consumable, SendDone, ReceiveDone, CallbackDone;
    Parts(w);
    if a.AReceiveDone? {
      ReceiveDoneAgrees(w.conn, a, p);
    } else if a.ASendDone? {
      SendDoneAgrees(w.conn, a, p);
    } else if a.ALeave? {
      CallbackPlain(w.conn, a.ok);
    } else if Between(a) {
      BetweenKeeps(w, a);
    } else {
      CallAgrees(w, a, p);
    }
  }

  lemma CallbackPlain(c: Conn, ok: bool)
    ensures Plain(c, CallbackDone(c, ok))
  {
    hide StartReceive;
    StartPlain(c.(callbackActive := false), ok);
  }

  // What the observer hears.

  ghost predicate Passed(w: World, p: Past) { Chunks(w.conn.events) + InHand(w) == p.chunks }

  lemma ChunksAppend(events: seq<Event>, e: Event)
    ensures Chunks(events + [e]) == Chunks(events) + if e.Received? then [e.count] else []
  {
    assert (events + [e])[..|events|] == events;
  }

  /** The callback starts exactly for bytes on a connection that had not ended. */
  lemma DeliversIff(c: Conn, count: nat, failed: bool, ok: bool)
    requires Flags(c) && c.receiveInFlight
    ensures ReceiveDone(c, count, failed, ok).callbackActive <==> !c.closed && !failed && count > 0
  {
    hide CloseSocket, MarkClosed, StartReceive;
    var c1 := c.(receiveInFlight := false, pending := c.pending - 1);
    ShutKept(c1, Closed);
    ShutKept(c1, PlatformError);
    StartKept(c1, ok);
  }

  lemma ReceiveDonePasses(w: World, a: Action, p: Past)
    requires Flags(w.conn) && Threads(w) && Enabled(w, a) && a.AReceiveDone? && Agrees(w.conn, p) && Passed(w, p)
    ensures Passed(Apply(w, a), Noted(p, w.conn.closed, a))
  {
    hide ReceiveDone, Chunks;
    DeliversIff(w.conn, a.count, a.failed, a.ok);
    ReceiveDonePlain(w.conn, a.count, a.failed, a.ok);
    assert InHand(w) == [];
  }

  lemma BetweenPasses(w: World, a: Action, p: Past)
    requires Threads(w) && Enabled(w, a) && (Between(a) || a.ALeave?) && Passed(w, p)
    ensures Passed(Apply(w, a), p)
  {
    hide Chunks, CallbackDone, MustNotify;
    match a
    case AEnter(t) =>
      assert w.conn.events + [] == w.conn.events;
      ChunksAppend(w.conn.events, Received(w.threads[t].count));
    case ANotify(t) =>
    case ADeliver(t) => ChunksAppend(w.conn.events, Disconnected(w.threads[t].code));
    case ALeave(t, ok) => CallbackPlain(w.conn, ok);
  }

  /** A call, or the completion of a send, tells the observer nothing. */
  lemma OtherPasses(w: World, a: Action, w2: World, p: Past)
    requires Threads(w) && Passed(w, p) && w2.conn.events == w.conn.events && w2.receiver == w.receiver
    requires forall t :: t in w.threads ==> t in w2.threads && w2.threads[t] == w.threads[t]
    ensures Passed(w2, p)
  {
  }

  lemma SendDonePlain(c: Conn, a: Action)
    requires a.ASendDone? && (!c.closed && !a.failed && 0 < a.count ==> Consumable(c.queue, a.count))
    ensures var c2 := SendDone(c, a.count, a.failed, a.ok, a.receiveOk);
      c2.events == c.events && c2.notified == c.notified
  {
    hide SendAdvanced, CloseSocket, MarkClosed, Consumable;
    var c1 := c.(sendInFlight := false, pending := c.pending - 1);
    ShutKept(c1, Closed);
    ShutKept(c1, PlatformError);
    if !c.closed && !a.failed && 0 < a.count { AdvancedKept(c1, a.count, a.ok, a.receiveOk); }
  }

  lemma CallEvents(w: World, a: Action)
    requires Enabled(w, a)
    requires a.AStart? || a.ASend? || a.AClose? || a.ACloseAfterSend? || a.ASetObserver? || a.APause? || a.AResume? || a.ASendDone?
    ensures var w2 := Apply(w, a);
      && w2.conn.events == w.conn.events && w2.receiver == w.receiver && w2.notifier == w.notifier
      && w2.conn.notified == w.conn.notified
      && forall t :: t in w.threads ==> t in w2.threads && w2.threads[t] == w.threads[t]
  {
    hide StartReceive, StartSend, MarkClosed, CloseSocket, FinishCloseAfterSend, SendDone, Consumable, SQ.Append;
    var c := w.conn;
    match a
    case AStart(_, ok) => StartKept(c.(started := true), ok);
    case ASend(_, bytes, _, ok) => StartKept(c.(queue := SQ.Append(c.queue, bytes), accepted := c.accepted + bytes), ok);
    case AClose(_) => ShutKept(c.(closeAfterSend := false), Closed);
    case ACloseAfterSend(_, ok) => FinishKept(c.(closeAfterSend := true), ok);
    case AResume(_, ok) => StartKept(c.(paused := false), ok);
    case ASendDone(_, _, _, _, _) => SendDonePlain(c, a);
    case _ =>
  }

  lemma StepPasses(w: World, a: Action, p: Past)
    requires Safe(w) && Enabled(w, a) && !a.ADestroy? && Agrees(w.conn, p) && Passed(w, p)
    ensures Passed(Apply(w, a), Noted(p, w.conn.closed, a))
  {
    hide Safe, Apply, Enabled, Flags, Stream, Told, Threads, Promised, Agrees, Passed;
    Parts(w);
    if a.AReceiveDone? {
      ReceiveDonePasses(w, a, p);
    } else if Between(a) || a.ALeave? {
      BetweenPasses(w, a, p);
    } else {
      CallEvents(w, a);
      OtherPasses(w, a, Apply(w, a), p);
      SameChunks(Apply(w, a), p, Noted(p, w.conn.closed, a));
    }
  }

  lemma SameChunks(w: World, p: Past, q: Past)
    requires Passed(w, p) && q.chunks == p.chunks
    ensures Passed(w, q)
  {
  }

  lemma InitiallyAgrees()
    ensures Agrees(INITIAL.conn, NOTHING) && Passed(INITIAL, NOTHING)
  {
    assert INITIAL.conn == FRESH && INITIAL.receiver == None;
    assert FRESH.completed == [] && FRESH.accepted == [] && FRESH.events == [];
  }

  /**
    In every state the connection is what its past made it: started, paused, asked to drain and observed as the calls
    said; the accepted bytes are those of the accepted sends, in order; as many are completed as the kernel reported;
    and the observer was called with every chunk received before the end, in order, but for one about to be passed on.
   */
  lemma TellsItsPast(ws: seq<World>, acts: seq<Action>, i: nat)
    requires IsRun(ws, acts) && i < |ws| && !ws[i].destroyed
    ensures Agrees(ws[i].conn, PastOf(ws, acts, i))
    ensures Chunks(ws[i].conn.events) + InHand(ws[i]) == PastOf(ws, acts, i).chunks
  {
    hide Safe, Apply, Enabled, Agrees;
    InitiallyAgrees();
    var j := 0;
    while j < i
      invariant j <= i
      invariant !ws[j].destroyed ==> Agrees(ws[j].conn, PastOf(ws, acts, j)) && Passed(ws[j], PastOf(ws, acts, j))
    {
      RunAction(ws, acts, j);
      StepFlag(ws[j], acts[j]);
      if !acts[j].ADestroy? {
        RunSafe(ws, acts, j);
        StepAgrees(ws[j], acts[j], PastOf(ws, acts, j));
        StepPasses(ws[j], acts[j], PastOf(ws, acts, j));
      }
      j := j + 1;
    }
  }

  // The disconnect names the reason.

  ghost predicate Named(w: World) {
    && (w.notifier.Some? ==> w.notifier.value in w.threads && w.threads[w.notifier.value] == Delivering(w.conn.reason))
    && (w.conn.notified && w.notifier.None? ==>
          w.conn.events != [] && w.conn.events[|w.conn.events| - 1] == Disconnected(w.conn.reason))
  }

  lemma StepNames(w: World, a: Action)
    requires Safe(w) && Enabled(w, a) && !a.ADestroy? && Named(w)
    ensures Named(Apply(w, a))
  {
    assert Told(w) && Threads(w);
    StepEnds(w, a);
    hide Safe, Stream, Promised;
    if a.AReceiveDone? {
      hide ReceiveDone;
      ReceiveDonePlain(w.conn, a.count, a.failed, a.ok);
      ReceiveDoneFrame(w.conn, a.count, a.failed, a.ok);
    } else if a.ALeave? {
      hide CallbackDone;
      CallbackPlain(w.conn, a.ok);
      LeaveFrame(w.conn, a.ok);
    } else if !Between(a) {
      CallEvents(w, a);
      hide Apply;
    }
  }

  lemma InitiallyNamed()
    ensures Named(INITIAL)
  {
    assert INITIAL.conn == FRESH && INITIAL.notifier == None && !FRESH.notified;
  }

  /** The observer is told the reason for which the connection ended. */
  lemma DisconnectNamesTheReason(ws: seq<World>, acts: seq<Action>, i: nat, j: nat)
    requires IsRun(ws, acts) && i < |ws| && !ws[i].destroyed && j < |ws[i].conn.events|
    requires ws[i].conn.events[j].Disconnected?
    ensures ws[i].conn.closed && ws[i].conn.events[j] == Disconnected(ws[i].conn.reason)
  {
    hide Apply, Enabled, Flags, Stream, Threads, Promised;
    RunSafe(ws, acts, i);
    LastOnly(ws[i], j);
    RunNamed(ws, acts, i);
  }

  lemma RunNamed(ws: seq<World>, acts: seq<Action>, i: nat)
    requires IsRun(ws, acts) && i < |ws| && !ws[i].destroyed
    ensures Named(ws[i])
  {
    hide Safe, Apply, Enabled, Named;
    InitiallyNamed();
    var j := 0;
    while j < i
      invariant j <= i && (!ws[j].destroyed ==> Named(ws[j]))
    {
      RunAction(ws, acts, j);
      StepFlag(ws[j], acts[j]);
      if !acts[j].ADestroy? {
        RunSafe(ws, acts, j);
        StepNames(ws[j], acts[j]);
      }
      j := j + 1;
    }
  }
}
