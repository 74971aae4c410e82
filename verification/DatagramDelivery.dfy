/** Which sessions exist and which datagrams are taken, told from what happened before. */
module DatagramDelivery {
  import opened Common
  import opened Datagram
  import opened DatagramSafety

  // Sessions.

  /** What the calls of a run amount to: `sessions` gives the token of every registered session. */
  datatype Past = Past(open: bool, bindings: nat, sessions: map<Id, Token>, registrations: nat)

  const NOTHING := Past(false, 0, map[], 0)

  /** A session can be registered: the socket is open, the identity and the token are free and there is room. */
  predicate Admits(p: Past, o: Options, id: Id, token: Token) {
    && p.open && id != 0 && id !in p.sessions && |p.sessions| < o.maxSessions && p.registrations < LAST_GENERATION
    && token !in p.sessions.Values
  }

  function Noted(p: Past, o: Options, a: Action): Past {
    match a
    case ABind(ok) => if ok && !p.open && p.bindings < LAST_GENERATION then p.(open := true, bindings := p.bindings + 1)
        else p
    case AClose => p.(open := false, sessions := map[])
    case ARegister(id, token) =>
      if Admits(p, o, id, token) then p.(sessions := p.sessions[id := token], registrations := p.registrations + 1)
      else p
    case AUnregister(id) => p.(sessions := p.sessions - {id})
    case _ => p
  }

  ghost function PastOf(ws: seq<World>, acts: seq<Action>, i: nat): Past
    requires i <= |acts| < |ws|
  {
    if i == 0 then NOTHING else Noted(PastOf(ws, acts, i - 1), ws[0].table.options, acts[i - 1])
  }

  ghost predicate Shows(s: Table, p: Past, o: Options) {
    && s.options == o && s.open == p.open && s.binding == p.bindings <= LAST_GENERATION
    && s.registration == p.registrations <= LAST_GENERATION
    && s.peers.Keys == p.sessions.Keys && forall id :: id in s.peers ==> s.peers[id].token == p.sessions[id]
  }

  lemma SameTokens(s: Table, p: Past, o: Options, token: Token)
    requires Inverse(s) && Shows(s, p, o)
    ensures token in s.tokens <==> token in p.sessions.Values
  {
    if token in s.tokens { assert p.sessions[s.tokens[token]] == token; }
    if token in p.sessions.Values {
      var id :| id in p.sessions && p.sessions[id] == token;
      assert s.peers[id].token == token;
    }
  }

  lemma RegisterShows(s: Table, p: Past, o: Options, id: Id, token: Token)
    requires Inverse(s) && Shows(s, p, o)
    ensures CanRegister(s, id, token) <==> Admits(p, o, id, token)
    ensures Shows(Register(s, id, token), Noted(p, o, ARegister(id, token)), o)
  {
    SameTokens(s, p, o, token);
    assert |s.peers| == |s.peers.Keys| == |p.sessions.Keys| == |p.sessions|;
  }

  lemma UnregisterShows(s: Table, p: Past, o: Options, id: Id)
    requires Shows(s, p, o)
    ensures Shows(Unregister(s, id), Noted(p, o, AUnregister(id)), o)
  {
    assert id !in p.sessions ==> p.sessions - {id} == p.sessions;
  }

  lemma BindShows(s: Table, p: Past, o: Options, ok: bool)
    requires Shows(s, p, o)
    ensures Shows(Bind(s, ok), Noted(p, o, ABind(ok)), o) && Shows(Close(s), Noted(p, o, AClose), o)
  {
  }

  lemma CommitShows(s: Table, p: Past, o: Options, offer: Offer)
    requires Shows(s, p, o) && StillValid(s, offer)
    ensures Shows(CommitOffer(s, offer), p, o)
  {
  }

  lemma StepShows(w: World, a: Action, p: Past, o: Options)
    requires Safe(w) && Enabled(w, a) && Shows(w.table, p, o)
    ensures Shows(Apply(w, a).table, Noted(p, o, a), o)
  {
    SafeInverse(w);
    hide Safe, Inverse, Shows, Register, Unregister, Bind, Close, CommitOffer, StillValid, Passes, Admits;
    match a
    case ABind(ok) => BindShows(w.table, p, o, ok);
    case AClose => BindShows(w.table, p, o, true);
    case ARegister(id, token) => RegisterShows(w.table, p, o, id, token);
    case AUnregister(id) => UnregisterShows(w.table, p, o, id);
    case ACommit(t) =>
      if StillValid(w.table, w.threads[t].offer) { CommitShows(w.table, p, o, w.threads[t].offer); }
    case _ =>
  }

  /**
    The sessions are exactly those registered and not unregistered since the socket was last closed; a registration
    succeeds exactly when the socket is open, the identity and the token are free and there is room.
   */
  lemma SessionsAreThoseRegistered(ws: seq<World>, acts: seq<Action>, i: nat, id: Id, token: Token)
    requires IsRun(ws, acts) && i < |ws|
    ensures var s, p := ws[i].table, PastOf(ws, acts, i);
      && s.open == p.open && s.binding == p.bindings && s.registration == p.registrations
      && (id in s.peers && s.peers[id].token == token <==> id in p.sessions && p.sessions[id] == token)
      && (CanRegister(s, id, token) <==> Admits(p, s.options, id, token))
  {
    var o := ws[0].table.options;
    hide Safe, Apply, Enabled;
    for j := 0 to i
      invariant Shows(ws[j].table, PastOf(ws, acts, j), o)
    {
      RunSafe(ws, acts, j);
      assert StepAt(ws, acts, j);
      StepShows(ws[j], acts[j], PastOf(ws, acts, j), o);
    }
    RunSafe(ws, acts, i);
    SafeInverse(ws[i]);
    RegisterShows(ws[i].table, PastOf(ws, acts, i), o, id, token);
  }

  lemma SafeInverse(w: World)
    requires Safe(w)
    ensures Inverse(w.table)
  {
  }

  // Datagrams.

  /**
    `p` is new for registration `gen` of session `id`: above its last commit, within the jump, from an allowed endpoint.
   */
  ghost predicate New(s: Table, p: Packet, id: Id, gen: nat) {
    var last := Last(s.log, gen);
    && id in s.peers && s.peers[id].generation == gen && s.peers[id].token == p.token
    && Reached(last) < p.sequence <= Reached(last) + s.options.maxJump
    && (s.options.allowMigration || last.None? || last.value.endpoint == p.endpoint)
  }

  lemma OfferedIff(s: Table, p: Packet, id: Id, gen: nat)
    requires TableOk(s)
    ensures Passes(s, p) && Accepted(s, p) == Offer(id, gen, p) <==> New(s, p, id, gen)
  {
    hide Ordered, Recorded, Last;
    if id in s.peers { assert Tracked(s, id); }
    if p.token in s.tokens { assert Tracked(s, s.tokens[p.token]); }
  }

  /**
    A poller that receives a datagram on its own binding offers it for admission exactly when it is new for a live
    registration; any other datagram leaves everything as it is.
   */
  lemma OffersWhatIsNew(ws: seq<World>, acts: seq<Action>, i: nat, id: Id, gen: nat)
    requires IsRun(ws, acts) && i < |acts| && acts[i].AReceive? && acts[i].packet.Some? && !acts[i].stop
    requires acts[i].t in ws[i].threads && ws[i].threads[acts[i].t] == Receive(ws[i].table.binding) && ws[i].table.open
    ensures var t, p, s := acts[i].t, acts[i].packet.value, ws[i].table;
      && ws[i + 1].table == s && t in ws[i + 1].threads
      && (ws[i + 1].threads[t] == Admit(s.binding, Offer(id, gen, p)) <==> New(s, p, id, gen))
      && ((forall x, g :: !New(s, p, x, g)) ==> ws[i + 1] == ws[i])
  {
    assert StepAt(ws, acts, i);
    RunSafe(ws, acts, i);
    var s, p := ws[i].table, acts[i].packet.value;
    assert TableOk(s);
    hide TableOk, Pollers, New;
    OfferedIff(s, p, id, gen);
    if Passes(s, p) {
      var o := Accepted(s, p);
      OfferedIff(s, p, o.id, o.generation);
    }
  }

  /** The registration is live and the datagram still above its last commit. */
  ghost predicate Lives(s: Table, o: Offer) {
    && o.id in s.peers && s.peers[o.id].generation == o.generation
    && Reached(Last(s.log, o.generation)) < o.packet.sequence
  }

  /** Offers are made for the token of their registration. */
  ghost predicate Owned(w: World) {
    forall t :: t in w.threads && HasOffer(w.threads[t]) ==> MadeFor(w.table, w.threads[t].offer)
  }

  ghost predicate MadeFor(s: Table, o: Offer) {
    o.generation in s.owners && o.generation <= s.registration && s.owners[o.generation] == (o.id, o.packet.token)
  }

  lemma StepOwned(w: World, a: Action)
    requires Safe(w) && Enabled(w, a) && Owned(w)
    ensures Owned(Apply(w, a))
  {
    hide Ordered, Fresh, Last, Inverse;
    if a.AReceive? && a.packet.Some? && Passes(w.table, a.packet.value) {
      var id := w.table.tokens[a.packet.value.token];
      assert Tracked(w.table, id);
      assert Inverse(w.table);
      TokenOf(w.table, a.packet.value.token);
    }
  }

  lemma TokenOf(s: Table, token: Token)
    requires Inverse(s) && token in s.tokens
    ensures s.tokens[token] in s.peers && s.peers[s.tokens[token]].token == token
  {
  }

  lemma RunOwned(ws: seq<World>, acts: seq<Action>, i: nat)
    requires IsRun(ws, acts) && i < |ws|
    ensures Owned(ws[i])
  {
    hide Safe, Apply, Enabled;
    for j := 0 to i
      invariant Owned(ws[j])
    {
      RunSafe(ws, acts, j);
      assert StepAt(ws, acts, j);
      StepOwned(ws[j], acts[j]);
    }
  }

  lemma CommitsIff(w: World, t: nat)
    requires Safe(w) && Owned(w) && Enabled(w, ACommit(t))
    ensures StillValid(w.table, w.threads[t].offer) <==> Lives(w.table, w.threads[t].offer)
  {
    hide Ordered, Fresh, Last, Inverse;
    var o := w.threads[t].offer;
    if o.id in w.table.peers { assert Tracked(w.table, o.id); }
  }

  /**
    After an admission the datagram is committed exactly when the socket and the binding are still the poller's, the
    registration still lives and nothing newer was committed for it; it is then delivered, and recorded as it came.
   */
  lemma CommitsWhatStillLives(ws: seq<World>, acts: seq<Action>, i: nat)
    requires IsRun(ws, acts) && i < |acts| && acts[i].ACommit?
    ensures acts[i].t in ws[i].threads && ws[i].threads[acts[i].t].Ready? && acts[i].t in ws[i + 1].threads
    ensures var s, pc := ws[i].table, ws[i].threads[acts[i].t];
      var o, taken := pc.offer, s.open && s.binding == pc.binding && Lives(s, pc.offer);
      && ws[i + 1].table.log == s.log + (if taken then [Commit(o.generation, o.id, o.packet.token, o.packet.sequence, o.packet.endpoint)] else [])
      && (ws[i + 1].threads[acts[i].t] == Deliver(pc.binding) <==> taken)
      && (!taken ==> ws[i + 1].table == s)
  {
    assert StepAt(ws, acts, i);
    RunSafe(ws, acts, i);
    RunOwned(ws, acts, i);
    CommitsIff(ws[i], acts[i].t);
    assert ws[i].table.log + [] == ws[i].table.log;
    hide Safe, Owned, Lives, StillValid;
  }

  /** When nothing intervenes, a new datagram that the callback admits is committed. */
  lemma NewDatagramIsTaken(ws: seq<World>, acts: seq<Action>, i: nat, id: Id, gen: nat)
    requires IsRun(ws, acts) && i + 2 < |acts| && acts[i].AReceive? && acts[i].packet.Some? && !acts[i].stop
    requires acts[i].t in ws[i].threads && ws[i].threads[acts[i].t] == Receive(ws[i].table.binding) && ws[i].table.open
    requires New(ws[i].table, acts[i].packet.value, id, gen)
    requires acts[i + 1] == AAdmit(acts[i].t, true, false) && acts[i + 2] == ACommit(acts[i].t)
    ensures var p := acts[i].packet.value;
      ws[i + 3].table.log == ws[i].table.log + [Commit(gen, id, p.token, p.sequence, p.endpoint)]
  {
    hide New;
    OffersWhatIsNew(ws, acts, i, id, gen);
    assert StepAt(ws, acts, i + 1);
    NewLives(ws[i].table, acts[i].packet.value, id, gen);
    CommitsWhatStillLives(ws, acts, i + 2);
  }

  lemma NewLives(s: Table, p: Packet, id: Id, gen: nat)
    requires New(s, p, id, gen)
    ensures Lives(s, Offer(id, gen, p))
  {
  }

  // The poller.

  /** What ends a poll: the socket is closed or bound anew, budget or socket have nothing left, or a callback threw. */
  predicate EndsPoll(w: World, a: Action) {
    match a
    case ABegin(_) => !w.table.open
    case AReceive(t, _, stop) => stop || !w.table.open || t !in w.threads || w.threads[t] != Receive(w.table.binding)
    case AAdmit(_, _, thrown) => thrown
    case ACommit(t) => !w.table.open || t !in w.threads || !w.threads[t].Ready? || w.threads[t].binding != w.table.binding
    case ADeliver(_, thrown) => thrown
    case _ => false
  }

  /** A poller goes on until one of these happens to it, and then gives up the flag at once. */
  lemma PollsUntilEnded(ws: seq<World>, acts: seq<Action>, i: nat, t: nat)
    requires IsRun(ws, acts) && i < |acts| && t in ws[i].threads && !ws[i].threads[t].Clear?
    ensures t in ws[i + 1].threads
    ensures ws[i + 1].threads[t].Clear? <==>
      (acts[i].ABegin? || acts[i].AReceive? || acts[i].AAdmit? || acts[i].ACommit? || acts[i].ADeliver?) && acts[i].t == t
      && EndsPoll(ws[i], acts[i])
  {
    assert StepAt(ws, acts, i);
    hide Passes, StillValid, CommitOffer, Register, Unregister;
  }
}
