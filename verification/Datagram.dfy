/**
  The datagram transport's receive path: checks under the lock, an unlocked admission callback, and a commit under the
  lock.
 */
module Datagram {
  import opened Common

  type Id = nat
  type Token = nat
  type Endpoint = nat

  datatype Options = Options(maxSessions: nat, maxJump: nat, allowMigration: bool)

  datatype Peer = Peer(token: Token, endpoint: Endpoint, generation: nat, received: nat, ready: bool)

  /** A datagram accepted for a registration; history. */
  datatype Commit = Commit(generation: nat, id: Id, token: Token, sequence: nat, endpoint: Endpoint)

  /** `owners` is history: the session and token each registration was made for. */
  datatype Table = Table(
    options: Options, open: bool, binding: nat, registration: nat, peers: map<Id, Peer>, tokens: map<Token, Id>,
    log: seq<Commit>, owners: map<nat, (Id, Token)>)

  /** The last generation a 64-bit counter can give. */
  const LAST_GENERATION: nat := 0xFFFF_FFFF_FFFF_FFFF

  // Sections under the lock.

  function Bind(s: Table, ok: bool): Table {
    if s.open || s.binding == LAST_GENERATION || !ok then s else s.(open := true, binding := s.binding + 1)
  }

  function Close(s: Table): Table { s.(open := false, tokens := map[], peers := map[]) }

  predicate CanRegister(s: Table, id: Id, token: Token) {
    && s.open && id != 0 && id !in s.peers && |s.peers| < s.options.maxSessions
    && s.registration != LAST_GENERATION && token !in s.tokens
  }

  function Register(s: Table, id: Id, token: Token): Table {
    if !CanRegister(s, id, token) then s
    else
      var gen := s.registration + 1;
      s.(registration := gen, peers := s.peers[id := Peer(token, 0, gen, 0, false)], tokens := s.tokens[token := id], owners := s.owners[gen := (id, token)])
  }

  function Unregister(s: Table, id: Id): Table {
    if id !in s.peers then s else s.(tokens := s.tokens - {s.peers[id].token}, peers := s.peers - {id})
  }

  datatype Packet = Packet(token: Token, sequence: nat, endpoint: Endpoint)

  /** What the first section found: a packet for a registration. */
  datatype Offer = Offer(id: Id, generation: nat, packet: Packet)

  /** The replay, endpoint and jump checks. */
  predicate Passes(s: Table, p: Packet) {
    && p.token in s.tokens && s.tokens[p.token] in s.peers
    && var peer := s.peers[s.tokens[p.token]];
       && p.sequence > peer.received
       && (s.options.allowMigration || !peer.ready || peer.endpoint == p.endpoint)
       && p.sequence - peer.received <= s.options.maxJump
  }

  function Accepted(s: Table, p: Packet): Offer
    requires Passes(s, p)
  {
    Offer(s.tokens[p.token], s.peers[s.tokens[p.token]].generation, p)
  }

  /** The commit repeats the registration, token and replay checks, but not the other two. */
  predicate StillValid(s: Table, o: Offer) {
    && o.id in s.peers && s.peers[o.id].generation == o.generation && s.peers[o.id].token == o.packet.token
    && o.packet.sequence > s.peers[o.id].received
  }

  function CommitOffer(s: Table, o: Offer): Table
    requires StillValid(s, o)
  {
    var peer := s.peers[o.id];
    s.(peers := s.peers[o.id := peer.(received := o.packet.sequence, endpoint := o.packet.endpoint, ready := true)],
       log := s.log + [Commit(o.generation, o.id, o.packet.token, o.packet.sequence, o.packet.endpoint)])
  }

  // Pollers.

  datatype Pc =
    | Begin                              // holds the polling flag, about to read the binding
    | Receive(binding: nat)
    | Admit(binding: nat, offer: Offer)  // in the user's admission callback
    | Ready(binding: nat, offer: Offer)  // admitted, about to commit
    | Deliver(binding: nat)              // in the user's receiver callback
    | Clear                              // about to give up the polling flag

  /** `owner` is history: the thread that holds the polling flag. */
  datatype World = World(table: Table, polling: bool, threads: map<nat, Pc>, owner: Option<nat>)

  datatype Action =
    | ABind(ok: bool)
    | AClose
    | ARegister(id: Id, token: Token)
    | AUnregister(id: Id)
    | APoll(t: nat)
    | ABegin(t: nat)
    | AReceive(t: nat, packet: Option<Packet>, stop: bool)  // None: nothing usable arrived
    | AAdmit(t: nat, allow: bool, thrown: bool)
    | ACommit(t: nat)
    | ADeliver(t: nat, thrown: bool)
    | AClear(t: nat)

  predicate Enabled(w: World, a: Action) {
    match a
    case ABind(_) => true
    case AClose => true
    case ARegister(_, _) => true
    case AUnregister(_) => true
    case APoll(t) => t !in w.threads
    case ABegin(t) => t in w.threads && w.threads[t].Begin?
    case AReceive(t, _, _) => t in w.threads && w.threads[t].Receive?
    case AAdmit(t, _, _) => t in w.threads && w.threads[t].Admit?
    case ACommit(t) => t in w.threads && w.threads[t].Ready?
    case ADeliver(t, _) => t in w.threads && w.threads[t].Deliver?
    case AClear(t) => t in w.threads && w.threads[t].Clear?
  }

  function Goto(w: World, t: nat, pc: Pc): World { w.(threads := w.threads[t := pc]) }

  function ReceiveStep(w: World, t: nat, binding: nat, packet: Option<Packet>, stop: bool): World {
    var s := w.table;
    if !s.open || s.binding != binding || stop then Goto(w, t, Clear)
    else if packet.Some? && Passes(s, packet.value) then Goto(w, t, Admit(binding, Accepted(s, packet.value)))
    else w
  }

  function CommitStep(w: World, t: nat, binding: nat, o: Offer): World {
    var s := w.table;
    if !s.open || s.binding != binding then Goto(w, t, Clear)
    else if StillValid(s, o) then Goto(w.(table := CommitOffer(s, o)), t, Deliver(binding))
    else Goto(w, t, Receive(binding))
  }

  function Apply(w: World, a: Action): World
    requires Enabled(w, a)
  {
    match a
    case ABind(ok) => w.(table := Bind(w.table, ok))
    case AClose => w.(table := Close(w.table))
    case ARegister(id, token) => w.(table := Register(w.table, id, token))
    case AUnregister(id) => w.(table := Unregister(w.table, id))
    case APoll(t) => if w.polling then w else Goto(w.(polling := true, owner := Some(t)), t, Begin)
    case ABegin(t) => Goto(w, t, if w.table.open then Receive(w.table.binding) else Clear)
    case AReceive(t, packet, stop) => ReceiveStep(w, t, w.threads[t].binding, packet, stop)
    case AAdmit(t, allow, thrown) =>
      Goto(w, t, if thrown then Clear else if allow then Ready(w.threads[t].binding, w.threads[t].offer) else Receive(w.threads[t].binding))
    case ACommit(t) => CommitStep(w, t, w.threads[t].binding, w.threads[t].offer)
    case ADeliver(t, thrown) => Goto(w, t, if thrown then Clear else Receive(w.threads[t].binding))
    case AClear(t) => w.(polling := false, owner := None, threads := w.threads - {t})
  }
}
