/** The transport object: its tables, and its locked sections as methods. */
module DatagramState {
  import opened Common
  import opened Datagram

  class TransportState {
    const options: Options
    var open: bool
    var binding: nat
    var registration: nat
    var peers: map<Id, Peer>
    var tokens: map<Token, Id>
    ghost var log: seq<Commit>
    ghost var owners: map<nat, (Id, Token)>

    constructor (o: Options)
      ensures options == o && View() == Table(o, false, 0, 0, map[], map[], [], map[])
    {
      options, open, binding, registration, peers, tokens, log, owners := o, false, 0, 0, map[], map[], [], map[];
    }

    ghost function View(): Table
      reads this
    {
      Table(options, open, binding, registration, peers, tokens, log, owners)
    }

    method BindSocket(ok: bool) returns (code: ErrorCode)
      modifies this`open, this`binding
      ensures View() == Bind(old(View()), ok)
      ensures code == if old(open) then AlreadyExists else if old(binding) == LAST_GENERATION then Closed
        else if ok then Ok else PlatformError
    {
      if open { return AlreadyExists; }
      if binding == LAST_GENERATION { return Closed; }
      if !ok { return PlatformError; }
      open := true;
      binding := binding + 1;
      return Ok;
    }

    method CloseSocket()
      modifies this`open, this`peers, this`tokens
      ensures View() == Close(old(View()))
    {
      open := false;
      tokens := map[];
      peers := map[];
    }

    /** `secrets` are the values the generator draws before it fails; the first that is not in use becomes the token. */
    method RegisterSession(id: Id, secrets: seq<Token>) returns (r: Result<Token>)
      modifies this`registration, this`peers, this`tokens, this`owners
      ensures r.Success? ==>
        r.value in secrets && CanRegister(old(View()), id, r.value) && View() == Register(old(View()), id, r.value)
      ensures r.Failure? ==>
        View() == old(View()) && forall token :: token in secrets ==> !CanRegister(old(View()), id, token)
    {
      if !open { return Failure(Closed); }
      if id == 0 || id in peers { return Failure(InvalidArgument); }
      if |peers| >= options.maxSessions { return Failure(WouldBlock); }
      if registration == LAST_GENERATION { return Failure(Closed); }
      var i := 0;
      while i < |secrets| && secrets[i] in tokens
        invariant i <= |secrets| && forall j :: 0 <= j < i ==> secrets[j] in tokens
      {
        i := i + 1;
      }
      if i == |secrets| { return Failure(PlatformError); }
      var token := secrets[i];
      registration := registration + 1;
      peers := peers[id := Peer(token, 0, registration, 0, false)];
      tokens := tokens[token := id];
      owners := owners[registration := (id, token)];
      return Success(token);
    }

    method UnregisterSession(id: Id)
      modifies this`peers, this`tokens
      ensures View() == Unregister(old(View()), id)
    {
      if id !in peers { return; }
      tokens := tokens - {peers[id].token};
      peers := peers - {id};
    }

    /**
      The first section of the receive loop: it goes on while the binding is the poller's, and offers what passes all
      checks.
     */
    method Check(bound: nat, p: Packet) returns (goOn: bool, offer: Option<Offer>)
      ensures goOn == (open && binding == bound)
      ensures offer == if goOn && Passes(View(), p) then Some(Accepted(View(), p)) else None
    {
      if !open || binding != bound { return false, None; }
      goOn := true;
      if p.token !in tokens || tokens[p.token] !in peers { return true, None; }
      var id := tokens[p.token];
      var peer := peers[id];
      if p.sequence <= peer.received { return true, None; }
      if !options.allowMigration && peer.ready && peer.endpoint != p.endpoint { return true, None; }
      if p.sequence - peer.received > options.maxJump { return true, None; }
      offer := Some(Offer(id, peer.generation, p));
    }

    /** The second section: the datagram is committed or found stale; the poller leaves when the binding is another. */
    method CommitDatagram(bound: nat, o: Offer) returns (goOn: bool, committed: bool)
      modifies this`peers, this`log
      ensures goOn == (open && binding == bound)
      ensures committed == (goOn && StillValid(old(View()), o))
      ensures View() == if committed then CommitOffer(old(View()), o) else old(View())
    {
      if !open || binding != bound { return false, false; }
      goOn, committed := true, false;
      if o.id !in peers { return; }
      var peer := peers[o.id];
      if peer.generation != o.generation || peer.token != o.packet.token || o.packet.sequence <= peer.received { return; }
      peers := peers[o.id := peer.(received := o.packet.sequence, endpoint := o.packet.endpoint, ready := true)];
      log := log + [Commit(o.generation, o.id, o.packet.token, o.packet.sequence, o.packet.endpoint)];
      committed := true;
    }
  }
}
