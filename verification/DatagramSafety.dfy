/**
  Per registration, committed sequences rise by bounded steps from one endpoint, whatever happens during the callback.
 */
module DatagramSafety {
  import opened Common
  import opened Datagram

  /** The latest commit of a registration. */
  function Last(log: seq<Commit>, gen: nat): Option<Commit> {
    if log == [] then None
    else if log[|log| - 1].generation == gen then Some(log[|log| - 1])
    else Last(log[..|log| - 1], gen)
  }

  function Reached(c: Option<Commit>): nat { if c.Some? then c.value.sequence else 0 }

  /** Commit `c` may follow `before` in its registration. */
  predicate Follows(o: Options, before: Option<Commit>, c: Commit) {
    && Reached(before) < c.sequence <= Reached(before) + o.maxJump
    && (before.Some? && !o.allowMigration ==> before.value.endpoint == c.endpoint)
  }

  ghost predicate Ordered(o: Options, log: seq<Commit>) {
    forall i :: 0 <= i < |log| ==> Follows(o, Last(log[..i], log[i].generation), log[i])
  }

  /** The two maps are inverse to each other. */
  ghost predicate Inverse(s: Table) {
    && (forall id :: id in s.peers ==> s.peers[id].token in s.tokens && s.tokens[s.peers[id].token] == id)
    && (forall token :: token in s.tokens ==> s.tokens[token] in s.peers && s.peers[s.tokens[token]].token == token)
  }

  /** A registered session is at the state its log says. */
  ghost predicate Tracked(s: Table, id: Id)
    requires id in s.peers
  {
    var p := s.peers[id];
    var last := Last(s.log, p.generation);
    && p.generation <= s.registration && p.generation in s.owners && s.owners[p.generation] == (id, p.token)
    && p.received == Reached(last) && p.ready == last.Some? && (p.ready ==> p.endpoint == last.value.endpoint)
  }

  ghost predicate Recorded(s: Table) {
    && (forall i :: 0 <= i < |s.log| ==> s.log[i].generation in s.owners && s.owners[s.log[i].generation] == (s.log[i].id, s.log[i].token))
    && (forall g :: g in s.owners ==> 0 < g <= s.registration)
  }

  ghost predicate TableOk(s: Table) {
    && Inverse(s) && Ordered(s.options, s.log) && Recorded(s) && |s.peers| <= s.options.maxSessions
    && forall id :: id in s.peers ==> Tracked(s, id)
  }

  /** What was checked before the callback still holds of the registration it was checked for. */
  ghost predicate Fresh(s: Table, o: Offer) {
    && o.generation <= s.registration
    && (o.id in s.peers && s.peers[o.id].generation == o.generation ==>
          var p := s.peers[o.id];
          && o.packet.sequence <= p.received + s.options.maxJump
          && (p.ready && !s.options.allowMigration ==> p.endpoint == o.packet.endpoint))
  }

  predicate HasOffer(pc: Pc) { pc.Admit? || pc.Ready? }

  ghost predicate Pollers(w: World) {
    && w.polling == w.owner.Some?
    && (forall t :: t in w.threads ==> w.owner == Some(t))
    && (w.owner.Some? ==> w.owner.value in w.threads)
    && (forall t :: t in w.threads && HasOffer(w.threads[t]) ==> Fresh(w.table, w.threads[t].offer))
  }

  ghost predicate Safe(w: World) { TableOk(w.table) && Pollers(w) }

  // The log.

  lemma LastAppend(log: seq<Commit>, c: Commit, gen: nat)
    ensures Last(log + [c], gen) == if c.generation == gen then Some(c) else Last(log, gen)
  {
    assert (log + [c])[..|log|] == log;
  }

  lemma OrderedAppend(o: Options, log: seq<Commit>, c: Commit)
    requires Ordered(o, log) && Follows(o, Last(log, c.generation), c)
    ensures Ordered(o, log + [c])
  {
    var log2 := log + [c];
    forall i | 0 <= i < |log2| ensures Follows(o, Last(log2[..i], log2[i].generation), log2[i]) {
      if i < |log| { assert log2[..i] == log[..i]; } else { assert log2[..i] == log; }
    }
  }

  lemma {:induction false} LastUnknown(log: seq<Commit>, gen: nat)
    requires forall i :: 0 <= i < |log| ==> log[i].generation != gen
    ensures Last(log, gen).None?
  {
    if log != [] { LastUnknown(log[..|log| - 1], gen); }
  }

  // The sections.

  lemma RegisterOk(s: Table, id: Id, token: Token)
    requires TableOk(s)
    ensures TableOk(Register(s, id, token))
  {
    if CanRegister(s, id, token) {
      hide Ordered;
      var s2 := Register(s, id, token);
      var gen := s.registration + 1;
      forall i | 0 <= i < |s.log| ensures s.log[i].generation != gen { assert s.log[i].generation in s.owners; }
      LastUnknown(s.log, gen);
      OneMore(s.peers, id, s2.peers[id]);
      forall j | j in s2.peers ensures Tracked(s2, j) { if j != id { assert Tracked(s, j); } }
      InverseAdd(s, s2, id, token);
    }
  }

  lemma OneMore(m: map<Id, Peer>, id: Id, p: Peer)
    requires id !in m
    ensures |m[id := p]| == |m| + 1
  {
    assert m[id := p].Keys == m.Keys + {id};
    assert |m| == |m.Keys| && |m[id := p]| == |m[id := p].Keys|;
  }

  lemma InverseAdd(s: Table, s2: Table, id: Id, token: Token)
    requires Inverse(s) && id !in s.peers && token !in s.tokens && s2.tokens == s.tokens[token := id]
    requires id in s2.peers && s2.peers == s.peers[id := s2.peers[id]] && s2.peers[id].token == token
    ensures Inverse(s2)
  {
  }

  lemma UnregisterOk(s: Table, id: Id)
    requires TableOk(s)
    ensures TableOk(Unregister(s, id))
  {
    hide Ordered, Recorded;
    if id in s.peers {
      var s2 := Unregister(s, id);
      Fewer(s.peers, s2.peers);
      SameRecorded(s, s2);
      forall j | j in s2.peers ensures Tracked(s2, j) { assert Tracked(s, j); }
    }
  }

  lemma SameRecorded(s: Table, s2: Table)
    requires Recorded(s) && s2.log == s.log && s2.owners == s.owners && s2.registration == s.registration
    ensures Recorded(s2)
  {
  }

  lemma Fewer(m: map<Id, Peer>, m2: map<Id, Peer>)
    requires m2.Keys <= m.Keys
    ensures |m2| <= |m|
  {
    assert |m| == |m.Keys| && |m2| == |m2.Keys|;
    assert m.Keys == m2.Keys + (m.Keys - m2.Keys);
  }

  lemma CloseOk(s: Table)
    requires TableOk(s)
    ensures TableOk(Close(s)) && TableOk(Bind(s, true))
  {
    hide Ordered, Recorded;
    Fewer(s.peers, map[]);
    SameRecorded(s, Close(s));
    SameRecorded(s, Bind(s, true));
    forall j | j in s.peers ensures Tracked(Bind(s, true), j) { assert Tracked(s, j); }
  }

  lemma CommitTracked(s: Table, o: Offer, j: Id)
    requires StillValid(s, o) && j in s.peers && Tracked(s, j) && Tracked(s, o.id)
    ensures Tracked(CommitOffer(s, o), j)
  {
    hide Last;
    var c := Commit(o.generation, o.id, o.packet.token, o.packet.sequence, o.packet.endpoint);
    var s2 := CommitOffer(s, o);
    assert s2.log == s.log + [c] && s2.owners == s.owners && s2.registration == s.registration;
    LastAppend(s.log, c, s.peers[j].generation);
    if j == o.id {
      assert s2.peers[j] == s.peers[j].(received := o.packet.sequence, endpoint := o.packet.endpoint, ready := true);
    } else {
      assert s2.peers[j] == s.peers[j] && s.peers[j].generation != o.generation;
    }
  }

  lemma CommitMaps(s: Table, o: Offer)
    requires StillValid(s, o) && Inverse(s)
    ensures Inverse(CommitOffer(s, o)) && CommitOffer(s, o).peers.Keys == s.peers.Keys
  {
  }

  lemma CommitRecorded(s: Table, o: Offer)
    requires StillValid(s, o) && Recorded(s) && Tracked(s, o.id)
    ensures Recorded(CommitOffer(s, o))
  {
  }

  lemma CommitOk(s: Table, o: Offer)
    requires TableOk(s) && StillValid(s, o) && Fresh(s, o)
    ensures TableOk(CommitOffer(s, o))
  {
    hide Ordered, Recorded, Inverse;
    var s2 := CommitOffer(s, o);
    assert Tracked(s, o.id);
    OrderedAppend(s.options, s.log, Commit(o.generation, o.id, o.packet.token, o.packet.sequence, o.packet.endpoint));
    CommitMaps(s, o);
    CommitRecorded(s, o);
    SameSize(s.peers, s2.peers);
    forall j | j in s2.peers ensures Tracked(s2, j) { CommitTracked(s, o, j); }
  }

  lemma SameSize(m: map<Id, Peer>, m2: map<Id, Peer>)
    requires m.Keys == m2.Keys
    ensures |m| == |m2|
  {
    assert |m| == |m.Keys| && |m2| == |m2.Keys|;
  }

  /** A packet that passes is an offer that stays fresh until this poller commits. */
  lemma PassesFresh(s: Table, p: Packet)
    requires TableOk(s) && Passes(s, p)
    ensures Fresh(s, Accepted(s, p))
  {
    hide Ordered, Recorded;
    assert Tracked(s, s.tokens[p.token]);
  }

  /** Whatever other threads do to the table meanwhile. */
  lemma FreshKept(s: Table, o: Offer, id: Id, token: Token, ok: bool)
    requires TableOk(s) && Fresh(s, o)
    ensures Fresh(Register(s, id, token), o) && Fresh(Unregister(s, id), o) && Fresh(Close(s), o)
    ensures Fresh(Bind(s, ok), o)
  {
    hide TableOk;
  }

  // Steps.

  lemma TableStep(w: World, s2: Table)
    requires Safe(w) && TableOk(s2) && forall t :: t in w.threads && HasOffer(w.threads[t]) ==>
      Fresh(s2, w.threads[t].offer)
    ensures Safe(w.(table := s2))
  {
    hide TableOk, Fresh;
  }

  lemma OutsideStep(w: World, a: Action)
    requires Safe(w) && (a.ABind? || a.AClose? || a.ARegister? || a.AUnregister?)
    ensures Safe(Apply(w, a))
  {
    hide TableOk, Fresh, Register, Unregister, Close, Bind;
    var id, token := if a.ARegister? || a.AUnregister? then a.id else 0, if a.ARegister? then a.token else 0;
    var ok := a.ABind? && a.ok;
    forall t | t in w.threads && HasOffer(w.threads[t])
      ensures Fresh(Register(w.table, id, token), w.threads[t].offer)
      ensures Fresh(Unregister(w.table, id), w.threads[t].offer)
      ensures Fresh(Close(w.table), w.threads[t].offer) && Fresh(Bind(w.table, ok), w.threads[t].offer)
    {
      FreshKept(w.table, w.threads[t].offer, id, token, ok);
    }
    RegisterOk(w.table, id, token);
    UnregisterOk(w.table, id);
    BindOk(w.table, ok);
    CloseOk(w.table);
    TableStep(w, Apply(w, a).table);
  }

  lemma BindOk(s: Table, ok: bool)
    requires TableOk(s)
    ensures TableOk(Bind(s, ok))
  {
    hide TableOk;
    if ok { CloseOk(s); }
  }

  lemma PollerStep(w: World, w2: World, t: nat)
    requires Safe(w) && t in w.threads && TableOk(w2.table) && w2.polling == w.polling && w2.owner == w.owner
    requires t in w2.threads && w2.threads == w.threads[t := w2.threads[t]]
    requires HasOffer(w2.threads[t]) ==> Fresh(w2.table, w2.threads[t].offer)
    ensures Safe(w2)
  {
    hide TableOk, Fresh;
  }

  lemma StepSafe(w: World, a: Action)
    requires Safe(w) && Enabled(w, a)
    ensures Safe(Apply(w, a))
  {
    hide TableOk, Fresh, Passes, StillValid, CommitOffer;
    match a
    case ABind(_) => OutsideStep(w, a);
    case AClose => OutsideStep(w, a);
    case ARegister(_, _) => OutsideStep(w, a);
    case AUnregister(_) => OutsideStep(w, a);
    case APoll(t) =>
    case ABegin(t) => PollerStep(w, Apply(w, a), t);
    case AReceive(t, packet, stop) =>
      if packet.Some? && Passes(w.table, packet.value) { PassesFresh(w.table, packet.value); }
      PollerStep(w, ReceiveStep(w, t, w.threads[t].binding, packet, stop), t);
    case AAdmit(t, allow, thrown) => PollerStep(w, Apply(w, a), t);
    case ACommit(t) =>
      if StillValid(w.table, w.threads[t].offer) { CommitOk(w.table, w.threads[t].offer); }
      PollerStep(w, CommitStep(w, t, w.threads[t].binding, w.threads[t].offer), t);
    case ADeliver(t, thrown) => PollerStep(w, Apply(w, a), t);
    case AClear(t) =>
  }

  // Runs.

  ghost predicate Initial(w: World) {
    && w.table == Table(w.table.options, false, 0, 0, map[], map[], [], map[]) && !w.polling && w.threads == map[]
    && w.owner == None
  }

  ghost predicate StepAt(ws: seq<World>, acts: seq<Action>, i: nat)
    requires |ws| == |acts| + 1 && i < |acts|
  {
    Enabled(ws[i], acts[i]) && ws[i + 1] == Apply(ws[i], acts[i])
  }

  ghost predicate IsRun(ws: seq<World>, acts: seq<Action>) {
    |ws| == |acts| + 1 && Initial(ws[0]) && forall i :: 0 <= i < |acts| ==> StepAt(ws, acts, i)
  }

  lemma RunSafe(ws: seq<World>, acts: seq<Action>, i: nat)
    requires IsRun(ws, acts) && i < |ws|
    ensures Safe(ws[i])
  {
    assert Safe(ws[0]);
    hide Safe, Apply, Enabled, Initial;
    for j := 0 to i
      invariant Safe(ws[j])
    {
      assert StepAt(ws, acts, j);
      StepSafe(ws[j], acts[j]);
    }
  }

  /**
    The latest commit of a registration is not below any earlier one, and without migration is from the same endpoint.
   */
  lemma {:induction false} LastCovers(o: Options, log: seq<Commit>, i: nat)
    requires Ordered(o, log) && i < |log|
    ensures var last := Last(log, log[i].generation);
      && last.Some? && log[i].sequence <= last.value.sequence
      && (!o.allowMigration ==> last.value.endpoint == log[i].endpoint)
    decreases |log|
  {
    var n := |log| - 1;
    var init := log[..n];
    forall j | 0 <= j < n
      ensures Follows(o, Last(init[..j], init[j].generation), init[j])
    {
      assert init[..j] == log[..j];
    }
    if i < n {
      LastCovers(o, init, i);
      assert Follows(o, Last(log[..n], log[n].generation), log[n]);
    }
  }

  /**
    Of two commits of one registration the later has the higher sequence, the same session and token, and without
    migration the same endpoint.
   */
  lemma SequencesRise(ws: seq<World>, acts: seq<Action>, n: nat, i: nat, j: nat)
    requires IsRun(ws, acts) && n < |ws| && i < j < |ws[n].table.log|
    requires ws[n].table.log[i].generation == ws[n].table.log[j].generation
    ensures var s := ws[n].table; var a, b := s.log[i], s.log[j];
      && a.sequence < b.sequence && a.id == b.id && a.token == b.token
      && (!s.options.allowMigration ==> a.endpoint == b.endpoint)
  {
    RunSafe(ws, acts, n);
    hide Inverse, Tracked, Pollers, Last;
    var s := ws[n].table;
    var init := s.log[..j];
    forall k | 0 <= k < j
      ensures Follows(s.options, Last(init[..k], init[k].generation), init[k])
    {
      assert init[..k] == s.log[..k];
    }
    LastCovers(s.options, init, i);
    assert Follows(s.options, Last(s.log[..j], s.log[j].generation), s.log[j]);
  }

  /**
    Each commit is at most the allowed jump above the registration's previous one, or above zero if it is the first.
   */
  lemma JumpsAreBounded(ws: seq<World>, acts: seq<Action>, n: nat, j: nat)
    requires IsRun(ws, acts) && n < |ws| && j < |ws[n].table.log|
    ensures var s := ws[n].table; var before := Reached(Last(s.log[..j], s.log[j].generation));
      before < s.log[j].sequence <= before + s.options.maxJump
  {
    RunSafe(ws, acts, n);
    hide Inverse, Tracked, Pollers, Last;
    var s := ws[n].table;
    assert Follows(s.options, Last(s.log[..j], s.log[j].generation), s.log[j]);
  }

  /**
    The peer and token maps are inverse to each other, a session's state is that of its registration's last commit, and
    one thread polls.
   */
  lemma MapsStayInverse(ws: seq<World>, acts: seq<Action>, n: nat, id: Id, token: Token, t: nat, u: nat)
    requires IsRun(ws, acts) && n < |ws|
    ensures var s := ws[n].table;
      (id in s.peers && s.peers[id].token == token) <==> (token in s.tokens && s.tokens[token] == id)
    ensures var s := ws[n].table; id in s.peers ==> s.peers[id].received == Reached(Last(s.log, s.peers[id].generation))
    ensures |ws[n].table.peers| <= ws[n].table.options.maxSessions
    ensures t in ws[n].threads && u in ws[n].threads ==> t == u
  {
    RunSafe(ws, acts, n);
    hide Ordered, Recorded, Fresh, Last;
    if id in ws[n].table.peers { assert Tracked(ws[n].table, id); }
  }
}
