/** The broker's shared state and the handlers that change it, one event at a time. */
module Server {
  import opened Common
  import opened Protocol
  import opened Outbox
  import opened Registry
  import opened Presence
  import opened Handles
  import opened Broker
  import opened BrokerInv
  import R = Relay

  lemma SendMore(n: Net, c: ConnId, ms: seq<ServerMessage>, m: ServerMessage)
    ensures n.SendAll(c, ms).Send(c, m) == n.SendAll(c, ms + [m])
  {
    if n.Open(c) { assert (n.boxes[c] + ms) + [m] == n.boxes[c] + (ms + [m]); }
  }

  lemma RegisterIs(s: State, c: ConnId, m: ClientMessage, reflected: string, f: Faults, db: Option<Tables>,
      claimed: bool, s': State)
    requires m.Register? && (db, claimed) == ClaimOnRegister(s.db, m, f)
    requires
      var reg := Insert(s.reg, Peer(m.pubkey, if claimed then m.handle else None, m.addresses, reflected, c));
      var net1 := if s.db.None? && m.handle.Some? then s.net.Send(c, Error(Internal, m.requestId)) else s.net;
      var net2 := net1.Send(c, Registered(m.pubkey, reflected, claimed, m.requestId));
      && s' == s.(conns := s.conns[c := m.pubkey], reg := reg, connected := s.connected + 1, db := db, net := s'.net)
      && s'.net == net2.Fan(Recipients(s.subs, reg.peers, m.pubkey), PresenceUpdate(m.pubkey, true))
    ensures s' == RegisterPeer(s, c, m, reflected, f)
  {
  }

  lemma ConcludeIs(env: Env, s: State, c: ConnId, text: string, utc: int, inp: Inputs, s': State)
    requires c in s.conns
    requires
      var (s1, err) := Settle(s, HandleMessage(env, s, c, text, utc, inp));
      s' == s1.(net := if err.Some? then s1.net.Send(c, Error(err.value, env.requestIdOf(text))) else s1.net,
        clock := inp.clock.now)
    ensures s' == HandleFrame(env, s, c, text, utc, inp)
  {
  }

  lemma RelayIs(s: State, p: string, id: SessionId, data: string, decoded: Option<nat>, r: R.Readings,
                quotas: R.Quotas, net: Net, result: Result<nat>)
    requires (quotas, net, result) == R.Forward(s.sessions, s.quotas, s.reg.peers, s.net, p, id, data, decoded, r)
    ensures
      var bytes := if result.Ok? then result.value else 0;
      Settle(s, RelayEffect(s, p, Some(id), data, decoded, r)) ==
        (s.(quotas := quotas, relayBytes := s.relayBytes + bytes, net := net),
          if result.Ok? then None else Some(result.error))
  {
  }

  /** An effect applied, beside the error still to be reported. */
  function Settle(s: State, r: (Effect, Option<BrokerError>)): (State, Option<BrokerError>) {
    (Apply(s, r.0), r.1)
  }

  class AppState {
    const registry: PeerRegistry
    const presence: PresenceManager
    const relay: R.RelayManager
    const out: Outboxes
    const db: Option<Database>
    var connected: int
    var relayBytes: nat
    var conns: map<ConnId, string>   // what each connection's task keeps of its own: the pubkey it registered
    ghost var issued: set<SessionId>
    ghost var clock: real

    ghost function Store(): set<object> {
      if db.Some? then {db.value} else {}
    }

    ghost function Rows(): Option<Tables>
      reads Store()
    {
      if db.Some? then Some(db.value.tables) else None
    }

    ghost function View(): State
      reads this, registry, presence, relay, relay.quotas.Values, out, Store()
    {
      State(conns, registry.View(), presence.subscriptions, relay.sessions, issued, relay.Levels(), out.net, connected,
            relayBytes, Rows(), clock)
    }

    ghost predicate Valid()
      reads this, registry, presence, relay, relay.quotas.Values, out, Store()
    {
      presence.Valid() && relay.Valid() && Inv(View())
    }

    constructor (database: Option<Database>)
      requires database.Some? ==> Consistent(database.value.tables)
      ensures Valid() && db == database && fresh(registry) && fresh(presence) && fresh(relay) && fresh(out)
      ensures View() == Initial(Rows(), 0.0)
    {
      registry := new PeerRegistry();
      presence := new PresenceManager();
      relay := new R.RelayManager();
      out := new Outboxes();
      db := database;
      connected, relayBytes, conns, issued, clock := 0, 0, map[], {}, 0.0;
    }

    // ---------------------------------------------------------------- registering

    /** The database part of a register: kind, then the handle if one was asked for. */
    method ClaimAtRegister(m: ClientMessage, f: Faults) returns (claimed: bool)
      requires m.Register? && (db.Some? ==> Consistent(db.value.tables))
      modifies Store()
      ensures (Rows(), claimed) == ClaimOnRegister(old(Rows()), m, f)
    {
      claimed := false;
      if db.Some? {
        var kind := KindName(if m.kind.Some? then m.kind.value else User);
        UpsertKeeps(db.value.tables, m.pubkey, kind);
        if !f.kind { db.value.UpsertWithKind(m.pubkey, kind); }
        if m.handle.Some? {
          var ok := ValidateHandle(m.handle.value);
          if ok && !f.upsert {
            UpsertKeeps(db.value.tables, m.pubkey, kind);
            db.value.Upsert(m.pubkey);
            if !f.claim {
              var err := db.value.ClaimRow(m.pubkey, m.handle.value);
              claimed := err.None?;
            }
          }
        }
      }
    }

    /** Insert the peer, tell it, and tell its watchers. */
    method Enter(c: ConnId, m: ClientMessage, peer: Peer, claimed: bool)
      requires m.Register? && peer.pubkey == m.pubkey && peer.tx == c && presence.Valid()
      requires OwnChannels(registry.byPubkey) && forall k :: k in registry.byPubkey ==> registry.byPubkey[k].tx != c
      modifies this`connected, registry, out
      ensures connected == old(connected) + 1 && registry.View() == Insert(old(registry.View()), peer)
      ensures
        var net1 :=
          if db.None? && m.handle.Some? then old(out.net).Send(c, Error(Internal, m.requestId)) else old(out.net);
        var net2 := net1.Send(c, Registered(m.pubkey, peer.reflected, claimed, m.requestId));
        out.net == net2.Fan(Recipients(presence.subscriptions, registry.byPubkey, m.pubkey),
          PresenceUpdate(m.pubkey, true))
    {
      if db.None? && m.handle.Some? {
        var _ := out.TrySend(c, Error(Internal, m.requestId));
      }
      registry.InsertPeer(peer);
      connected := connected + 1;
      var _ := out.TrySend(c, Registered(m.pubkey, peer.reflected, claimed, m.requestId));
      presence.Broadcast(registry, out, m.pubkey, true);
    }

    twostate lemma SameLevels()
      requires unchanged(relay) && forall q :: q in relay.quotas.Values ==> unchanged(q)
      ensures relay.Levels() == old(relay.Levels())
    {
    }

    method Register(c: ConnId, m: ClientMessage, reflected: string, f: Faults)
      requires m.Register? && presence.Valid() && (db.Some? ==> Consistent(db.value.tables))
      requires OwnChannels(registry.byPubkey) && forall k :: k in registry.byPubkey ==> registry.byPubkey[k].tx != c
      modifies this`connected, this`conns, registry, out, Store()
      ensures View() == RegisterPeer(old(View()), c, m, reflected, f)
    {
      var claimed := ClaimAtRegister(m, f);
      Enter(c, m, Peer(m.pubkey, if claimed then m.handle else None, m.addresses, reflected, c), claimed);
      conns := conns[c := m.pubkey];
      SameLevels();
      RegisterIs(old(View()), c, m, reflected, f, Rows(), claimed, View());
    }

    // ---------------------------------------------------------------- one message

    method Say(c: ConnId, m: ServerMessage)
      modifies out
      ensures View() == old(View()).(net := old(out.net).Send(c, m))
    {
      var _ := out.TrySend(c, m);
      SameLevels();
    }

    method PeerKind(pubkey: string, kindOk: bool) returns (kind: Option<IdentityKind>)
      ensures kind == KindOf(Rows(), kindOk, pubkey)
    {
      if db.Some? && kindOk && pubkey in db.value.tables.peers {
        kind := ParseKind(db.value.tables.peers[pubkey].kind);
      } else {
        kind := None;
      }
    }

    method AnswerRegister(c: ConnId, p: string, rid: Option<string>)
      modifies out
      ensures View() == old(View()).(net := old(out.net).Send(c, RegisteredAgain(old(View()), p, rid)))
    {
      var peer := registry.Get(p);
      var reflected := if peer.Some? then peer.value.reflected else "";
      Say(c, Registered(p, reflected, peer.Some? && peer.value.handle.Some?, rid));
    }

    method AnswerLookupPeer(c: ConnId, target: string, rid: Option<string>, kindOk: bool)
      modifies out
      ensures View() == old(View()).(net := old(out.net).Send(c, LookupPeerReply(old(View()), target, rid, kindOk)))
    {
      var peer := registry.Get(target);
      var kind := PeerKind(target, kindOk);
      if peer.Some? {
        var p := peer.value;
        Say(c, PeerInfo(p.pubkey, p.handle, p.addresses, Some(p.reflected), true, kind, rid));
      } else {
        Say(c, Error(PeerNotFound, rid));
      }
    }

    method AnswerLookupHandle(c: ConnId, h: string, rid: Option<string>, handleOk: bool, kindOk: bool)
        returns (err: Option<BrokerError>)
      modifies out
      ensures err == if db.Some? && !handleOk then Some(Database) else None
      ensures View() ==
        if err.Some? then old(View())
        else old(View()).(net := old(out.net).Send(c, LookupHandleReply(old(View()), h, rid, kindOk)))
    {
      if db.Some? && !handleOk { return Some(BrokerError.Database); }
      err := None;
      var owner := if db.Some? then (if h in db.value.tables.handles then Some(db.value.tables.handles[h]) else None)
                   else registry.ResolveHandle(h);
      if owner.None? {
        Say(c, Error(PeerNotFound, rid));
      } else {
        var peer := registry.Get(owner.value);
        var kind := PeerKind(owner.value, kindOk);
        Say(c, PeerInfo(owner.value, Some(h), if peer.Some? then peer.value.addresses else PeerAddresses([], None),
                        if peer.Some? then Some(peer.value.reflected) else None, peer.Some?, kind, rid));
      }
    }

    method RelaySignal(p: string, to: string, payload: string, decoded: Option<nat>, limiterOk: bool, utc: int)
        returns (err: Option<BrokerError>)
      modifies out
      ensures (out.net, err) == SignalPeer(old(View()), p, to, payload, decoded, limiterOk, utc)
      ensures View() == old(View()).(net := out.net)
    {
      SameLevels();
      if !limiterOk { return Some(RateLimited); }
      if decoded.None? { return Some(Malformed); }
      if decoded.value > SIGNALING_MAX_PAYLOAD { return Some(PayloadTooLarge(decoded.value, SIGNALING_MAX_PAYLOAD)); }
      var recipient := registry.Get(to);
      if recipient.None? { return Some(PeerOffline); }
      var ok := out.TrySend(recipient.value.tx, IncomingSignal(p, payload, utc));
      SameLevels();
      return if ok then None else Some(PeerOffline);
    }

    method Subscribe(c: ConnId, p: string, peers: seq<string>, rid: Option<string>)
      requires presence.Valid()
      modifies presence, out
      ensures presence.Valid()
      ensures View() == old(View()).(subs := Subscribed(old(presence.subscriptions), p, peers),
                                     net := old(out.net).SendAll(c, SubscribeReplies(registry.View(), peers, rid)))
    {
      presence.Subscribe(p, peers);
      var online := registry.OnlineSet(peers);
      var _ := out.TrySend(c, SubscribePresenceAck(peers, rid));
      ghost var replies := SubscribeReplies(registry.View(), peers, rid);
      for i := 0 to |online|
        invariant out.net == old(out.net).SendAll(c, replies[..i + 1])
        invariant presence.Valid() && presence.subscriptions == Subscribed(old(presence.subscriptions), p, peers)
      {
        SendMore(old(out.net), c, replies[..i + 1], replies[i + 1]);
        assert replies[..i + 2] == replies[..i + 1] + [replies[i + 1]];
        var _ := out.TrySend(c, PresenceUpdate(online[i].0, online[i].1));
      }
      assert replies[..|online| + 1] == replies;
      SameLevels();
    }

    method Unsubscribe(p: string, peers: seq<string>)
      requires presence.Valid()
      modifies presence
      ensures presence.Valid()
      ensures View() == old(View()).(subs := Unsubscribed(old(presence.subscriptions), p, peers))
    {
      presence.Unsubscribe(p, peers);
      SameLevels();
    }

    method RequestRelay(c: ConnId, p: string, peer: string, rid: Option<string>, id: SessionId)
        returns (err: Option<BrokerError>)
      modifies relay`sessions, out, this`issued
      ensures (View(), err) == Settle(old(View()), RequestRelayEffect(old(View()), c, p, peer, rid, id))
    {
      err := relay.RequestSession(registry, out, id, p, peer);
      issued := issued + {id};
      if err.None? {
        var _ := out.TrySend(c, RelaySessionEstablished(id, peer, rid));
      }
      KeptLevels();
    }

    method AcceptRelay(p: string, id: Option<SessionId>) returns (err: Option<BrokerError>)
      modifies relay`sessions, out
      ensures (View(), err) == Settle(old(View()), AcceptRelayEffect(old(View()), p, id))
    {
      if id.None? { return Some(Malformed); }
      err := relay.AcceptSession(registry, out, p, id.value);
      KeptLevels();
    }

    /** What forwarding changes: the quotas and the channels, and nothing else. */
    method ForwardData(p: string, id: SessionId, data: string, decoded: Option<nat>, r: R.Readings)
        returns (result: Result<nat>)
      requires relay.Valid()
      modifies relay`quotas, relay.quotas.Values, out
      ensures relay.Valid() && fresh(relay.quotas.Values - old(relay.quotas.Values))
      ensures View() == old(View()).(quotas := relay.Levels(), net := out.net)
      ensures
        var s := old(View());
        (relay.Levels(), out.net, result) ==
          R.Forward(s.sessions, s.quotas, s.reg.peers, s.net, p, id, data, decoded, r)
    {
      result := relay.ForwardFrame(registry, out, p, id, data, decoded, r);
    }

    method RelayFrame(p: string, id: SessionId, data: string, decoded: Option<nat>, r: R.Readings)
        returns (err: Option<BrokerError>)
      requires relay.Valid()
      modifies relay`quotas, relay.quotas.Values, out, this`relayBytes
      ensures relay.Valid() && fresh(relay.quotas.Values - old(relay.quotas.Values))
      ensures (View(), err) == Settle(old(View()), RelayEffect(old(View()), p, Some(id), data, decoded, r))
    {
      var result := ForwardData(p, id, data, decoded, r);
      RelayIs(old(View()), p, id, data, decoded, r, relay.Levels(), out.net, result);
      Count(if result.Ok? then result.value else 0);
      err := if result.Ok? then None else Some(result.error);
    }

    method Count(bytes: nat)
      modifies this`relayBytes
      ensures View() == old(View()).(relayBytes := old(relayBytes) + bytes)
    {
      relayBytes := relayBytes + bytes;
      SameLevels();
    }

    twostate lemma KeptLevels()
      requires relay.quotas == old(relay.quotas) && forall q :: q in relay.quotas.Values ==> unchanged(q)
      ensures relay.Levels() == old(relay.Levels())
    {
      forall k | k in relay.quotas ensures relay.Levels()[k] == old(relay.Levels())[k] {
        assert relay.quotas[k] in relay.quotas.Values;
      }
    }

    method LookUpTeam(c: ConnId, rid: Option<string>, team: TeamAnswer) returns (err: Option<BrokerError>)
      modifies out
      ensures (View(), err) == Settle(old(View()), TeamLookupEffect(old(View()), c, rid, team))
    {
      err := None;
      if db.None? {
        err := Some(Internal);
      } else if team.Refused? {
        err := Some(team.error);
      } else {
        Say(c, TeamReply(rid));
      }
    }

    method AnnounceTeam(c: ConnId, p: string, rid: Option<string>, team: TeamAnswer) returns (err: Option<BrokerError>)
      modifies out, Store()
      ensures (View(), err) == Settle(old(View()), TeamAnnounceEffect(old(View()), c, p, rid, team))
    {
      if db.None? { return Some(Internal); }
      err := if team.Done? then None else Some(team.error);
      if team.Done? || team.upserted { db.value.Upsert(p); }
      if team.Done? {
        var _ := out.TrySend(c, TeamReply(rid));
      }
      SameLevels();
    }

    /** The messages that are only answered on the connection. */
    method Answer(env: Env, c: ConnId, p: string, m: ClientMessage, utc: int, inp: Inputs)
        returns (err: Option<BrokerError>)
      requires m.Register? || m.LookupPeer? || m.LookupHandle? || m.TeamLookup? || m.Ping?
      modifies out
      ensures (View(), err) == Settle(old(View()), Dispatch(env, old(View()), c, p, m, utc, inp))
    {
      err := None;
      match m
      case Register(_, _, _, _, _, _, rid) => AnswerRegister(c, p, rid);
      case LookupPeer(_, target, _, _, rid) => AnswerLookupPeer(c, target, rid, inp.kindOk);
      case LookupHandle(_, h, _, _, rid) => err := AnswerLookupHandle(c, h, rid, inp.handleOk, inp.kindOk);
      case TeamLookup(_, _, _, _, rid) => err := LookUpTeam(c, rid, inp.team);
      case Ping(_, timestamp, _) => Say(c, Pong(timestamp));
    }

    /** The messages of the fallback relay. */
    method HandleRelay(env: Env, c: ConnId, p: string, m: ClientMessage, utc: int, inp: Inputs)
        returns (err: Option<BrokerError>)
      requires relay.Valid() && (m.RequestRelay? || m.AcceptRelay? || m.Relay?)
      modifies this`issued, this`relayBytes, relay, relay.quotas.Values, out
      ensures relay.Valid() && fresh(relay.quotas.Values - old(relay.quotas.Values))
      ensures (View(), err) == Settle(old(View()), Dispatch(env, old(View()), c, p, m, utc, inp))
    {
      match m
      case RequestRelay(_, peer, _, _, rid) => err := RequestRelay(c, p, peer, rid, inp.freshId);
      case AcceptRelay(_, sid, _, _, _) => err := AcceptRelay(p, env.uuid(sid));
      case Relay(_, sid, data, _, _) =>
        var id := env.uuid(sid);
        if id.None? { return Some(Malformed); }
        err := RelayFrame(p, id.value, data, env.decodedLen(data), inp.clock);
    }

    method HandleSubscription(env: Env, c: ConnId, p: string, m: ClientMessage, utc: int, inp: Inputs)
      requires presence.Valid() && (m.SubscribePresence? || m.UnsubscribePresence?)
      modifies presence, out
      ensures presence.Valid()
      ensures (View(), None) == Settle(old(View()), Dispatch(env, old(View()), c, p, m, utc, inp))
    {
      match m
      case SubscribePresence(_, peers, _, _, rid) => Subscribe(c, p, peers, rid);
      case UnsubscribePresence(_, peers, _, _, _) => Unsubscribe(p, peers);
    }

    /** The match over messages: one arm, one handler. */
    method Handle(env: Env, c: ConnId, p: string, m: ClientMessage, utc: int, inp: Inputs)
        returns (err: Option<BrokerError>)
      requires presence.Valid() && relay.Valid()
      modifies this`issued, this`relayBytes, presence, relay, relay.quotas.Values, out, Store()
      ensures presence.Valid() && relay.Valid() && fresh(relay.quotas.Values - old(relay.quotas.Values))
      ensures (View(), err) == Settle(old(View()), Dispatch(env, old(View()), c, p, m, utc, inp))
    {
      if m.Signal? {
        err := RelaySignal(p, m.to, m.payload, env.decodedLen(m.payload), inp.limiterOk, utc);
      } else if m.SubscribePresence? || m.UnsubscribePresence? {
        HandleSubscription(env, c, p, m, utc, inp);
        err := None;
      } else if m.RequestRelay? || m.AcceptRelay? || m.Relay? {
        err := HandleRelay(env, c, p, m, utc, inp);
      } else if m.TeamAnnounce? {
        err := AnnounceTeam(c, p, m.requestId, inp.team);
      } else {
        err := Answer(env, c, p, m, utc, inp);
      }
    }

    method HandleClientMessage(env: Env, c: ConnId, text: string, utc: int, inp: Inputs, p: string)
        returns (err: Option<BrokerError>)
      requires presence.Valid() && relay.Valid() && c in conns && conns[c] == p
      modifies this`issued, this`relayBytes, presence, relay, relay.quotas.Values, out, Store()
      ensures presence.Valid() && relay.Valid() && fresh(relay.quotas.Values - old(relay.quotas.Values))
      ensures (View(), err) == Settle(old(View()), HandleMessage(env, old(View()), c, text, utc, inp))
    {
      var parsed := env.parse(text);
      if parsed.None? { return Some(Malformed); }
      var m := parsed.value;
      var refused := Verify(env, m, utc);
      if refused.Some? { return refused; }
      if m.pubkey != p { return Some(Malformed); }
      err := Handle(env, c, p, m, utc, inp);
    }

    /** One turn of the pump: handle the frame and report its error, if any, on the connection. */
    method PumpFrame(env: Env, c: ConnId, text: string, utc: int, inp: Inputs, p: string)
      requires presence.Valid() && relay.Valid() && c in conns && conns[c] == p
      modifies this`issued, this`relayBytes, this`clock, presence, relay, relay.quotas.Values, out, Store()
      ensures presence.Valid() && relay.Valid() && fresh(relay.quotas.Values - old(relay.quotas.Values))
      ensures View() == HandleFrame(env, old(View()), c, text, utc, inp)
    {
      var err := HandleClientMessage(env, c, text, utc, inp, p);
      if err.Some? { Say(c, Error(err.value, env.requestIdOf(text))); }
      Tick(inp.clock.now);
      ConcludeIs(env, old(View()), c, text, utc, inp, View());
    }

    method Tick(now: real)
      modifies this`clock
      ensures View() == old(View()).(clock := now)
    {
      clock := now;
      SameLevels();
    }

    // ---------------------------------------------------------------- opening and closing

    /** The first message of a socket: refuse it, or register the peer. */
    method ServeFirst(env: Env, first: Option<string>, reflected: string, utc: int, f: Faults)
      requires presence.Valid() && Admissible()
      modifies this`connected, this`conns, registry, out, Store()
      ensures View() == OpenSocket(env, old(View()), first, reflected, utc, f)
    {
      var c := out.OpenChannel();
      SameLevels();
      if first.None? {
        Say(c, Error(Malformed, None));
        return;
      }
      var parsed := env.parse(first.value);
      if parsed.None? { return; }
      var m := parsed.value;
      if !m.Register? {
        Say(c, Error(Malformed, RequestIdOf(m)));
        return;
      }
      var refused := Verify(env, m, utc);
      if refused.Some? {
        Say(c, Error(refused.value, m.requestId));
        return;
      }
      Register(c, m, reflected, f);
    }

    /** The tables are consistent, and every registered peer has its own channel among those that exist. */
    ghost predicate Admissible()
      reads registry, out, Store()
    {
      && (db.Some? ==> Consistent(db.value.tables)) && OwnChannels(registry.byPubkey)
      && forall k :: k in registry.byPubkey ==> registry.byPubkey[k].tx < |out.net.boxes|
    }

    /** Once the pump ends: out of the registry first, and its watchers are told last. */
    method CleanUp(c: ConnId, p: string)
      requires presence.Valid() && c in conns && conns[c] == p && OwnChannels(registry.byPubkey)
      modifies this`connected, this`conns, registry, presence, relay`sessions, out
      ensures presence.Valid()
      ensures View() == Cleanup(old(View()), c)
    {
      var _ := registry.RemovePeer(p);
      connected := connected - 1;
      presence.ClearSubscriber(p);
      relay.DropSessionsFor(p);
      presence.Broadcast(registry, out, p, false);
      conns := conns - {c};
      KeptLevels();
    }

    method EndWriter(c: ConnId)
      modifies out
      ensures View() == old(View()).(net := old(out.net).(closed := old(out.net).closed + {c}))
    {
      out.CloseChannel(c);
      SameLevels();
    }

    lemma ValidMeans()
      requires Valid()
      ensures Admissible()
    {
    }

    /** One event, whichever it is, is one step of the broker. */
    method React(env: Env, e: Event)
      requires Valid() && Enabled(View(), e)
      modifies this, registry, presence, relay, relay.quotas.Values, out, Store()
      ensures Valid() && fresh(relay.quotas.Values - old(relay.quotas.Values))
      ensures View() == Step(env, old(View()), e)
    {
      StepKeepsInv(env, View(), e);
      ValidMeans();
      ReactTo(env, e);
    }

    method ReactTo(env: Env, e: Event)
      requires presence.Valid() && relay.Valid() && Admissible() && Enabled(View(), e)
      modifies this, registry, presence, relay, relay.quotas.Values, out, Store()
      ensures presence.Valid() && relay.Valid() && fresh(relay.quotas.Values - old(relay.quotas.Values))
      ensures View() == Step(env, old(View()), e)
    {
      match e
      case Open(first, reflected, utc, f) => ServeFirst(env, first, reflected, utc, f);
      case Frame(c, text, utc, inp) => PumpFrame(env, c, text, utc, inp, conns[c]);
      case Close(c) => CleanUp(c, conns[c]);
      case WriterEnds(c) => EndWriter(c);
    }

    /** The server, fed the events of any run, goes through the run's states. */
    method Serve(env: Env, es: seq<Event>, ghost ss: seq<State>)
      requires Valid() && IsRun(env, ss, es) && ss[0] == View()
      modifies this, registry, presence, relay, relay.quotas.Values, out, Store()
      ensures Valid() && View() == ss[|es|]
    {
      for i := 0 to |es|
        invariant Valid() && View() == ss[i] && fresh(relay.quotas.Values - old(relay.quotas.Values))
      {
        assert Leads(env, ss[i], es[i], ss[i + 1]);
        React(env, es[i]);
      }
    }
  }
}
