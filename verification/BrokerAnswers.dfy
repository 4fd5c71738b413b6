/** What every accepted frame does, to the last message: who is told what, which error comes first, and what stays. */
module BrokerAnswers {
  import opened Common
  import opened Protocol
  import opened Outbox
  import opened Registry
  import opened Presence
  import opened Handles
  import opened Broker
  import opened BrokerInv
  import opened BrokerPresence
  import opened BrokerTrace
  import opened BrokerLedger
  import R = Relay
  import Q = Quota

  /** The state but for its channels, which became `net`; the clock moved on. */
  function Told(s: State, e: Event, net: Net): State
    requires e.Frame?
  {
    s.(net := net, clock := e.inputs.clock.now)
  }

  /** Nothing happens, except that the connection is told of the error. */
  function Fails(env: Env, s: State, e: Event, err: BrokerError): State
    requires e.Frame?
  {
    Told(s, e, s.net.Send(e.c, Error(err, env.requestIdOf(e.text))))
  }

  /** The frame is accepted as message `m`. */
  ghost predicate Hears(env: Env, s: State, e: Event, m: ClientMessage) {
    e.Frame? && Enabled(s, e) && Heard(env, s, e) == Some(m)
  }

  // ---------------------------------------------------------------- signals

  /** A signal arrives exactly when the limiter agrees, the payload decodes to at most 4 KiB, and the peer is registered
      on an open channel; otherwise the first of these that fails is reported, and nothing else happens. */
  lemma SignalAnswer(env: Env, s: State, e: Event, m: ClientMessage)
    requires Hears(env, s, e, m) && m.Signal?
    ensures
      var s', len := Step(env, s, e), env.decodedLen(m.payload);
      var small := len.Some? && len.value <= 4096;
      && (e.inputs.limiterOk && small && Reachable(s, m.to) ==>
            s' == Told(s, e, s.net.Send(s.reg.peers[m.to].tx, IncomingSignal(s.conns[e.c], m.payload, e.utc))))
      && (!e.inputs.limiterOk ==> s' == Fails(env, s, e, RateLimited))
      && (e.inputs.limiterOk && len.None? ==> s' == Fails(env, s, e, Malformed))
      && (e.inputs.limiterOk && len.Some? && !small ==> s' == Fails(env, s, e, PayloadTooLarge(len.value, 4096)))
      && (e.inputs.limiterOk && small && !Reachable(s, m.to) ==> s' == Fails(env, s, e, PeerOffline))
  {
  }

  // ---------------------------------------------------------------- relay sessions

  /** A request records a pending session under the fresh id as soon as the peer is registered; the peer gets the offer
      and the asker the answer if the peer's channel is open. */
  lemma RequestAnswer(env: Env, s: State, e: Event, m: ClientMessage)
    requires Hears(env, s, e, m) && m.RequestRelay?
    ensures
      var s', p, id := Step(env, s, e), s.conns[e.c], e.inputs.freshId;
      var asked := s.(sessions := s.sessions[id := R.Session(p, m.peer, R.Pending)], issued := s.issued + {id});
      && (m.peer !in s.reg.peers ==> s' == Fails(env, s.(issued := s.issued + {id}), e, PeerOffline))
      && (m.peer in s.reg.peers && !Reachable(s, m.peer) ==> s' == Fails(env, asked, e, PeerOffline))
      && (Reachable(s, m.peer) ==>
            var net := s.net.Send(s.reg.peers[m.peer].tx, RelayOffer(id, p));
            s' == Told(asked, e, net.Send(e.c, RelaySessionEstablished(id, m.peer, m.requestId))))
  {
  }

  /** The session waits for `p` to accept it. */
  predicate Awaits(s: State, id: SessionId, p: string) {
    id in s.sessions && s.sessions[id].responder == p && s.sessions[id].state == R.Pending
  }

  /** An accept is refused unless it names a session that waits for its sender. */
  lemma AcceptRefused(env: Env, s: State, e: Event, m: ClientMessage)
    requires Hears(env, s, e, m) && m.AcceptRelay?
    ensures
      var s', p, id := Step(env, s, e), s.conns[e.c], env.uuid(m.sessionId);
      && (id.None? ==> s' == Fails(env, s, e, Malformed))
      && (id.Some? && id.value !in s.sessions ==> s' == Fails(env, s, e, RelaySessionNotFound))
      && (id.Some? && id.value in s.sessions && !Awaits(s, id.value, p) ==> s' == Fails(env, s, e, RelayNotConsented))
  {
  }

  /** A good accept makes the session active, whoever can be told. Both parties are told, the initiator first; if one is
      not registered or the initiator's channel is closed nobody is, and if only the acceptor's is closed it alone is
      not. */
  lemma AcceptAnswer(env: Env, s: State, e: Event, m: ClientMessage, id: SessionId)
    requires Hears(env, s, e, m) && m.AcceptRelay? && env.uuid(m.sessionId) == Some(id) && Awaits(s, id, s.conns[e.c])
    ensures
      var s', p, a := Step(env, s, e), s.conns[e.c], s.sessions[id].initiator;
      var active := s.(sessions := s.sessions[id := R.Session(a, p, R.Active)]);
      && (Reachable(s, a) && Reachable(s, p) ==>
            var net := s.net.Send(s.reg.peers[a].tx, RelaySessionEstablished(id, p, None));
            s' == Told(active, e, net.Send(s.reg.peers[p].tx, RelaySessionEstablished(id, a, None))))
      && (!Reachable(s, a) || p !in s.reg.peers ==> s' == Fails(env, active, e, PeerOffline))
      && (Reachable(s, a) && p in s.reg.peers && !Reachable(s, p) ==>
            var net := s.net.Send(s.reg.peers[a].tx, RelaySessionEstablished(id, p, None));
            s' == Fails(env, active.(net := net), e, PeerOffline))
  {
  }

  // ---------------------------------------------------------------- relayed data

  /** A frame for no active session of its sender, or that does not decode to at most 64 KiB, changes no quota, puts no
      data on a channel and counts nothing; the first of these that fails is reported. */
  lemma RelayRefused(env: Env, s: State, e: Event, m: ClientMessage)
    requires Hears(env, s, e, m) && m.Relay?
    ensures
      var s', p, id, len := Step(env, s, e), s.conns[e.c], env.uuid(m.sessionId), env.decodedLen(m.data);
      && (id.None? ==> s' == Fails(env, s, e, Malformed))
      && (id.Some? && id.value !in s.sessions ==> s' == Fails(env, s, e, RelaySessionNotFound))
      && (id.Some? && id.value in s.sessions && !IsParty(s.sessions, id.value, p) ==>
            s' == Fails(env, s, e, RelayNotConsented))
      && (id.Some? && IsParty(s.sessions, id.value, p) && len.None? ==> s' == Fails(env, s, e, Malformed))
      && (id.Some? && IsParty(s.sessions, id.value, p) && len.Some? && len.value > 65536 ==>
            s' == Fails(env, s, e, PayloadTooLarge(len.value, 65536)))
  {
  }

  /** The sender's quota, or a new one: a full bucket of 1 MiB, nothing used, the two clock readings in their order. */
  function Held(s: State, p: string, r: R.Readings): Q.State {
    if p in s.quotas then s.quotas[p] else Q.State(1048576.0, r.made, 0, r.begun)
  }

  /** Any other frame is put to its sender's quota, made with a full bucket if it is the sender's first. It is charged
      before it is known whether the other party can be reached. */
  lemma RelayAnswer(env: Env, s: State, e: Event, m: ClientMessage, id: SessionId, size: nat)
    requires Hears(env, s, e, m) && m.Relay? && env.uuid(m.sessionId) == Some(id)
    requires IsParty(s.sessions, id, s.conns[e.c])
    requires env.decodedLen(m.data) == Some(size) && size <= 65536
    ensures
      var s', p, r := Step(env, s, e), s.conns[e.c], e.inputs.clock;
      var other := OtherParty(s.sessions[id], p);
      var (q, o) := Q.Consume(Held(s, p, r), r.now, size);
      var metered := s.(quotas := s.quotas[p := q]);
      && (o == Q.QuotaExceeded ==> s' == Fails(env, metered, e, RelayQuotaExceeded))
      && (o == Q.RateLimited ==> s' == Fails(env, metered, e, RateLimited))
      && (o == Q.Accepted && !Reachable(s, other) ==> s' == Fails(env, metered, e, PeerOffline))
      && (o == Q.Accepted && Reachable(s, other) ==>
            s' == Told(metered.(relayBytes := s.relayBytes + size), e,
                       s.net.Send(s.reg.peers[other].tx, RelayData(id, p, m.data))))
  {
  }

  // ---------------------------------------------------------------- presence

  /** `p` watches `ts` as well, or no longer; for everybody else all is as it was. */
  ghost predicate Added(subs: Subs, subs': Subs, p: string, ts: seq<string>) {
    forall k, t :: t in At(subs', k) <==> t in At(subs, k) || (k == p && t in ts)
  }

  predicate StillWatches(subs: Subs, p: string, ts: seq<string>, k: string, t: string) {
    t in At(subs, k) && !(k == p && t in ts)
  }

  ghost predicate Removed(subs: Subs, subs': Subs, p: string, ts: seq<string>) {
    forall k, t :: t in At(subs', k) <==> StillWatches(subs, p, ts, k, t)
  }

  lemma ChangesExactly(subs: Subs, p: string, ts: seq<string>)
    ensures Added(subs, Subscribed(subs, p, ts), p, ts) && Removed(subs, Unsubscribed(subs, p, ts), p, ts)
  {
    var more, less := Subscribed(subs, p, ts), Unsubscribed(subs, p, ts);
    forall k, t ensures t in At(more, k) <==> t in At(subs, k) || (k == p && t in ts) {
      SubscriptionMeans(subs, p, ts, k, t);
    }
    forall k, t ensures t in At(less, k) <==> StillWatches(subs, p, ts, k, t) {
      SubscriptionMeans(subs, p, ts, k, t);
    }
  }

  /** A subscription adds exactly its targets, and is answered by an acknowledgement and then each target's state in the
      order asked, repeats included. */
  lemma SubscribeAnswer(env: Env, s: State, e: Event, m: ClientMessage)
    requires Hears(env, s, e, m) && m.SubscribePresence?
    ensures
      var s', p := Step(env, s, e), s.conns[e.c];
      && s' == Told(s, e, s'.net).(subs := s'.subs)
      && Added(s.subs, s'.subs, p, m.peers)
      && exists ms :: s'.net == s.net.SendAll(e.c, ms) && IsAck(ms, s, m)
  {
    SubscribeShape(env, s, e);
    ChangesExactly(s.subs, s.conns[e.c], m.peers);
    assert IsAck(SubscribeReplies(s.reg, m.peers, m.requestId), s, m);
  }

  predicate IsAck(ms: seq<ServerMessage>, s: State, m: ClientMessage)
    requires m.SubscribePresence?
  {
    && |ms| == |m.peers| + 1 && ms[0] == SubscribePresenceAck(m.peers, m.requestId)
    && forall i :: 0 <= i < |m.peers| ==> ms[i + 1] == PresenceUpdate(m.peers[i], m.peers[i] in s.reg.peers)
  }

  /** Unsubscribing takes exactly its targets away, and is not answered. */
  lemma UnsubscribeAnswer(env: Env, s: State, e: Event, m: ClientMessage)
    requires Hears(env, s, e, m) && m.UnsubscribePresence?
    ensures
      var s', p := Step(env, s, e), s.conns[e.c];
      && s' == Told(s, e, s.net).(subs := s'.subs)
      && Removed(s.subs, s'.subs, p, m.peers)
  {
    UnsubscribeShape(env, s, e);
    ChangesExactly(s.subs, s.conns[e.c], m.peers);
  }

  // ---------------------------------------------------------------- lookups and the rest

  /** The kind a lookup reports: what the database has on record, if it answers. */
  ghost predicate Reports(s: State, kindOk: bool, k: string, kind: Option<IdentityKind>) {
    var known := s.db.Some? && kindOk && k in s.db.value.peers;
    && (kind == Some(User) <==> known && s.db.value.peers[k].kind == "user")
    && (kind == Some(Machine) <==> known && s.db.value.peers[k].kind == "machine")
  }

  /** A peer is found exactly when it is registered, and then all of its registration is told. */
  lemma LookupPeerAnswer(env: Env, s: State, e: Event, m: ClientMessage)
    requires Hears(env, s, e, m) && m.LookupPeer? && Inv(s)
    ensures
      var s', k := Step(env, s, e), m.targetPubkey;
      && (k !in s.reg.peers ==> s' == Told(s, e, s.net.Send(e.c, Error(PeerNotFound, m.requestId))))
      && (k in s.reg.peers ==>
            var x := s.reg.peers[k];
            exists kind :: Reports(s, e.inputs.kindOk, k, kind) && s' == Told(s, e, s.net.Send(e.c,
              PeerInfo(k, x.handle, x.addresses, Some(x.reflected), true, kind, m.requestId))))
  {
    var kind := KindOf(s.db, e.inputs.kindOk, m.targetPubkey);
    assert Reports(s, e.inputs.kindOk, m.targetPubkey, kind);
  }

  /** The owner of a handle: the table's with a database, the registry's without. */
  ghost predicate Owns(s: State, h: string, k: string) {
    if s.db.Some? then h in s.db.value.handles && s.db.value.handles[h] == k
    else h in s.reg.handleIndex && s.reg.handleIndex[h] == k
  }

  lemma LookupHandleRefused(env: Env, s: State, e: Event, m: ClientMessage)
    requires Hears(env, s, e, m) && m.LookupHandle?
    ensures
      var s' := Step(env, s, e);
      && (s.db.Some? && !e.inputs.handleOk ==> s' == Fails(env, s, e, Database))
      && ((s.db.Some? ==> e.inputs.handleOk) && (forall k :: !Owns(s, m.targetHandle, k)) ==>
            s' == Told(s, e, s.net.Send(e.c, Error(PeerNotFound, m.requestId))))
  {
    var index := if s.db.Some? then s.db.value.handles else s.reg.handleIndex;
    if m.targetHandle in index { assert Owns(s, m.targetHandle, index[m.targetHandle]); }
  }

  /** A handle that is owned is told with its owner, online or not. */
  lemma LookupHandleAnswer(env: Env, s: State, e: Event, m: ClientMessage, k: string)
    requires Hears(env, s, e, m) && m.LookupHandle? && (s.db.Some? ==> e.inputs.handleOk) && Owns(s, m.targetHandle, k)
    ensures exists kind :: Reports(s, e.inputs.kindOk, k, kind) && Step(env, s, e) == Told(s, e, s.net.Send(e.c,
      if k in s.reg.peers then
        PeerInfo(k, Some(m.targetHandle), s.reg.peers[k].addresses, Some(s.reg.peers[k].reflected), true, kind,
          m.requestId)
      else PeerInfo(k, Some(m.targetHandle), PeerAddresses([], None), None, false, kind, m.requestId)))
  {
    var kind := KindOf(s.db, e.inputs.kindOk, k);
    assert Reports(s, e.inputs.kindOk, k, kind);
  }

  /** A register on a connection that has one is answered with what is registered, and changes nothing. */
  lemma RegisterAgainAnswer(env: Env, s: State, e: Event, m: ClientMessage)
    requires Hears(env, s, e, m) && m.Register?
    ensures
      var s', p := Step(env, s, e), s.conns[e.c];
      && (p in s.reg.peers ==> s' == Told(s, e, s.net.Send(e.c,
            Registered(p, s.reg.peers[p].reflected, s.reg.peers[p].handle != None, m.requestId))))
      && (p !in s.reg.peers ==> s' == Told(s, e, s.net.Send(e.c, Registered(p, "", false, m.requestId))))
  {
  }

  lemma PingAnswer(env: Env, s: State, e: Event, m: ClientMessage)
    requires Hears(env, s, e, m) && m.Ping?
    ensures Step(env, s, e) == Told(s, e, s.net.Send(e.c, Pong(m.timestamp)))
  {
  }

  /** Teams need a database. */
  lemma TeamLookupAnswer(env: Env, s: State, e: Event, m: ClientMessage)
    requires Hears(env, s, e, m) && m.TeamLookup?
    ensures
      var s', team := Step(env, s, e), e.inputs.team;
      && (s.db.None? ==> s' == Fails(env, s, e, Internal))
      && (s.db.Some? && team.Refused? ==> s' == Fails(env, s, e, team.error))
      && (s.db.Some? && team.Done? ==> s' == Told(s, e, s.net.Send(e.c, TeamReply(m.requestId))))
  {
  }

  /** An announce also makes sure of the announcer's row, and leaves all other rows alone. */
  lemma TeamAnnounceAnswer(env: Env, s: State, e: Event, m: ClientMessage)
    requires Hears(env, s, e, m) && m.TeamAnnounce?
    ensures
      var s', team := Step(env, s, e), e.inputs.team;
      && (s.db.None? ==> s' == Fails(env, s, e, Internal))
      && (s.db.Some? && team.Refused? ==> s' == Fails(env, s, e, team.error).(db := s'.db))
      && (s.db.Some? && team.Done? ==> s' == Told(s, e, s.net.Send(e.c, TeamReply(m.requestId))).(db := s'.db))
      && (s.db.Some? && team.Refused? && !team.upserted ==> s'.db == s.db)
  {
  }

  lemma AnnounceRow(env: Env, s: State, e: Event, m: ClientMessage)
    requires Hears(env, s, e, m) && m.TeamAnnounce? && s.db.Some? && (e.inputs.team.Done? || e.inputs.team.upserted)
    ensures WithRow(s.db.value, Step(env, s, e).db, s.conns[e.c])
  {
    UpsertMeans(s.db.value, s.conns[e.c], "");
    assert Step(env, s, e).db == Some(UpsertPeer(s.db.value, s.conns[e.c]));
  }

  /** `db` is `t` with a row for `p`, a plain one if there was none. */
  ghost predicate WithRow(t: Tables, db: Option<Tables>, p: string) {
    && db.Some? && db.value.handles == t.handles && p in db.value.peers
    && db.value.peers.Keys == t.peers.Keys + {p}
    && (forall k :: k in t.peers ==> db.value.peers[k] == t.peers[k])
    && (p !in t.peers ==> db.value.peers[p] == PeerRow(None, "user"))
  }

  // ---------------------------------------------------------------- frames that are not accepted

  /** A text that does not parse, does not verify or speaks for another key is answered with an error and does
      nothing. */
  lemma RefusedAnswer(env: Env, s: State, e: Event)
    requires e.Frame? && Enabled(s, e) && Heard(env, s, e).None?
    ensures
      var s' := Step(env, s, e);
      match env.parse(e.text)
      case None => s' == Fails(env, s, e, Malformed)
      case Some(m) =>
        && (Verify(env, m, e.utc).Some? ==> s' == Fails(env, s, e, Verify(env, m, e.utc).value))
        && (Verify(env, m, e.utc).None? ==> m.pubkey != s.conns[e.c] && s' == Fails(env, s, e, Malformed))
  {
  }

  /** Which check fails first, and that a message passes exactly when its key and signature decode, it is at most 60 s
      off, and its signature verifies over its canonical bytes. */
  lemma VerifyExactly(env: Env, m: ClientMessage, utc: int)
    requires 0 <= utc < 0x4000_0000_0000_0000
    ensures
      var v, off := Verify(env, m, utc), utc - m.timestamp;
      var recent := -60 <= off <= 60;
      var good := env.verify(m.pubkey, env.canonical(m), m.signature);
      && (v.None? <==> env.keyOk(m.pubkey) && recent && env.signatureOk(m.signature) && good)
      && (v == Some(InvalidPubKey) <==> !env.keyOk(m.pubkey))
      && (v == Some(InvalidSignature) <==> env.keyOk(m.pubkey) && recent && !env.signatureOk(m.signature))
      && (v == Some(SignatureVerifyFailed) <==> env.keyOk(m.pubkey) && recent && env.signatureOk(m.signature) && !good)
      && (env.keyOk(m.pubkey) && 60 < off < 0x8000_0000_0000_0000 ==> v == Some(StaleMessage(off)))
      && (env.keyOk(m.pubkey) && off < -60 ==> v == Some(FutureMessage(-off)))
  {
    WrapMeans(utc - m.timestamp);
  }

  lemma WrapMeans(n: int)
    ensures -0x8000_0000_0000_0000 <= n < 0x8000_0000_0000_0000 ==> Wrap64(n) == n
    ensures 0x8000_0000_0000_0000 <= n < 0x1_0000_0000_0000_0000 ==> Wrap64(n) == n - 0x1_0000_0000_0000_0000
  {
  }

  // ---------------------------------------------------------------- arrival

  /** Some entry of some channel is new, and is `m`. */
  ghost predicate Arrives(s: State, s': State, m: ServerMessage) {
    exists c :: Adds(s.net, s'.net, c, m)
  }

  lemma SendArrives(n: Net, d: ConnId, x: ServerMessage)
    requires n.Open(d)
    ensures Adds(n, n.Send(d, x), d, x)
  {
    SendMeans(n, d, x);
    assert n.Send(d, x).boxes[d][|n.boxes[d]|] == x;
  }

  /** A signal arrives if and only if all four conditions hold. */
  lemma SignalArrivesIff(env: Env, s: State, e: Event, m: ClientMessage)
    requires Hears(env, s, e, m) && m.Signal?
    ensures
      var len := env.decodedLen(m.payload);
      Arrives(s, Step(env, s, e), IncomingSignal(s.conns[e.c], m.payload, e.utc)) <==>
      e.inputs.limiterOk && len.Some? && len.value <= 4096 && Reachable(s, m.to)
  {
    var len, x := env.decodedLen(m.payload), IncomingSignal(s.conns[e.c], m.payload, e.utc);
    SignalAnswer(env, s, e, m);
    if e.inputs.limiterOk && len.Some? && len.value <= 4096 && Reachable(s, m.to) {
      SendArrives(s.net, s.reg.peers[m.to].tx, x);
    } else {
      FailureSaysNothing(env, s, e, Step(env, s, e), x);
    }
  }

  lemma FailureSaysNothing(env: Env, s: State, e: Event, s': State, x: ServerMessage)
    requires e.Frame? && Sourced(x) && exists err :: s' == Fails(env, s, e, err)
    ensures !Arrives(s, s', x)
  {
    var err :| s' == Fails(env, s, e, err);
    SendAdds(s.net, e.c, Error(err, env.requestIdOf(e.text)));
  }

  /** A relayed frame arrives if and only if its session is an active one of its sender, it decodes to at most 64 KiB,
      the quota accepts it, and the other party is registered on an open channel. */
  lemma RelayArrivesIff(env: Env, s: State, e: Event, m: ClientMessage, id: SessionId)
    requires Hears(env, s, e, m) && m.Relay? && env.uuid(m.sessionId) == Some(id)
    ensures
      var p, len, r := s.conns[e.c], env.decodedLen(m.data), e.inputs.clock;
      Arrives(s, Step(env, s, e), RelayData(id, p, m.data)) <==>
        && IsParty(s.sessions, id, p) && len.Some? && len.value <= 65536
        && Q.Consume(Held(s, p, r), r.now, len.value).1 == Q.Accepted
        && Reachable(s, OtherParty(s.sessions[id], p))
  {
    var p, len, x := s.conns[e.c], env.decodedLen(m.data), RelayData(id, s.conns[e.c], m.data);
    if IsParty(s.sessions, id, p) && len.Some? && len.value <= 65536 {
      MeteredArrivesIff(env, s, e, m, id, len.value);
    } else {
      RelayRefused(env, s, e, m);
      FailureSaysNothing(env, s, e, Step(env, s, e), x);
    }
  }

  lemma MeteredArrivesIff(env: Env, s: State, e: Event, m: ClientMessage, id: SessionId, size: nat)
    requires Hears(env, s, e, m) && m.Relay? && env.uuid(m.sessionId) == Some(id)
    requires IsParty(s.sessions, id, s.conns[e.c]) && env.decodedLen(m.data) == Some(size) && size <= 65536
    ensures
      var p, r := s.conns[e.c], e.inputs.clock;
      Arrives(s, Step(env, s, e), RelayData(id, p, m.data)) <==>
        && Q.Consume(Held(s, p, r), r.now, size).1 == Q.Accepted
        && Reachable(s, OtherParty(s.sessions[id], p))
  {
    var p, r, s', x := s.conns[e.c], e.inputs.clock, Step(env, s, e), RelayData(id, s.conns[e.c], m.data);
    var other := OtherParty(s.sessions[id], p);
    var (q, o) := Q.Consume(Held(s, p, r), r.now, size);
    RelayAnswer(env, s, e, m, id, size);
    if o == Q.Accepted && Reachable(s, other) {
      SendArrives(s.net, s.reg.peers[other].tx, x);
    } else {
      var metered := s.(quotas := s.quotas[p := q]);
      FailureSaysNothing(env, metered, e, s', x);
    }
  }
}
