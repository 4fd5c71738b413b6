/** Where delivered messages come from. */
module BrokerTrace {
  import opened Common
  import opened Protocol
  import opened Outbox
  import opened Registry
  import opened Presence
  import opened Broker
  import opened BrokerPresence
  import R = Relay

  /** Messages that speak for another peer. */
  predicate Sourced(m: ServerMessage) {
    m.IncomingSignal? || m.RelayOffer? || m.RelayData?
  }

  /** Where the part of a channel that is new in `n'` begins. */
  function NewFrom(n: Net, c: ConnId): nat {
    if c < |n.boxes| then |n.boxes[c]| else 0
  }

  /** `m` was put on channel `c` between `n` and `n'`. */
  ghost predicate Adds(n: Net, n': Net, c: ConnId, m: ServerMessage) {
    c < |n'.boxes| && exists j :: NewFrom(n, c) <= j < |n'.boxes[c]| && n'.boxes[c][j] == m
  }

  /** Entry `j` of channel `c` was put there between `n` and `n'`, and is `m`. */
  predicate Puts(n: Net, n': Net, c: ConnId, j: nat, m: ServerMessage) {
    c < |n'.boxes| && NewFrom(n, c) <= j < |n'.boxes[c]| && n'.boxes[c][j] == m
  }

  /** Channels are only ever appended to. */
  ghost predicate Grew(n: Net, n': Net) {
    |n.boxes| <= |n'.boxes| && forall c :: 0 <= c < |n.boxes| ==> n.boxes[c] <= n'.boxes[c]
  }

  /** Nothing new speaks for another peer. */
  ghost predicate Unsourced(n: Net, n': Net) {
    Grew(n, n') && forall c, m :: Adds(n, n', c, m) ==> !Sourced(m)
  }

  lemma SendAdds(n: Net, d: ConnId, x: ServerMessage)
    ensures Grew(n, n.Send(d, x))
    ensures forall c, m :: Adds(n, n.Send(d, x), c, m) ==> n.Open(d) && c == d && m == x
    ensures !Sourced(x) ==> Unsourced(n, n.Send(d, x))
  {
  }

  lemma AddsSplit(a: Net, b: Net, c: Net)
    requires Grew(a, b) && Grew(b, c)
    ensures Grew(a, c)
    ensures forall d, m :: Adds(a, c, d, m) ==> Adds(a, b, d, m) || Adds(b, c, d, m)
    ensures Unsourced(a, b) && Unsourced(b, c) ==> Unsourced(a, c)
  {
    forall d: ConnId, m: ServerMessage | Adds(a, c, d, m)
      ensures Adds(a, b, d, m) || Adds(b, c, d, m)
    {
      var j :| NewFrom(a, d) <= j < |c.boxes[d]| && c.boxes[d][j] == m;
      if d < |b.boxes| && j < |b.boxes[d]| { assert b.boxes[d][j] == m; }
    }
  }

  /** At most one new message, on all channels together, speaks for another peer. */
  ghost predicate OneSourced(n: Net, n': Net) {
    forall c: ConnId, j: nat, m, d: ConnId, k: nat, x ::
      Puts(n, n', c, j, m) && Sourced(m) && Puts(n, n', d, k, x) && Sourced(x) ==> c == d && j == k
  }

  lemma SendIsOne(n: Net, d: ConnId, x: ServerMessage)
    ensures OneSourced(n, n.Send(d, x))
  {
  }

  lemma UnsourcedIsOne(n: Net, n': Net)
    requires Unsourced(n, n')
    ensures OneSourced(n, n')
  {
    forall c: ConnId, j: nat, m | Puts(n, n', c, j, m) ensures !Sourced(m) {
      assert Adds(n, n', c, m);
    }
  }

  lemma OneThenUnsourced(a: Net, b: Net, c: Net)
    requires Grew(a, b) && OneSourced(a, b) && Unsourced(b, c)
    ensures OneSourced(a, c)
  {
    forall d: ConnId, j: nat, m | Puts(b, c, d, j, m) ensures !Sourced(m) {
      assert Adds(b, c, d, m);
    }
    forall d: ConnId, j: nat, m | Puts(a, c, d, j, m) && Sourced(m) ensures Puts(a, b, d, j, m) {
      assert !Puts(b, c, d, j, m);
    }
  }

  lemma SendAllUnsourced(n: Net, d: ConnId, ms: seq<ServerMessage>)
    requires forall i :: 0 <= i < |ms| ==> !Sourced(ms[i])
    ensures Unsourced(n, n.SendAll(d, ms))
  {
  }

  lemma FanUnsourced(n: Net, cs: set<ConnId>, p: string, online: bool)
    ensures Unsourced(n, n.Fan(cs, PresenceUpdate(p, online)))
  {
  }

  // ---------------------------------------------------------------- the cause of a message

  /** The session is active and `p` is one of its parties. */
  predicate IsParty(ss: R.Sessions, id: SessionId, p: string) {
    id in ss && ss[id].state == R.Active && ss[id].Names(p)
  }

  function OtherParty(x: R.Session, p: string): string {
    if x.initiator == p then x.responder else x.initiator
  }

  /** The frame that made the broker put `m` on channel `d`: an accepted message of the peer `m` speaks for. */
  ghost predicate Caused(env: Env, s: State, p: string, msg: ClientMessage, utc: int, inp: Inputs, d: ConnId,
      m: ServerMessage)
  {
    match m
    case IncomingSignal(from, payload, timestamp) =>
      && from == p && timestamp == utc && msg.Signal? && msg.payload == payload
      && msg.to in s.reg.peers && s.reg.peers[msg.to].tx == d
      && inp.limiterOk && env.decodedLen(payload).Some? && env.decodedLen(payload).value <= SIGNALING_MAX_PAYLOAD
    case RelayOffer(id, from) =>
      from == p && msg.RequestRelay? && id == inp.freshId && msg.peer in s.reg.peers && s.reg.peers[msg.peer].tx == d
    case RelayData(id, from, data) =>
      && from == p && msg.Relay? && msg.data == data && env.uuid(msg.sessionId) == Some(id)
      && env.decodedLen(data).Some? && env.decodedLen(data).value <= RELAY_MAX_FRAME && IsParty(s.sessions, id, p)
      && var to := OtherParty(s.sessions[id], p); to in s.reg.peers && s.reg.peers[to].tx == d
    case _ => true
  }

  lemma DispatchGrew(env: Env, s: State, c: ConnId, p: string, msg: ClientMessage, utc: int, inp: Inputs)
    ensures Grew(s.net, Dispatch(env, s, c, p, msg, utc, inp).0.net)
  {
    if msg.RequestRelay? { RequestCause(env, s, c, p, msg, utc, inp); }
    if msg.AcceptRelay? && env.uuid(msg.sessionId).Some? {
      AcceptUnsourced(s.sessions, s.reg.peers, s.net, p, env.uuid(msg.sessionId).value);
    }
    if msg.Relay? { RelayCause(env, s, c, p, msg, utc, inp); }
  }

  lemma DispatchCause(env: Env, s: State, c: ConnId, p: string, msg: ClientMessage, utc: int, inp: Inputs, d: ConnId,
      m: ServerMessage)
    requires Adds(s.net, Dispatch(env, s, c, p, msg, utc, inp).0.net, d, m) && Sourced(m)
    ensures Caused(env, s, p, msg, utc, inp, d, m)
  {
    match msg
    case Signal(_, to, payload, _, _, _) =>
      if to in s.reg.peers { SendAdds(s.net, s.reg.peers[to].tx, IncomingSignal(p, payload, utc)); }
    case RequestRelay(_, peer, _, _, rid) => RequestCause(env, s, c, p, msg, utc, inp);
    case Relay(_, sid, data, _, _) => RelayCause(env, s, c, p, msg, utc, inp);
    case _ => OtherMessages(env, s, c, p, msg, utc, inp);
  }

  /** The other messages never speak for another peer. */
  lemma OtherMessages(env: Env, s: State, c: ConnId, p: string, msg: ClientMessage, utc: int, inp: Inputs)
    requires !msg.Signal? && !msg.RequestRelay? && !msg.Relay?
    ensures Unsourced(s.net, Dispatch(env, s, c, p, msg, utc, inp).0.net)
  {
    match msg
    case SubscribePresence(_, peers, _, _, rid) => SendAllUnsourced(s.net, c, SubscribeReplies(s.reg, peers, rid));
    case UnsubscribePresence(_, _, _, _, _) =>
    case AcceptRelay(_, sid, _, _, _) =>
      if env.uuid(sid).Some? { AcceptUnsourced(s.sessions, s.reg.peers, s.net, p, env.uuid(sid).value); }
    case _ => Answers(env, s, c, p, msg, utc, inp);
  }

  lemma Answers(env: Env, s: State, c: ConnId, p: string, msg: ClientMessage, utc: int, inp: Inputs)
    requires msg.Register? || msg.LookupPeer? || msg.LookupHandle? || msg.TeamAnnounce? || msg.TeamLookup? || msg.Ping?
    ensures Unsourced(s.net, Dispatch(env, s, c, p, msg, utc, inp).0.net)
  {
    var m := Answer(env, s, c, p, msg, utc, inp);
    SendAdds(s.net, c, m);
  }

  /** The messages that are answered with at most one message on their own connection. */
  lemma Answer(env: Env, s: State, c: ConnId, p: string, msg: ClientMessage, utc: int, inp: Inputs)
      returns (m: ServerMessage)
    requires msg.Register? || msg.LookupPeer? || msg.LookupHandle? || msg.TeamAnnounce? || msg.TeamLookup? || msg.Ping?
    ensures !Sourced(m)
    ensures Dispatch(env, s, c, p, msg, utc, inp).0.net in {s.net, s.net.Send(c, m)}
  {
    match msg
    case Register(_, _, _, _, _, _, rid) => m := RegisteredAgain(s, p, rid);
    case LookupPeer(_, target, _, _, rid) => m := LookupPeerReply(s, target, rid, inp.kindOk);
    case LookupHandle(_, h, _, _, rid) => m := LookupHandleReply(s, h, rid, inp.kindOk);
    case TeamAnnounce(_, _, _, _, _, _, _, rid) => m := TeamReply(rid);
    case TeamLookup(_, _, _, _, rid) => m := TeamReply(rid);
    case Ping(_, timestamp, _) => m := Pong(timestamp);
  }

  lemma RequestCause(env: Env, s: State, c: ConnId, p: string, msg: ClientMessage, utc: int, inp: Inputs)
    requires msg.RequestRelay?
    ensures
      var net := RequestRelayEffect(s, c, p, msg.peer, msg.requestId, inp.freshId).0.net;
      Grew(s.net, net) && forall d, m :: Adds(s.net, net, d, m) && Sourced(m) ==> Caused(env, s, p, msg, utc, inp, d, m)
  {
    if msg.peer in s.reg.peers {
      var tx := s.reg.peers[msg.peer].tx;
      var offer, made := RelayOffer(inp.freshId, p), RelaySessionEstablished(inp.freshId, msg.peer, msg.requestId);
      var net := s.net.Send(tx, offer);
      SendAdds(s.net, tx, offer);
      SendAdds(net, c, made);
      AddsSplit(s.net, net, net.Send(c, made));
    }
  }

  lemma AcceptUnsourced(ss: R.Sessions, peers: map<string, Peer>, net: Net, p: string, id: SessionId)
    ensures Unsourced(net, R.Accept(ss, peers, net, p, id).1)
  {
    if id in ss && ss[id].initiator in peers && p in peers {
      var a := ss[id].initiator;
      var m, m' := RelaySessionEstablished(id, p, None), RelaySessionEstablished(id, a, None);
      var net' := net.Send(peers[a].tx, m);
      SendAdds(net, peers[a].tx, m);
      SendAdds(net', peers[p].tx, m');
      AddsSplit(net, net', net'.Send(peers[p].tx, m'));
    }
  }

  lemma RelayCause(env: Env, s: State, c: ConnId, p: string, msg: ClientMessage, utc: int, inp: Inputs)
    requires msg.Relay?
    ensures
      var net := RelayEffect(s, p, env.uuid(msg.sessionId), msg.data, env.decodedLen(msg.data), inp.clock).0.net;
      Grew(s.net, net) && forall d, m :: Adds(s.net, net, d, m) && Sourced(m) ==> Caused(env, s, p, msg, utc, inp, d, m)
  {
    if env.uuid(msg.sessionId).Some? {
      var id := env.uuid(msg.sessionId).value;
      var to := R.Destination(s.sessions, p, id);
      if to.Ok? && to.value in s.reg.peers {
        SendAdds(s.net, s.reg.peers[to.value].tx, RelayData(id, p, msg.data));
      }
    }
  }

  /** The step that handles frame `e` accepts message `msg` on a connection of `p`. */
  ghost predicate Accepts(env: Env, s: State, e: Event, p: string, msg: ClientMessage) {
    e.Frame? && e.c in s.conns && s.conns[e.c] == p && Accepted(env, p, e.text, e.utc) == Ok(msg)
  }

  lemma ConcludeAdds(env: Env, s: State, c: ConnId, text: string, now: real, e: Effect, err: Option<BrokerError>)
    requires Grew(s.net, e.net)
    ensures
      var s' := Conclude(env, s, c, text, now, e, err);
      Grew(s.net, s'.net) && forall d, m :: Adds(s.net, s'.net, d, m) && Sourced(m) ==> Adds(s.net, e.net, d, m)
  {
    if err.Some? {
      var x := Error(err.value, env.requestIdOf(text));
      SendAdds(e.net, c, x);
      AddsSplit(s.net, e.net, e.net.Send(c, x));
    }
  }

  lemma FrameCause(env: Env, s: State, e: Event, d: ConnId, m: ServerMessage)
    requires e.Frame? && Enabled(s, e)
    ensures Grew(s.net, Step(env, s, e).net)
    ensures Sourced(m) && Adds(s.net, Step(env, s, e).net, d, m) ==>
      exists msg :: Accepts(env, s, e, s.conns[e.c], msg) && Caused(env, s, s.conns[e.c], msg, e.utc, e.inputs, d, m)
  {
    var p := s.conns[e.c];
    var (eff, err) := HandleMessage(env, s, e.c, e.text, e.utc, e.inputs);
    match Accepted(env, p, e.text, e.utc)
    case Err(_) => ConcludeAdds(env, s, e.c, e.text, e.inputs.clock.now, eff, err);
    case Ok(msg) =>
      DispatchGrew(env, s, e.c, p, msg, e.utc, e.inputs);
      ConcludeAdds(env, s, e.c, e.text, e.inputs.clock.now, eff, err);
      if Sourced(m) && Adds(s.net, Step(env, s, e).net, d, m) {
        DispatchCause(env, s, e.c, p, msg, e.utc, e.inputs, d, m);
        assert Accepts(env, s, e, p, msg);
      }
  }

  lemma RegisterUnsourced(s: State, c: ConnId, m: ClientMessage, reflected: string, f: Faults)
    requires m.Register?
    ensures Unsourced(s.net, RegisterPeer(s, c, m, reflected, f).net)
  {
    var s' := RegisterPeer(s, c, m, reflected, f);
    var (db, claimed) := ClaimOnRegister(s.db, m, f);
    var err, hello := Error(Internal, m.requestId), Registered(m.pubkey, reflected, claimed, m.requestId);
    var net1 := if s.db.None? && m.handle.Some? then s.net.Send(c, err) else s.net;
    var net2 := net1.Send(c, hello);
    SendAdds(s.net, c, err);
    SendAdds(net1, c, hello);
    AddsSplit(s.net, net1, net2);
    FanUnsourced(net2, Recipients(s.subs, s'.reg.peers, m.pubkey), m.pubkey, true);
    AddsSplit(s.net, net2, s'.net);
  }

  lemma OpenUnsourced(env: Env, s: State, e: Event)
    requires e.Open?
    ensures Unsourced(s.net, OpenSocket(env, s, e.first, e.reflected, e.utc, e.faults).net)
  {
    var s1, s', c := WithChannel(s), OpenSocket(env, s, e.first, e.reflected, e.utc, e.faults), |s.net.boxes|;
    OpenCases(env, s, e);
    assert Unsourced(s.net, s1.net);
    match Registering(env, e)
    case Some(m) =>
      RegisterUnsourced(s1, c, m, e.reflected, e.faults);
      AddsSplit(s.net, s1.net, s'.net);
    case None =>
      if s' != s1 {
        var err, rid :| s' == s1.(net := s1.net.Send(c, Error(err, rid)));
        SendAdds(s1.net, c, Error(err, rid));
        AddsSplit(s.net, s1.net, s'.net);
      }
  }

  /** Only frames make the broker speak for a peer. */
  lemma StepCause(env: Env, s: State, e: Event, d: ConnId, m: ServerMessage)
    requires Enabled(s, e)
    ensures Grew(s.net, Step(env, s, e).net)
    ensures Sourced(m) && Adds(s.net, Step(env, s, e).net, d, m) ==>
      && e.Frame?
      && exists msg :: Accepts(env, s, e, s.conns[e.c], msg) && Caused(env, s, s.conns[e.c], msg, e.utc, e.inputs, d, m)
  {
    match e
    case Open(_, _, _, _) => OpenUnsourced(env, s, e);
    case Frame(_, _, _, _) => FrameCause(env, s, e, d, m);
    case Close(c) =>
      var s' := Cleanup(s, c);
      FanUnsourced(s.net, Recipients(s'.subs, s'.reg.peers, s.conns[c]), s.conns[c], false);
    case WriterEnds(_) =>
  }

  // ---------------------------------------------------------------- one message for one frame

  lemma RequestIsOne(s: State, c: ConnId, p: string, peer: string, rid: Option<string>, id: SessionId)
    ensures OneSourced(s.net, RequestRelayEffect(s, c, p, peer, rid, id).0.net)
  {
    UnsourcedIsOne(s.net, s.net);
    if peer in s.reg.peers {
      var tx := s.reg.peers[peer].tx;
      var offer, made := RelayOffer(id, p), RelaySessionEstablished(id, peer, rid);
      var net := s.net.Send(tx, offer);
      SendIsOne(s.net, tx, offer);
      SendAdds(s.net, tx, offer);
      SendAdds(net, c, made);
      OneThenUnsourced(s.net, net, net.Send(c, made));
    }
  }

  lemma DispatchIsOne(env: Env, s: State, c: ConnId, p: string, msg: ClientMessage, utc: int, inp: Inputs)
    ensures OneSourced(s.net, Dispatch(env, s, c, p, msg, utc, inp).0.net)
  {
    UnsourcedIsOne(s.net, s.net);
    match msg
    case Signal(_, to, payload, _, _, _) =>
      if to in s.reg.peers { SendIsOne(s.net, s.reg.peers[to].tx, IncomingSignal(p, payload, utc)); }
    case RequestRelay(_, peer, _, _, rid) => RequestIsOne(s, c, p, peer, rid, inp.freshId);
    case Relay(_, sid, data, _, _) =>
      if env.uuid(sid).Some? {
        var id := env.uuid(sid).value;
        var to := R.Destination(s.sessions, p, id);
        if to.Ok? && to.value in s.reg.peers { SendIsOne(s.net, s.reg.peers[to.value].tx, RelayData(id, p, data)); }
      }
    case _ =>
      OtherMessages(env, s, c, p, msg, utc, inp);
      UnsourcedIsOne(s.net, Dispatch(env, s, c, p, msg, utc, inp).0.net);
  }

  lemma ConcludeIsOne(env: Env, s: State, c: ConnId, text: string, now: real, e: Effect, err: Option<BrokerError>)
    requires Grew(s.net, e.net) && OneSourced(s.net, e.net)
    ensures OneSourced(s.net, Conclude(env, s, c, text, now, e, err).net)
  {
    if err.Some? {
      var x := Error(err.value, env.requestIdOf(text));
      SendAdds(e.net, c, x);
      OneThenUnsourced(s.net, e.net, e.net.Send(c, x));
    }
  }

  lemma FrameIsOne(env: Env, s: State, e: Event)
    requires e.Frame? && Enabled(s, e)
    ensures OneSourced(s.net, HandleFrame(env, s, e.c, e.text, e.utc, e.inputs).net)
  {
    var p := s.conns[e.c];
    var (eff, err) := HandleMessage(env, s, e.c, e.text, e.utc, e.inputs);
    match Accepted(env, p, e.text, e.utc)
    case Err(_) =>
      UnsourcedIsOne(s.net, s.net);
      ConcludeIsOne(env, s, e.c, e.text, e.inputs.clock.now, eff, err);
    case Ok(msg) =>
      DispatchGrew(env, s, e.c, p, msg, e.utc, e.inputs);
      DispatchIsOne(env, s, e.c, p, msg, e.utc, e.inputs);
      ConcludeIsOne(env, s, e.c, e.text, e.inputs.clock.now, eff, err);
  }

  /** An event makes the broker speak for a peer at most once, on all channels together. */
  lemma StepIsOne(env: Env, s: State, e: Event)
    requires Enabled(s, e)
    ensures OneSourced(s.net, Step(env, s, e).net)
  {
    var s' := Step(env, s, e);
    if e.Frame? {
      FrameIsOne(env, s, e);
    } else {
      StepCause(env, s, e, 0, Pong(0));
      forall d: ConnId, m: ServerMessage | Adds(s.net, s'.net, d, m) ensures !Sourced(m) {
        StepCause(env, s, e, d, m);
      }
      UnsourcedIsOne(s.net, s'.net);
    }
  }

  // ---------------------------------------------------------------- connections and verification

  /** The register that opened connection `c` for `p`. */
  ghost predicate RegisteredAt(env: Env, s: State, e: Event, c: ConnId, p: string) {
    e.Open? && |s.net.boxes| == c && Registering(env, e).Some? && Registering(env, e).value.pubkey == p
  }

  lemma StepConns(env: Env, s: State, e: Event, c: ConnId)
    requires Enabled(s, e) && c in Step(env, s, e).conns
    ensures (c in s.conns && s.conns[c] == Step(env, s, e).conns[c]) ||
      RegisteredAt(env, s, e, c, Step(env, s, e).conns[c])
  {
    match e
    case Open(_, _, _, _) => OpenConns(env, s, e);
    case Frame(_, _, _, _) => FrameConns(env, s, e);
    case Close(_) =>
    case WriterEnds(_) =>
  }

  lemma VerifiedMeans(env: Env, m: ClientMessage, utc: int)
    requires 0 <= utc < 0x4000_0000_0000_0000 && Verify(env, m, utc).None?
    ensures -MAX_DRIFT <= utc - m.timestamp <= MAX_DRIFT && Signed(env, m)
  {
  }

  lemma AcceptedMeans(env: Env, s: State, e: Event, p: string, msg: ClientMessage)
    requires Enabled(s, e) && Accepts(env, s, e, p, msg)
    ensures msg.pubkey == p && Signed(env, msg) && -MAX_DRIFT <= e.utc - msg.timestamp <= MAX_DRIFT
  {
    VerifiedMeans(env, msg, e.utc);
  }
}
