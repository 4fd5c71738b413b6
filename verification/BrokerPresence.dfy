/** Presence over whole runs: when a subscriber's last news about a target is true, and when registered is the same as
    connected. */
module BrokerPresence {
  import opened Common
  import opened Protocol
  import opened Outbox
  import opened Registry
  import opened Presence
  import opened Broker
  import opened BrokerInv
  import R = Relay

  /** What a watcher last heard about `t`. */
  function LastUpdate(box: seq<ServerMessage>, t: string): Option<bool> {
    if box == [] then None
    else
      var m := box[|box| - 1];
      if m.PresenceUpdate? && m.peerId == t then Some(m.online) else LastUpdate(box[..|box| - 1], t)
  }

  /** Key `k` has at most one live connection. */
  ghost predicate Single(s: State, k: string) {
    forall c, c' :: c in s.conns && c' in s.conns && s.conns[c] == k && s.conns[c'] == k ==> c == c'
  }

  /** The last news on the open channel of registered key `k` about `t` is not what is so now. */
  ghost predicate Misled(s: State, k: string, t: string) {
    && k in s.reg.peers && s.net.Open(s.reg.peers[k].tx)
    && LastUpdate(s.net.boxes[s.reg.peers[k].tx], t) != Some(t in s.reg.peers)
  }

  /** If `k` watches `t` then the last news it was sent about `t` is true. */
  ghost predicate Tracks(s: State, k: string, t: string) {
    t in At(s.subs, k) ==> !Misled(s, k, t)
  }

  ghost predicate TracksAll(s: State, k: string) {
    forall t :: Tracks(s, k, t)
  }

  ghost predicate OnlineIffLive(s: State, k: string) {
    k in s.reg.peers <==> Live(s, k)
  }

  // ---------------------------------------------------------------- channels

  lemma LastUpdateAppend(box: seq<ServerMessage>, m: ServerMessage, t: string)
    ensures LastUpdate(box + [m], t) ==
            if m.PresenceUpdate? && m.peerId == t then Some(m.online) else LastUpdate(box, t)
  {
    assert (box + [m])[..|box|] == box;
  }

  lemma {:induction false} LastUpdateConcat(box: seq<ServerMessage>, ms: seq<ServerMessage>, t: string)
    ensures LastUpdate(box + ms, t) == if LastUpdate(ms, t).Some? then LastUpdate(ms, t) else LastUpdate(box, t)
    decreases |ms|
  {
    if ms == [] {
      assert box + ms == box;
    } else {
      var front := ms[..|ms| - 1];
      LastUpdateConcat(box, front, t);
      assert box + ms == (box + front) + [ms[|ms| - 1]];
      LastUpdateAppend(box + front, ms[|ms| - 1], t);
    }
  }

  /** No presence news between the two. */
  ghost predicate Quiet(n: Net, n': Net) {
    && n.SameShape(n')
    && forall c :: 0 <= c < |n.boxes| ==> QuietBox(n.boxes[c], n'.boxes[c])
  }

  predicate QuietBox(box: seq<ServerMessage>, box': seq<ServerMessage>) {
    box <= box' && forall j :: |box| <= j < |box'| ==> !box'[j].PresenceUpdate?
  }

  lemma {:induction false} QuietUpdate(box: seq<ServerMessage>, box': seq<ServerMessage>, t: string)
    requires QuietBox(box, box')
    ensures LastUpdate(box', t) == LastUpdate(box, t)
    decreases |box'|
  {
    if |box'| == |box| {
      assert box == box';
    } else {
      QuietUpdate(box, box'[..|box'| - 1], t);
    }
  }

  lemma {:induction false} SnapshotUpdate(reg: Reg, peers: seq<string>, t: string)
    ensures LastUpdate(Snapshot(reg, peers), t) == if t in peers then Some(t in reg.peers) else None
    decreases |peers|
  {
    if peers != [] {
      var front := peers[..|peers| - 1];
      SnapshotUpdate(reg, front, t);
      var ms := Snapshot(reg, peers);
      assert ms[..|ms| - 1] == Snapshot(reg, front);
      assert peers == front + [peers[|peers| - 1]];
    }
  }

  lemma RepliesUpdate(box: seq<ServerMessage>, reg: Reg, peers: seq<string>, rid: Option<string>, t: string)
    ensures LastUpdate(box + SubscribeReplies(reg, peers, rid), t) ==
            if t in peers then Some(t in reg.peers) else LastUpdate(box, t)
  {
    var ack := [SubscribePresenceAck(peers, rid)];
    SnapshotUpdate(reg, peers, t);
    LastUpdateConcat(ack, Snapshot(reg, peers), t);
    assert ack[..0] == [];
    LastUpdateConcat(box, SubscribeReplies(reg, peers, rid), t);
  }

  // ---------------------------------------------------------------- messages

  lemma SendQuiet(n: Net, c: ConnId, m: ServerMessage)
    requires !m.PresenceUpdate?
    ensures Quiet(n, n.Send(c, m))
  {
  }

  lemma QuietTransitive(a: Net, b: Net, c: Net)
    requires Quiet(a, b) && Quiet(b, c)
    ensures Quiet(a, c)
  {
    forall i | 0 <= i < |a.boxes| ensures QuietBox(a.boxes[i], c.boxes[i]) {
      assert QuietBox(a.boxes[i], b.boxes[i]) && QuietBox(b.boxes[i], c.boxes[i]);
    }
  }

  lemma RequestQuiet(s: State, c: ConnId, p: string, peer: string, rid: Option<string>, id: SessionId)
    ensures Quiet(s.net, RequestRelayEffect(s, c, p, peer, rid, id).0.net)
  {
    if peer in s.reg.peers {
      var net := s.net.Send(s.reg.peers[peer].tx, RelayOffer(id, p));
      SendQuiet(s.net, s.reg.peers[peer].tx, RelayOffer(id, p));
      SendQuiet(net, c, RelaySessionEstablished(id, peer, rid));
      QuietTransitive(s.net, net, net.Send(c, RelaySessionEstablished(id, peer, rid)));
    }
  }

  lemma AcceptQuiet(ss: R.Sessions, peers: map<string, Peer>, net: Net, p: string, id: SessionId)
    ensures Quiet(net, R.Accept(ss, peers, net, p, id).1)
  {
    if id in ss && ss[id].initiator in peers && p in peers {
      var a := ss[id].initiator;
      var m, m' := RelaySessionEstablished(id, p, None), RelaySessionEstablished(id, a, None);
      var net' := net.Send(peers[a].tx, m);
      SendQuiet(net, peers[a].tx, m);
      SendQuiet(net', peers[p].tx, m');
      QuietTransitive(net, net', net'.Send(peers[p].tx, m'));
    }
  }

  lemma ForwardQuiet(s: State, p: string, id: Option<SessionId>, data: string, decoded: Option<nat>, r: R.Readings)
    ensures Quiet(s.net, RelayEffect(s, p, id, data, decoded, r).0.net)
  {
    if id.Some? {
      forall c: ConnId, m: ServerMessage | m == RelayData(id.value, p, data) ensures Quiet(s.net, s.net.Send(c, m)) {
        SendQuiet(s.net, c, m);
      }
    }
  }

  lemma LookupQuiet(s: State, c: ConnId, target: string, rid: Option<string>, kindOk: bool)
    ensures Quiet(s.net, s.net.Send(c, LookupPeerReply(s, target, rid, kindOk)))
    ensures Quiet(s.net, s.net.Send(c, LookupHandleReply(s, target, rid, kindOk)))
  {
    SendQuiet(s.net, c, LookupPeerReply(s, target, rid, kindOk));
    SendQuiet(s.net, c, LookupHandleReply(s, target, rid, kindOk));
  }

  lemma SignalQuiet(s: State, p: string, to: string, payload: string, decoded: Option<nat>, limiterOk: bool, utc: int)
    ensures Quiet(s.net, SignalPeer(s, p, to, payload, decoded, limiterOk, utc).0)
  {
    if to in s.reg.peers { SendQuiet(s.net, s.reg.peers[to].tx, IncomingSignal(p, payload, utc)); }
  }

  lemma DispatchPresence(env: Env, s: State, c: ConnId, p: string, m: ClientMessage, utc: int, inp: Inputs)
    requires !m.SubscribePresence? && !m.UnsubscribePresence?
    ensures var e := Dispatch(env, s, c, p, m, utc, inp).0; !e.Subscription? && Quiet(s.net, e.net)
  {
    match m
    case Register(_, _, _, _, _, _, rid) => SendQuiet(s.net, c, RegisteredAgain(s, p, rid));
    case LookupPeer(_, target, _, _, rid) => LookupQuiet(s, c, target, rid, inp.kindOk);
    case LookupHandle(_, h, _, _, rid) => LookupQuiet(s, c, h, rid, inp.kindOk);
    case Signal(_, to, payload, _, _, _) =>
      SignalQuiet(s, p, to, payload, env.decodedLen(payload), inp.limiterOk, utc);
    case RequestRelay(_, peer, _, _, rid) => RequestQuiet(s, c, p, peer, rid, inp.freshId);
    case AcceptRelay(_, sid, _, _, _) =>
      if env.uuid(sid).Some? { AcceptQuiet(s.sessions, s.reg.peers, s.net, p, env.uuid(sid).value); }
    case Relay(_, sid, data, _, _) => ForwardQuiet(s, p, env.uuid(sid), data, env.decodedLen(data), inp.clock);
    case TeamAnnounce(_, _, _, _, _, _, _, rid) => SendQuiet(s.net, c, TeamReply(rid));
    case TeamLookup(_, _, _, _, rid) => SendQuiet(s.net, c, TeamReply(rid));
    case Ping(_, timestamp, _) => SendQuiet(s.net, c, Pong(timestamp));
  }

  lemma QuietTracks(s: State, s': State, k: string, t: string)
    requires NoGhosts(s) && Quiet(s.net, s'.net) && s'.reg == s.reg && At(s'.subs, k) == At(s.subs, k)
    ensures Tracks(s', k, t) <==> Tracks(s, k, t)
  {
    if k in s.reg.peers && s.net.Open(s.reg.peers[k].tx) {
      var c := s.reg.peers[k].tx;
      QuietUpdate(s.net.boxes[c], s'.net.boxes[c], t);
    }
  }

  /** The message a frame is accepted as. */
  function Heard(env: Env, s: State, e: Event): Option<ClientMessage> {
    if !e.Frame? || e.c !in s.conns then None
    else
      match Accepted(env, s.conns[e.c], e.text, e.utc)
      case Err(_) => None
      case Ok(m) => Some(m)
  }

  /** Key `k` subscribes to `t` by an accepted frame, or unsubscribes from it. */
  predicate SubscribesTo(env: Env, s: State, e: Event, k: string, t: string) {
    var m := Heard(env, s, e);
    m.Some? && m.value.SubscribePresence? && s.conns[e.c] == k && t in m.value.peers
  }

  predicate UnsubscribesFrom(env: Env, s: State, e: Event, k: string, t: string) {
    var m := Heard(env, s, e);
    m.Some? && m.value.UnsubscribePresence? && s.conns[e.c] == k && t in m.value.peers
  }

  /** A frame that is about other things changes nothing about presence. */
  lemma OtherFrameQuiet(env: Env, s: State, e: Event)
    requires e.Frame? && e.c in s.conns
    requires
      var m := Heard(env, s, e);
      m.Some? ==> !m.value.SubscribePresence? && !m.value.UnsubscribePresence?
    ensures
      var s' := HandleFrame(env, s, e.c, e.text, e.utc, e.inputs);
      Quiet(s.net, s'.net) && s'.reg == s.reg && s'.subs == s.subs
  {
    var (eff, err) := HandleMessage(env, s, e.c, e.text, e.utc, e.inputs);
    if Heard(env, s, e).Some? {
      DispatchPresence(env, s, e.c, s.conns[e.c], Heard(env, s, e).value, e.utc, e.inputs);
    }
    ConcludeQuiet(env, s, e.c, e.text, e.inputs.clock.now, eff, err);
  }

  lemma ConcludeQuiet(env: Env, s: State, c: ConnId, text: string, now: real, e: Effect, err: Option<BrokerError>)
    requires !e.Subscription? && Quiet(s.net, e.net)
    ensures
      var s' := Conclude(env, s, c, text, now, e, err);
      Quiet(s.net, s'.net) && s'.reg == s.reg && s'.subs == s.subs
  {
    if err.Some? {
      var x := Error(err.value, env.requestIdOf(text));
      SendQuiet(e.net, c, x);
      QuietTransitive(s.net, e.net, e.net.Send(c, x));
    }
  }

  lemma UnsubscribeShape(env: Env, s: State, e: Event)
    requires Heard(env, s, e).Some? && Heard(env, s, e).value.UnsubscribePresence?
    ensures HandleFrame(env, s, e.c, e.text, e.utc, e.inputs) ==
      s.(subs := Unsubscribed(s.subs, s.conns[e.c], Heard(env, s, e).value.peers), clock := e.inputs.clock.now)
  {
  }

  /** The state after `p` subscribed to `peers` on connection `c`. */
  function AfterSubscribe(s: State, c: ConnId, p: string, peers: seq<string>, rid: Option<string>, now: real): State {
    s.(subs := Subscribed(s.subs, p, peers), net := s.net.SendAll(c, SubscribeReplies(s.reg, peers, rid)), clock := now)
  }

  lemma SubscribeShape(env: Env, s: State, e: Event)
    requires Heard(env, s, e).Some? && Heard(env, s, e).value.SubscribePresence?
    ensures
      var m := Heard(env, s, e).value;
      HandleFrame(env, s, e.c, e.text, e.utc, e.inputs) ==
      AfterSubscribe(s, e.c, s.conns[e.c], m.peers, m.requestId, e.inputs.clock.now)
  {
  }

  /** A subscription tells the truth about what was asked, on the connection it came in on. */
  lemma SubscribeTracks(s: State, c: ConnId, p: string, peers: seq<string>, rid: Option<string>, now: real,
      k: string, t: string)
    requires NoGhosts(s) && c in s.conns && s.conns[c] == p
    ensures Tracks(AfterSubscribe(s, c, p, peers, rid, now), k, t) <==>
      if k != p then Tracks(s, k, t)
      else if k in s.reg.peers && s.reg.peers[k].tx == c then t in peers || Tracks(s, k, t)
      else Tracks(s, k, t) && !(t in peers && Misled(s, k, t))
  {
    if s.net.Open(c) { RepliesUpdate(s.net.boxes[c], s.reg, peers, rid, t); }
  }

  // ---------------------------------------------------------------- registering and cleaning up

  /** A broadcast reaches every registered watcher with an open channel and tells nobody about anyone else. */
  lemma FanUpdate(n: Net, cs: set<ConnId>, p: string, online: bool, c: ConnId, t: string)
    requires n.Open(c)
    ensures LastUpdate(n.Fan(cs, PresenceUpdate(p, online)).boxes[c], t) ==
            if t == p && c in cs then Some(online) else LastUpdate(n.boxes[c], t)
  {
    LastUpdateAppend(n.boxes[c], PresenceUpdate(p, online), t);
  }

  /** What a change of `p`'s presence does to everybody else's view. */
  lemma AnnounceTracks(s: State, s': State, n: Net, p: string, k: string, t: string)
    requires NoGhosts(s) && Quiet(s.net, n) && k != p && At(s'.subs, k) == At(s.subs, k)
    requires k in s'.reg.peers <==> k in s.reg.peers
    requires k in s'.reg.peers ==> s'.reg.peers[k].tx == s.reg.peers[k].tx
    requires t != p ==> (t in s'.reg.peers <==> t in s.reg.peers)
    requires s'.net == n.Fan(Recipients(s'.subs, s'.reg.peers, p), PresenceUpdate(p, p in s'.reg.peers))
    ensures Tracks(s', k, t) <==> t == p || Tracks(s, k, t)
  {
    if k in s'.reg.peers && s'.net.Open(s'.reg.peers[k].tx) {
      var c := s.reg.peers[k].tx;
      QuietUpdate(s.net.boxes[c], n.boxes[c], t);
      FanUpdate(n, Recipients(s'.subs, s'.reg.peers, p), p, p in s'.reg.peers, c, t);
      assert t == p && t in At(s'.subs, k) ==> c in Recipients(s'.subs, s'.reg.peers, p);
    }
  }

  lemma CleanupTracks(s: State, c: ConnId, k: string, t: string)
    requires NoGhosts(s) && c in s.conns
    ensures Tracks(Cleanup(s, c), k, t) <==> k == s.conns[c] || t == s.conns[c] || Tracks(s, k, t)
  {
    if k != s.conns[c] { AnnounceTracks(s, Cleanup(s, c), s.net, s.conns[c], k, t); }
  }

  /** What a registering peer hears before the broadcast of its own arrival. */
  ghost function Greeted(s: State, c: ConnId, m: ClientMessage, reflected: string, f: Faults): Net
    requires m.Register?
  {
    var net := if s.db.None? && m.handle.Some? then s.net.Send(c, Error(Internal, m.requestId)) else s.net;
    net.Send(c, Registered(m.pubkey, reflected, ClaimOnRegister(s.db, m, f).1, m.requestId))
  }

  lemma GreetedQuiet(s: State, c: ConnId, m: ClientMessage, reflected: string, f: Faults)
    requires m.Register?
    ensures Quiet(s.net, Greeted(s, c, m, reflected, f))
  {
    var err := Error(Internal, m.requestId);
    var hello := Registered(m.pubkey, reflected, ClaimOnRegister(s.db, m, f).1, m.requestId);
    var net1 := if s.db.None? && m.handle.Some? then s.net.Send(c, err) else s.net;
    SendQuiet(s.net, c, err);
    SendQuiet(net1, c, hello);
    QuietTransitive(s.net, net1, net1.Send(c, hello));
  }

  lemma RegisterNet(s: State, c: ConnId, m: ClientMessage, reflected: string, f: Faults)
    requires m.Register?
    ensures
      var s' := RegisterPeer(s, c, m, reflected, f);
      var told := Recipients(s'.subs, s'.reg.peers, m.pubkey);
      s'.net == Greeted(s, c, m, reflected, f).Fan(told, PresenceUpdate(m.pubkey, true))
  {
    RegisterShape(s, c, m, reflected, f);
  }

  /** A register on a silent channel tells everybody else of the key, and tells the key nothing of anybody else. */
  lemma RegisterTracks(s: State, c: ConnId, m: ClientMessage, reflected: string, f: Faults, k: string, t: string)
    requires NoGhosts(s) && m.Register? && c < |s.net.boxes| && s.net.boxes[c] == []
    ensures Tracks(RegisterPeer(s, c, m, reflected, f), k, t) <==>
      if k == m.pubkey then !(t in At(s.subs, k) && t != k && s.net.Open(c)) else t == m.pubkey || Tracks(s, k, t)
  {
    var s', net := RegisterPeer(s, c, m, reflected, f), Greeted(s, c, m, reflected, f);
    GreetedQuiet(s, c, m, reflected, f);
    RegisterShape(s, c, m, reflected, f);
    RegisterNet(s, c, m, reflected, f);
    if k != m.pubkey {
      AnnounceTracks(s, s', net, m.pubkey, k, t);
    } else if s.net.Open(c) {
      QuietUpdate(s.net.boxes[c], net.boxes[c], t);
      FanUpdate(net, Recipients(s'.subs, s'.reg.peers, k), k, true, c, t);
      assert t == k && t in At(s.subs, k) ==> c in Recipients(s'.subs, s'.reg.peers, k);
    }
  }

  /** The first message of a socket that registers, if it does. */
  function Registering(env: Env, e: Event): Option<ClientMessage>
    requires e.Open?
  {
    if e.first.None? || env.parse(e.first.value).None? then None
    else
      var m := env.parse(e.first.value).value;
      if m.Register? && Verify(env, m, e.utc).None? then Some(m) else None
  }

  /** The broker with one more, still silent, channel. */
  function WithChannel(s: State): State {
    s.(net := s.net.(boxes := s.net.boxes + [[]]))
  }

  /** An opened socket registers, or at most hears one error. */
  lemma OpenCases(env: Env, s: State, e: Event)
    requires e.Open?
    ensures
      var s' := OpenSocket(env, s, e.first, e.reflected, e.utc, e.faults);
      var c := |s.net.boxes|;
      match Registering(env, e)
      case Some(m) => m.Register? && s' == RegisterPeer(WithChannel(s), c, m, e.reflected, e.faults)
      case None =>
        || s' == WithChannel(s)
        || exists err, rid :: s' == WithChannel(s).(net := WithChannel(s).net.Send(c, Error(err, rid)))
  {
    if Registering(env, e).None? && e.first.Some? && env.parse(e.first.value).Some? {
      var m := env.parse(e.first.value).value;
      if m.Register? {
        var err := Verify(env, m, e.utc).value;
        assert OpenSocket(env, s, e.first, e.reflected, e.utc, e.faults) ==
          WithChannel(s).(net := WithChannel(s).net.Send(|s.net.boxes|, Error(err, m.requestId)));
      }
    }
  }

  /** The event registers key `k`, or cleans up a connection of it. */
  predicate Registers(env: Env, e: Event, k: string) {
    e.Open? && Registering(env, e).Some? && Registering(env, e).value.pubkey == k
  }

  predicate CleansUp(s: State, e: Event, k: string) {
    e.Close? && e.c in s.conns && s.conns[e.c] == k
  }

  /** The two ways a key gets out of step with a target: it registers on a new channel while watching it, or it
      subscribes to it on a connection that is not its registered one, whose channel is behind on the target. */
  ghost predicate BlindsTo(env: Env, s: State, e: Event, k: string, t: string) {
    || (Registers(env, e, k) && |s.net.boxes| !in s.net.closed && t in At(s.subs, k) && t != k)
    || (SubscribesTo(env, s, e, k, t) && k in s.reg.peers && s.reg.peers[k].tx != e.c && Misled(s, k, t))
  }

  ghost predicate Blinds(env: Env, s: State, e: Event, k: string) {
    exists t :: BlindsTo(env, s, e, k, t)
  }

  /** What puts a key right again about a target, or makes it stop watching or hearing: the target or the key itself
      registers or has a connection cleaned up, the key subscribes on its registered connection, it unsubscribes, or its
      channel closes. */
  predicate Rights(env: Env, s: State, e: Event, k: string, t: string) {
    || Registers(env, e, k) || Registers(env, e, t) || CleansUp(s, e, k) || CleansUp(s, e, t)
    || (SubscribesTo(env, s, e, k, t) && k in s.reg.peers && s.reg.peers[k].tx == e.c)
    || UnsubscribesFrom(env, s, e, k, t)
    || (e.WriterEnds? && k in s.reg.peers && s.reg.peers[k].tx == e.c)
  }

  lemma OpenTracks(env: Env, s: State, e: Event, k: string, t: string)
    requires e.Open? && Inv(s)
    ensures Tracks(OpenSocket(env, s, e.first, e.reflected, e.utc, e.faults), k, t) <==>
      if Registers(env, e, k) then !(|s.net.boxes| !in s.net.closed && t in At(s.subs, k) && t != k)
      else Registers(env, e, t) || Tracks(s, k, t)
  {
    var s1, s', c := WithChannel(s), OpenSocket(env, s, e.first, e.reflected, e.utc, e.faults), |s.net.boxes|;
    OpenCases(env, s, e);
    assert NoGhosts(s1) && (Tracks(s1, k, t) <==> Tracks(s, k, t));
    match Registering(env, e)
    case Some(m) => RegisterTracks(s1, c, m, e.reflected, e.faults, k, t);
    case None =>
      if s' != s1 {
        var err, rid :| s' == s1.(net := s1.net.Send(c, Error(err, rid)));
        SendQuiet(s1.net, c, Error(err, rid));
        QuietTracks(s1, s', k, t);
      }
  }

  /** What a frame does to the view of key `k` of target `t`. */
  ghost predicate FrameLeaves(env: Env, s: State, e: Event, k: string, t: string)
    requires e.Frame? && e.c in s.conns
  {
    Tracks(HandleFrame(env, s, e.c, e.text, e.utc, e.inputs), k, t) <==>
      !BlindsTo(env, s, e, k, t) && (Tracks(s, k, t) || Rights(env, s, e, k, t))
  }

  lemma SubscribeFrameTracks(env: Env, s: State, e: Event, k: string, t: string)
    requires e.Frame? && NoGhosts(s) && e.c in s.conns
    requires Heard(env, s, e).Some? && Heard(env, s, e).value.SubscribePresence?
    ensures FrameLeaves(env, s, e, k, t)
  {
    var m := Heard(env, s, e).value;
    SubscribeShape(env, s, e);
    SubscribeTracks(s, e.c, s.conns[e.c], m.peers, m.requestId, e.inputs.clock.now, k, t);
  }

  lemma UnsubscribeFrameTracks(env: Env, s: State, e: Event, k: string, t: string)
    requires e.Frame? && e.c in s.conns && Heard(env, s, e).Some? && Heard(env, s, e).value.UnsubscribePresence?
    ensures FrameLeaves(env, s, e, k, t)
  {
    UnsubscribeShape(env, s, e);
  }

  lemma FrameTracks(env: Env, s: State, e: Event, k: string, t: string)
    requires e.Frame? && NoGhosts(s) && e.c in s.conns
    ensures FrameLeaves(env, s, e, k, t)
  {
    var m := Heard(env, s, e);
    if m.Some? && m.value.SubscribePresence? {
      SubscribeFrameTracks(env, s, e, k, t);
    } else if m.Some? && m.value.UnsubscribePresence? {
      UnsubscribeFrameTracks(env, s, e, k, t);
    } else {
      OtherFrameQuiet(env, s, e);
      QuietTracks(s, HandleFrame(env, s, e.c, e.text, e.utc, e.inputs), k, t);
    }
  }

  /** From any state: after an event a key is in step with a target exactly when the event does not blind it to the
      target, and it was in step before or the event puts it right. */
  lemma StepTracksTo(env: Env, s: State, e: Event, k: string, t: string)
    requires Inv(s) && Enabled(s, e)
    ensures Tracks(Step(env, s, e), k, t) <==>
      !BlindsTo(env, s, e, k, t) && (Tracks(s, k, t) || Rights(env, s, e, k, t))
  {
    match e
    case Open(_, _, _, _) => OpenTracks(env, s, e, k, t);
    case Frame(_, _, _, _) => FrameTracks(env, s, e, k, t);
    case Close(c) => CleanupTracks(s, c, k, t);
    case WriterEnds(_) =>
  }

  /** An event keeps a key in step with everything it watches exactly when it is not one of those two. */
  lemma StepTracksIff(env: Env, s: State, e: Event, k: string)
    requires Inv(s) && Enabled(s, e) && TracksAll(s, k)
    ensures TracksAll(Step(env, s, e), k) <==> !Blinds(env, s, e, k)
  {
    forall t ensures Tracks(Step(env, s, e), k, t) <==> !BlindsTo(env, s, e, k, t) {
      assert Tracks(s, k, t);
      StepTracksTo(env, s, e, k, t);
    }
  }

  lemma RegisterConns(s: State, c: ConnId, m: ClientMessage, reflected: string, f: Faults)
    requires m.Register?
    ensures
      var s' := RegisterPeer(s, c, m, reflected, f);
      && s'.conns == s.conns[c := m.pubkey]
      && s'.reg.peers == s.reg.peers[m.pubkey := s'.reg.peers[m.pubkey]] && s'.reg.peers[m.pubkey].tx == c
  {
    RegisterShape(s, c, m, reflected, f);
  }

  lemma OpenConns(env: Env, s: State, e: Event)
    requires e.Open?
    ensures
      var s' := OpenSocket(env, s, e.first, e.reflected, e.utc, e.faults);
      match Registering(env, e)
      case None => s'.conns == s.conns && s'.reg == s.reg
      case Some(m) =>
        && s'.conns == s.conns[|s.net.boxes| := m.pubkey] && m.pubkey in s'.reg.peers
        && s'.reg.peers == s.reg.peers[m.pubkey := s'.reg.peers[m.pubkey]]
        && s'.reg.peers[m.pubkey].tx == |s.net.boxes|
  {
    OpenCases(env, s, e);
    if Registering(env, e).Some? {
      RegisterConns(WithChannel(s), |s.net.boxes|, Registering(env, e).value, e.reflected, e.faults);
    }
  }

  lemma FrameConns(env: Env, s: State, e: Event)
    requires e.Frame? && Enabled(s, e)
    ensures Step(env, s, e).conns == s.conns && Step(env, s, e).reg == s.reg
  {
    var (eff, err) := HandleMessage(env, s, e.c, e.text, e.utc, e.inputs);
    HandleIsGood(env, s, e.c, e.text, e.utc, e.inputs);
    ConcludeConnections(env, s, e.c, e.text, e.inputs.clock.now, eff, err);
  }

  // ---------------------------------------------------------------- online and live

  /** A key is registered after an event exactly when the event registers it, or it was and the event does not clean
      up a connection of it, be it another one. */
  lemma OnlineStep(env: Env, s: State, e: Event, k: string)
    requires Enabled(s, e)
    ensures k in Step(env, s, e).reg.peers <==> Registers(env, e, k) || (k in s.reg.peers && !CleansUp(s, e, k))
  {
    match e
    case Open(_, _, _, _) => OpenConns(env, s, e);
    case Frame(_, _, _, _) => FrameConns(env, s, e);
    case Close(_) =>
    case WriterEnds(_) =>
  }

  lemma StepConnections(env: Env, s: State, e: Event)
    requires Enabled(s, e)
    ensures
      Step(env, s, e).conns ==
        if e.Open? && Registering(env, e).Some? then s.conns[|s.net.boxes| := Registering(env, e).value.pubkey]
        else if e.Close? then s.conns - {e.c} else s.conns
  {
    match e
    case Open(_, _, _, _) => OpenConns(env, s, e);
    case Frame(_, _, _, _) => FrameConns(env, s, e);
    case Close(_) =>
    case WriterEnds(_) =>
  }

  /** The event cleans up one connection of `k` while another stays. */
  ghost predicate Detaches(s: State, e: Event, k: string) {
    CleansUp(s, e, k) && exists c :: c in s.conns && c != e.c && s.conns[c] == k
  }

  /** Registered stays the same as connected exactly when the event does not clean up one of several connections. */
  lemma OnlineIffLiveStep(env: Env, s: State, e: Event, k: string)
    requires Inv(s) && Enabled(s, e) && OnlineIffLive(s, k)
    ensures OnlineIffLive(Step(env, s, e), k) <==> !Detaches(s, e, k)
  {
    OnlineStep(env, s, e, k);
    StepConnections(env, s, e);
    var joined := if e.Open? && Registering(env, e).Some? then Some(Registering(env, e).value.pubkey) else None;
    LiveStep(s, e, Step(env, s, e), joined, k);
  }

  lemma LiveStep(s: State, e: Event, s': State, joined: Option<string>, k: string)
    requires (forall c :: c in s.conns ==> c < |s.net.boxes|) && (e.Close? ==> e.c in s.conns && joined.None?)
    requires s'.conns ==
      if joined.Some? then s.conns[|s.net.boxes| := joined.value] else if e.Close? then s.conns - {e.c} else s.conns
    ensures Live(s', k) <==> joined == Some(k) || (Live(s, k) && !CleansUp(s, e, k)) || Detaches(s, e, k)
  {
    if joined == Some(k) { assert |s.net.boxes| in s'.conns && s'.conns[|s.net.boxes|] == k; }
    if c :| c in s.conns && s.conns[c] == k && (e.Close? ==> c != e.c) {
      assert c in s'.conns && s'.conns[c] == k;
    }
    if c :| c in s'.conns && s'.conns[c] == k && joined != Some(k) {
      assert c in s.conns && s.conns[c] == k;
    }
  }

  // ---------------------------------------------------------------- over whole runs

  /** Something that is off at first, that `sets` turns on and `clears` turns off, is on after `n` steps exactly when
      some step turned it on and none after that turned it off. */
  lemma {:induction false} Latch(on: seq<bool>, sets: seq<bool>, clears: seq<bool>, n: nat)
    requires |on| == |sets| + 1 == |clears| + 1 && n < |on| && !on[0]
    requires forall i :: 0 <= i < |sets| ==> (on[i + 1] <==> sets[i] || (on[i] && !clears[i]))
    ensures on[n] <==> exists i :: 0 <= i < n && sets[i] && forall j :: i < j < n ==> !clears[j]
  {
    if n > 0 {
      Latch(on, sets, clears, n - 1);
      assert on[n] <==> sets[n - 1] || (on[n - 1] && !clears[n - 1]);
      if on[n - 1] && !clears[n - 1] {
        var i :| 0 <= i < n - 1 && sets[i] && forall j :: i < j < n - 1 ==> !clears[j];
        assert sets[i] && forall j :: i < j < n ==> !clears[j];
      }
    }
  }

  /** Some event blinded `k` to `t`, and none since has put it right. */
  ghost predicate Blinded(env: Env, ss: seq<State>, es: seq<Event>, n: nat, k: string, t: string)
    requires n <= |es| <= |ss|
  {
    exists i :: 0 <= i < n && BlindsTo(env, ss[i], es[i], k, t) &&
      forall j :: i < j < n ==> !Rights(env, ss[j], es[j], k, t)
  }

  /** In every run, in every state: a key is in step with a target exactly when no event blinded it to the target, or
      some event since has put it right. */
  lemma TracksUnlessBlinded(env: Env, ss: seq<State>, es: seq<Event>, n: nat, k: string, t: string)
    requires IsRun(env, ss, es) && StartsEmpty(ss[0]) && n <= |es|
    ensures Tracks(ss[n], k, t) <==> !Blinded(env, ss, es, n, k, t)
  {
    var on := seq(|ss|, i requires 0 <= i < |ss| => !Tracks(ss[i], k, t));
    var sets := seq(|es|, i requires 0 <= i < |es| => BlindsTo(env, ss[i], es[i], k, t));
    var clears := seq(|es|, i requires 0 <= i < |es| => Rights(env, ss[i], es[i], k, t));
    forall i | 0 <= i < |es| ensures on[i + 1] <==> sets[i] || (on[i] && !clears[i]) {
      RunKeepsInv(env, ss, es, i);
      assert Leads(env, ss[i], es[i], ss[i + 1]);
      StepTracksTo(env, ss[i], es[i], k, t);
    }
    Latch(on, sets, clears, n);
    BlindedIs(env, ss, es, n, k, t, sets, clears);
  }

  lemma BlindedIs(env: Env, ss: seq<State>, es: seq<Event>, n: nat, k: string, t: string, sets: seq<bool>,
      clears: seq<bool>)
    requires n <= |es| <= |ss| && |sets| == |clears| == |es|
    requires forall i :: 0 <= i < |es| ==> (sets[i] <==> BlindsTo(env, ss[i], es[i], k, t))
    requires forall i :: 0 <= i < |es| ==> (clears[i] <==> Rights(env, ss[i], es[i], k, t))
    ensures Blinded(env, ss, es, n, k, t) <==> exists i :: 0 <= i < n && sets[i] && forall j :: i < j < n ==> !clears[j]
  {
  }

  /** In every run, in every state: a key is registered exactly when some event registered it and no event since has
      cleaned up a connection of it. */
  lemma OnlineOverRun(env: Env, ss: seq<State>, es: seq<Event>, n: nat, k: string)
    requires IsRun(env, ss, es) && StartsEmpty(ss[0]) && n <= |es|
    ensures k in ss[n].reg.peers <==>
      exists i :: 0 <= i < n && Registers(env, es[i], k) && forall j :: i < j < n ==> !CleansUp(ss[j], es[j], k)
  {
    var on := seq(|ss|, i requires 0 <= i < |ss| => k in ss[i].reg.peers);
    var sets := seq(|es|, i requires 0 <= i < |es| => Registers(env, es[i], k));
    var clears := seq(|es|, i requires 0 <= i < |es| => CleansUp(ss[i], es[i], k));
    forall i | 0 <= i < |es| ensures on[i + 1] <==> sets[i] || (on[i] && !clears[i]) {
      assert Leads(env, ss[i], es[i], ss[i + 1]);
      OnlineStep(env, ss[i], es[i], k);
    }
    Latch(on, sets, clears, n);
    OnlineIs(env, ss, es, n, k, sets, clears);
  }

  lemma OnlineIs(env: Env, ss: seq<State>, es: seq<Event>, n: nat, k: string, sets: seq<bool>, clears: seq<bool>)
    requires n <= |es| <= |ss| && |sets| == |clears| == |es|
    requires forall i :: 0 <= i < |es| ==> (sets[i] <==> Registers(env, es[i], k))
    requires forall i :: 0 <= i < |es| ==> (clears[i] <==> CleansUp(ss[i], es[i], k))
    ensures (exists i :: 0 <= i < n && Registers(env, es[i], k) && forall j :: i < j < n ==> !CleansUp(ss[j], es[j], k))
      <==> exists i :: 0 <= i < n && sets[i] && forall j :: i < j < n ==> !clears[j]
  {
  }

  lemma SingleIsNotBlinded(env: Env, s: State, e: Event, k: string)
    requires Inv(s) && Enabled(s, e) && OnlineIffLive(s, k) && Single(s, k) && Single(Step(env, s, e), k)
    ensures !Blinds(env, s, e, k)
  {
    StepConnections(env, s, e);
    if Registers(env, e, k) { OneHolder(s, Step(env, s, e), |s.net.boxes|, k); }
    assert k in s.reg.peers && e.Frame? && e.c in s.conns && s.conns[e.c] == k ==> s.reg.peers[k].tx == e.c;
  }

  /** A key that keeps to one connection has none when it registers. */
  lemma OneHolder(s: State, s': State, c: ConnId, k: string)
    requires c !in s.conns && s'.conns == s.conns[c := k] && Single(s', k) && NoLeaks(s)
    ensures !Live(s, k) && At(s.subs, k) == {}
  {
    assert c in s'.conns && s'.conns[c] == k;
    forall d | d in s.conns ensures s.conns[d] != k {
      assert d in s'.conns && s'.conns[d] == s.conns[d];
    }
  }

  lemma SingleStep(env: Env, s: State, e: Event, s': State, k: string)
    requires Inv(s) && Leads(env, s, e, s') && OnlineIffLive(s, k) && TracksAll(s, k) && Single(s, k) && Single(s', k)
    ensures OnlineIffLive(s', k) && TracksAll(s', k)
  {
    SingleIsNotBlinded(env, s, e, k);
    StepTracksIff(env, s, e, k);
    assert !Detaches(s, e, k);
    OnlineIffLiveStep(env, s, e, k);
  }

  lemma {:induction false} Carried(ok: seq<bool>, n: nat)
    requires n < |ok| && ok[0] && forall i :: 0 <= i < n ==> (ok[i] ==> ok[i + 1])
    ensures ok[n]
  {
    if n > 0 { Carried(ok, n - 1); }
  }

  /** In every run, for every key that never has two live connections, whatever other keys have: it is registered
      exactly while it has a live connection, and the last news it was sent about everyone it watches is true. */
  lemma PresenceTracking(env: Env, ss: seq<State>, es: seq<Event>, n: nat, k: string)
    requires IsRun(env, ss, es) && StartsEmpty(ss[0]) && n <= |es|
    requires forall i :: 0 <= i <= n ==> Single(ss[i], k)
    ensures OnlineIffLive(ss[n], k) && TracksAll(ss[n], k)
  {
    var ok := seq(|ss|, i requires 0 <= i < |ss| => OnlineIffLive(ss[i], k) && TracksAll(ss[i], k));
    forall i | 0 <= i < n ensures ok[i] ==> ok[i + 1] {
      RunKeepsInv(env, ss, es, i);
      assert Leads(env, ss[i], es[i], ss[i + 1]) && Single(ss[i], k) && Single(ss[i + 1], k);
      if ok[i] { SingleStep(env, ss[i], es[i], ss[i + 1], k); }
    }
    Carried(ok, n);
  }
}
