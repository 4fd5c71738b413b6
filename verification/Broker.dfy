/** The whole broker as a transition system: sockets open, send frames, close, and lose their writer task.
    A connection id is the index of its channel. Everything the broker takes from outside comes in through the
    environment (parsers, cryptography) or with the event (clock readings, fresh ids, limiter and database answers). */
module Broker {
  import opened Common
  import opened Protocol
  import opened Outbox
  import opened Registry
  import opened Presence
  import opened Handles
  import R = Relay
  import Utf8

  datatype Env = Env(
    parse: string -> Option<ClientMessage>,
    requestIdOf: string -> Option<string>,
    keyOk: string -> bool,
    signatureOk: string -> bool,
    canonical: ClientMessage -> seq<Utf8.Byte>,
    verify: (string, seq<Utf8.Byte>, string) -> bool,
    uuid: string -> Option<SessionId>,
    decodedLen: string -> Option<nat>)

  /** Which database statements fail while a peer registers. */
  datatype Faults = Faults(kind: bool, upsert: bool, claim: bool)

  /** What the team tables answer, and whether an announce that is refused got as far as the announcer's peers row. */
  datatype TeamAnswer = Done | Refused(error: BrokerError, upserted: bool)

  /** What one frame may consult: an unused session id, the clock, the signalling limiter, whether the database answers
      the queries for a handle and for a peer's kind, and the answer of the team tables. */
  datatype Inputs = Inputs(freshId: SessionId, clock: R.Readings, limiterOk: bool, handleOk: bool, kindOk: bool,
                           team: TeamAnswer)

  datatype Event =
    | Open(first: Option<string>, reflected: string, utc: int, faults: Faults)
    | Frame(c: ConnId, text: string, utc: int, inputs: Inputs)
    | Close(c: ConnId)
    | WriterEnds(c: ConnId)

  datatype State = State(
    conns: map<ConnId, string>,   // registered and not yet cleaned up, with their pubkey
    reg: Reg,
    subs: Subs,
    sessions: R.Sessions,
    issued: set<SessionId>,
    quotas: R.Quotas,
    net: Net,
    connected: int,               // the connected_peers gauge
    relayBytes: nat,              // the relay_bytes_total counter
    db: Option<Tables>,
    clock: real)

  function Initial(db: Option<Tables>, clock: real): State {
    State(map[], Reg(map[], map[]), map[], map[], {}, map[], Net([], {}), 0, 0, db, clock)
  }

  // ---------------------------------------------------------------- authentication

  const MAX_DRIFT: int := 60

  /** 64-bit subtraction, which wraps. */
  function Wrap64(n: int): int {
    (n + 0x8000_0000_0000_0000) % 0x1_0000_0000_0000_0000 - 0x8000_0000_0000_0000
  }

  /** How far behind the clock a timestamp is. On any clock of this age the wrap-around never fakes a small drift. */
  function Drift(utc: int, timestamp: I64): (d: int)
    ensures 0 <= utc < 0x4000_0000_0000_0000 && -MAX_DRIFT <= d <= MAX_DRIFT ==> d == utc - timestamp
  {
    Wrap64(utc - timestamp)
  }

  /** The signature verifies over the canonical bytes under the claimed key. */
  predicate Signed(env: Env, m: ClientMessage) {
    env.verify(m.pubkey, env.canonical(m), m.signature)
  }

  function Verify(env: Env, m: ClientMessage, utc: int): Option<BrokerError> {
    var drift := Drift(utc, m.timestamp);
    if !env.keyOk(m.pubkey) then Some(InvalidPubKey)
    else if drift > MAX_DRIFT then Some(StaleMessage(drift))
    else if drift < -MAX_DRIFT then Some(FutureMessage(-drift))
    else if !env.signatureOk(m.signature) then Some(InvalidSignature)
    else if !Signed(env, m) then Some(SignatureVerifyFailed)
    else None
  }

  // ---------------------------------------------------------------- registering

  /** The database part of a register: the tables after it, and whether the handle was claimed. */
  ghost function ClaimOnRegister(db: Option<Tables>, m: ClientMessage, f: Faults): (Option<Tables>, bool)
    requires m.Register?
  {
    match db
    case None => (None, false)
    case Some(t) =>
      var kind := KindName(if m.kind.Some? then m.kind.value else User);
      var t1 := if f.kind then t else UpsertPeerWithKind(t, m.pubkey, kind);
      if m.handle.None? || !ValidHandle(m.handle.value) || f.upsert then (Some(t1), false)
      else
        var t2 := UpsertPeer(t1, m.pubkey);
        if f.claim then (Some(t2), false)
        else
          var (t3, err) := ClaimHandle(t2, m.pubkey, m.handle.value);
          (Some(t3), err.None?)
  }

  ghost function RegisterPeer(s: State, c: ConnId, m: ClientMessage, reflected: string, f: Faults): State
    requires m.Register?
  {
    var (db, claimed) := ClaimOnRegister(s.db, m, f);
    var net1 := if s.db.None? && m.handle.Some? then s.net.Send(c, Error(Internal, m.requestId)) else s.net;
    var reg := Insert(s.reg, Peer(m.pubkey, if claimed then m.handle else None, m.addresses, reflected, c));
    var net2 := net1.Send(c, Registered(m.pubkey, reflected, claimed, m.requestId));
    var net3 := net2.Fan(Recipients(s.subs, reg.peers, m.pubkey), PresenceUpdate(m.pubkey, true));
    s.(conns := s.conns[c := m.pubkey], reg := reg, net := net3, connected := s.connected + 1, db := db)
  }

  ghost function OpenSocket(env: Env, s: State, first: Option<string>, reflected: string, utc: int, f: Faults): State {
    var c := |s.net.boxes|;
    var s1 := s.(net := s.net.(boxes := s.net.boxes + [[]]));
    if first.None? then s1.(net := s1.net.Send(c, Error(Malformed, None)))
    else if env.parse(first.value).None? then s1
    else
      var m := env.parse(first.value).value;
      if !m.Register? then s1.(net := s1.net.Send(c, Error(Malformed, RequestIdOf(m))))
      else
        match Verify(env, m, utc)
        case Some(e) => s1.(net := s1.net.Send(c, Error(e, m.requestId)))
        case None => RegisterPeer(s1, c, m, reflected, f)
  }

  // ---------------------------------------------------------------- one message

  function KindOf(db: Option<Tables>, kindOk: bool, p: string): Option<IdentityKind> {
    if db.Some? && kindOk && p in db.value.peers then ParseKind(db.value.peers[p].kind) else None
  }

  function LookupPeerReply(s: State, target: string, rid: Option<string>, kindOk: bool): ServerMessage {
    if target in s.reg.peers then
      var p := s.reg.peers[target];
      PeerInfo(p.pubkey, p.handle, p.addresses, Some(p.reflected), true, KindOf(s.db, kindOk, target), rid)
    else Error(PeerNotFound, rid)
  }

  function ResolveHandle(s: State, h: string): Option<string> {
    var index := if s.db.Some? then s.db.value.handles else s.reg.handleIndex;
    if h in index then Some(index[h]) else None
  }

  function LookupHandleReply(s: State, h: string, rid: Option<string>, kindOk: bool): ServerMessage {
    match ResolveHandle(s, h)
    case None => Error(PeerNotFound, rid)
    case Some(pk) =>
      var kind := KindOf(s.db, kindOk, pk);
      if pk in s.reg.peers then
        PeerInfo(pk, Some(h), s.reg.peers[pk].addresses, Some(s.reg.peers[pk].reflected), true, kind, rid)
      else PeerInfo(pk, Some(h), PeerAddresses([], None), None, false, kind, rid)
  }

  /** Forward a signalling payload; the rate limiter is asked first. */
  function SignalPeer(s: State, p: string, to: string, payload: string, decoded: Option<nat>, limiterOk: bool, utc: int)
    : (Net, Option<BrokerError>)
  {
    if !limiterOk then (s.net, Some(RateLimited))
    else if decoded.None? then (s.net, Some(Malformed))
    else if decoded.value > SIGNALING_MAX_PAYLOAD then
      (s.net, Some(PayloadTooLarge(decoded.value, SIGNALING_MAX_PAYLOAD)))
    else if to !in s.reg.peers || !s.net.Open(s.reg.peers[to].tx) then (s.net, Some(PeerOffline))
    else (s.net.Send(s.reg.peers[to].tx, IncomingSignal(p, payload, utc)), None)
  }

  /** The acknowledgement, then each target's current state in the order asked. */
  function SubscribeReplies(reg: Reg, peers: seq<string>, rid: Option<string>): seq<ServerMessage> {
    [SubscribePresenceAck(peers, rid)] + Snapshot(reg, peers)
  }

  function Snapshot(reg: Reg, peers: seq<string>): seq<ServerMessage> {
    seq(|peers|, i requires 0 <= i < |peers| => PresenceUpdate(peers[i], peers[i] in reg.peers))
  }

  /** What handling one message can change. */
  datatype Effect =
    | Reply(net: Net)
    | Subscription(subs: Subs, net: Net)
    | SessionChange(sessions: R.Sessions, issued: set<SessionId>, net: Net)
    | Metered(quotas: R.Quotas, bytes: nat, net: Net)
    | Roster(db: Option<Tables>, net: Net)

  function Apply(s: State, e: Effect): State {
    match e
    case Reply(net) => s.(net := net)
    case Subscription(subs, net) => s.(subs := subs, net := net)
    case SessionChange(sessions, issued, net) => s.(sessions := sessions, issued := issued, net := net)
    case Metered(quotas, bytes, net) => s.(quotas := quotas, relayBytes := s.relayBytes + bytes, net := net)
    case Roster(db, net) => s.(db := db, net := net)
  }

  function RequestRelayEffect(s: State, c: ConnId, p: string, peer: string, rid: Option<string>, id: SessionId)
    : (Effect, Option<BrokerError>)
  {
    var (sessions, net, err) := R.Request(s.sessions, s.reg.peers, s.net, id, p, peer);
    var net' := if err.None? then net.Send(c, RelaySessionEstablished(id, peer, rid)) else net;
    (SessionChange(sessions, s.issued + {id}, net'), err)
  }

  function AcceptRelayEffect(s: State, p: string, id: Option<SessionId>): (Effect, Option<BrokerError>) {
    if id.None? then (Reply(s.net), Some(Malformed))
    else
      var (sessions, net, err) := R.Accept(s.sessions, s.reg.peers, s.net, p, id.value);
      (SessionChange(sessions, s.issued, net), err)
  }

  function RelayEffect(s: State, p: string, id: Option<SessionId>, data: string, decoded: Option<nat>, r: R.Readings)
    : (Effect, Option<BrokerError>)
  {
    if id.None? then (Reply(s.net), Some(Malformed))
    else
      var (quotas, net, result) := R.Forward(s.sessions, s.quotas, s.reg.peers, s.net, p, id.value, data, decoded, r);
      (Metered(quotas, if result.Ok? then result.value else 0, net), if result.Ok? then None else Some(result.error))
  }

  function RegisteredAgain(s: State, p: string, rid: Option<string>): ServerMessage {
    if p in s.reg.peers then Registered(p, s.reg.peers[p].reflected, s.reg.peers[p].handle.Some?, rid)
    else Registered(p, "", false, rid)
  }

  function TeamLookupEffect(s: State, c: ConnId, rid: Option<string>, team: TeamAnswer): (Effect, Option<BrokerError>) {
    if s.db.None? then (Reply(s.net), Some(Internal))
    else if team.Refused? then (Reply(s.net), Some(team.error))
    else (Reply(s.net.Send(c, TeamReply(rid))), None)
  }

  /** An announce makes sure of the announcer's peers row before it records the membership. */
  function TeamAnnounceEffect(s: State, c: ConnId, p: string, rid: Option<string>, team: TeamAnswer)
    : (Effect, Option<BrokerError>)
  {
    if s.db.None? then (Reply(s.net), Some(Internal))
    else if team.Done? then (Roster(Some(UpsertPeer(s.db.value, p)), s.net.Send(c, TeamReply(rid))), None)
    else (if team.upserted then Roster(Some(UpsertPeer(s.db.value, p)), s.net) else Reply(s.net), Some(team.error))
  }

  /** A verified message of the connection's own key; the error, if any, is still to be reported. */
  function Dispatch(env: Env, s: State, c: ConnId, p: string, m: ClientMessage, utc: int, inp: Inputs)
    : (Effect, Option<BrokerError>)
  {
    match m
    case Register(_, _, _, _, _, _, rid) => (Reply(s.net.Send(c, RegisteredAgain(s, p, rid))), None)
    case LookupPeer(_, target, _, _, rid) => (Reply(s.net.Send(c, LookupPeerReply(s, target, rid, inp.kindOk))), None)
    case LookupHandle(_, h, _, _, rid) =>
      if s.db.Some? && !inp.handleOk then (Reply(s.net), Some(Database))
      else (Reply(s.net.Send(c, LookupHandleReply(s, h, rid, inp.kindOk))), None)
    case Signal(_, to, payload, _, _, _) =>
      var (net, err) := SignalPeer(s, p, to, payload, env.decodedLen(payload), inp.limiterOk, utc);
      (Reply(net), err)
    case SubscribePresence(_, peers, _, _, rid) =>
      (Subscription(Subscribed(s.subs, p, peers), s.net.SendAll(c, SubscribeReplies(s.reg, peers, rid))), None)
    case UnsubscribePresence(_, peers, _, _, _) => (Subscription(Unsubscribed(s.subs, p, peers), s.net), None)
    case RequestRelay(_, peer, _, _, rid) => RequestRelayEffect(s, c, p, peer, rid, inp.freshId)
    case AcceptRelay(_, sid, _, _, _) => AcceptRelayEffect(s, p, env.uuid(sid))
    case Relay(_, sid, data, _, _) => RelayEffect(s, p, env.uuid(sid), data, env.decodedLen(data), inp.clock)
    case TeamAnnounce(_, _, _, _, _, _, _, rid) => TeamAnnounceEffect(s, c, p, rid, inp.team)
    case TeamLookup(_, _, _, _, rid) => TeamLookupEffect(s, c, rid, inp.team)
    case Ping(_, timestamp, _) => (Reply(s.net.Send(c, Pong(timestamp))), None)
  }

  /** The message a frame carries when it is accepted for handling: it parses, verifies and is the session's own. */
  function Accepted(env: Env, p: string, text: string, utc: int): Result<ClientMessage> {
    match env.parse(text)
    case None => Err(Malformed)
    case Some(m) =>
      match Verify(env, m, utc)
      case Some(e) => Err(e)
      case None => if m.pubkey != p then Err(Malformed) else Ok(m)
  }

  function HandleMessage(env: Env, s: State, c: ConnId, text: string, utc: int, inp: Inputs)
    : (Effect, Option<BrokerError>)
    requires c in s.conns
  {
    match Accepted(env, s.conns[c], text, utc)
    case Err(e) => (Reply(s.net), Some(e))
    case Ok(m) => Dispatch(env, s, c, s.conns[c], m, utc, inp)
  }

  /** The state once the effect is applied and the error, if any, reported on the connection. */
  function Conclude(env: Env, s: State, c: ConnId, text: string, now: real, e: Effect, err: Option<BrokerError>)
    : State
  {
    var s' := Apply(s, e);
    var net := if err.Some? then s'.net.Send(c, Error(err.value, env.requestIdOf(text))) else s'.net;
    s'.(net := net, clock := now)
  }

  function HandleFrame(env: Env, s: State, c: ConnId, text: string, utc: int, inp: Inputs): State
    requires c in s.conns
  {
    var (e, err) := HandleMessage(env, s, c, text, utc, inp);
    Conclude(env, s, c, text, inp.clock.now, e, err)
  }

  // ---------------------------------------------------------------- cleaning up

  function Cleanup(s: State, c: ConnId): State
    requires c in s.conns
  {
    var p := s.conns[c];
    var reg := Remove(s.reg, p);
    var subs := Cleared(s.subs, p);
    s.(conns := s.conns - {c}, reg := reg, connected := s.connected - 1, subs := subs,
       sessions := R.Dropped(s.sessions, p),
       net := s.net.Fan(Recipients(subs, reg.peers, p), PresenceUpdate(p, false)))
  }

  // ---------------------------------------------------------------- runs

  predicate Enabled(s: State, e: Event) {
    match e
    case Open(_, _, utc, _) => 0 <= utc < 0x4000_0000_0000_0000
    case Frame(c, _, utc, inp) =>
      && c in s.conns && 0 <= utc < 0x4000_0000_0000_0000 && inp.freshId !in s.issued
      && s.clock <= inp.clock.made <= inp.clock.begun <= inp.clock.now
    case Close(c) => c in s.conns
    case WriterEnds(c) => c < |s.net.boxes|
  }

  ghost function Step(env: Env, s: State, e: Event): State
    requires Enabled(s, e)
  {
    match e
    case Open(first, reflected, utc, f) => OpenSocket(env, s, first, reflected, utc, f)
    case Frame(c, text, utc, inp) => HandleFrame(env, s, c, text, utc, inp)
    case Close(c) => Cleanup(s, c)
    case WriterEnds(c) => s.(net := s.net.(closed := s.net.closed + {c}))
  }

  ghost predicate Leads(env: Env, s: State, e: Event, s': State) {
    Enabled(s, e) && s' == Step(env, s, e)
  }

  /** A run: the states it goes through and the events between them. */
  ghost predicate IsRun(env: Env, ss: seq<State>, es: seq<Event>) {
    |ss| == |es| + 1 && forall i :: 0 <= i < |es| ==> Leads(env, ss[i], es[i], ss[i + 1])
  }

  ghost predicate StartsEmpty(s: State) {
    s == Initial(s.db, s.clock) && (s.db.Some? ==> Consistent(s.db.value))
  }
}
