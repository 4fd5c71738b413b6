/** Which frames reach a sender's quota, and what one event does to the books. */
module BrokerLedger {
  import opened Common
  import opened Protocol
  import opened Outbox
  import opened Broker
  import opened BrokerInv
  import opened BrokerPresence
  import opened BrokerTrace
  import opened BrokerRelay
  import R = Relay
  import opened SenderLedger

  /** A frame about to be charged: its session, its sender, the other party, and its size once decoded. */
  datatype Load = Load(id: SessionId, sender: string, to: string, data: string, size: nat)

  /** The charge message `msg` of `p` asks for. Nothing is asked for unless the session is an active one of the
      sender's and the frame decodes and fits. */
  function LoadOf(env: Env, ss: R.Sessions, p: string, msg: ClientMessage): Option<Load> {
    if !msg.Relay? || env.uuid(msg.sessionId).None? then None
    else
      var id, size := env.uuid(msg.sessionId).value, env.decodedLen(msg.data);
      if IsParty(ss, id, p) && size.Some? && size.value <= RELAY_MAX_FRAME
      then Some(Load(id, p, OtherParty(ss[id], p), msg.data, size.value)) else None
  }

  function Metering(env: Env, s: State, e: Event): Option<Load> {
    if !e.Frame? || e.c !in s.conns then None
    else
      match Accepted(env, s.conns[e.c], e.text, e.utc)
      case Err(_) => None
      case Ok(msg) => LoadOf(env, s.sessions, s.conns[e.c], msg)
  }

  predicate Reachable(s: State, to: string) {
    to in s.reg.peers && s.net.Open(s.reg.peers[to].tx)
  }

  // ---------------------------------------------------------------- bytes on the channels

  /** The relayed bytes a message carries for sender `k`, or for anyone. */
  function Weight(env: Env, k: Option<string>, m: ServerMessage): nat {
    if m.RelayData? && (k.None? || k.value == m.from) && env.decodedLen(m.data).Some?
    then env.decodedLen(m.data).value else 0
  }

  function BoxBytes(env: Env, k: Option<string>, box: seq<ServerMessage>): nat {
    if box == [] then 0 else BoxBytes(env, k, box[..|box| - 1]) + Weight(env, k, box[|box| - 1])
  }

  /** All relayed bytes ever put on any channel. */
  function Relayed(env: Env, k: Option<string>, boxes: Boxes): nat {
    if boxes == [] then 0 else Relayed(env, k, boxes[..|boxes| - 1]) + BoxBytes(env, k, boxes[|boxes| - 1])
  }

  lemma {:induction false} BoxGrows(env: Env, k: Option<string>, box: seq<ServerMessage>, box': seq<ServerMessage>)
    requires box <= box' && forall j :: |box| <= j < |box'| ==> Weight(env, k, box'[j]) == 0
    ensures BoxBytes(env, k, box') == BoxBytes(env, k, box)
    decreases |box'|
  {
    if |box'| == |box| {
      assert box' == box;
    } else {
      BoxGrows(env, k, box, box'[..|box'| - 1]);
    }
  }

  /** News without relay data leaves the bytes as they are. */
  lemma {:induction false} NoDataNoBytes(env: Env, k: Option<string>, boxes: Boxes, boxes': Boxes)
    requires |boxes| <= |boxes'|
    requires forall c :: 0 <= c < |boxes'| ==> Idle(BoxAt(boxes, c), boxes'[c])
    ensures Relayed(env, k, boxes') == Relayed(env, k, boxes)
    decreases |boxes'|
  {
    if boxes' != [] {
      var n := |boxes'| - 1;
      BoxGrows(env, k, BoxAt(boxes, n), boxes'[n]);
      var front := if |boxes| == |boxes'| then boxes[..n] else boxes;
      assert forall c :: 0 <= c < n ==> BoxAt(front, c) == BoxAt(boxes, c);
      NoDataNoBytes(env, k, front, boxes'[..n]);
    }
  }

  /** What is on channel `c`; nothing before it exists. */
  function BoxAt(boxes: Boxes, c: nat): seq<ServerMessage> {
    if c < |boxes| then boxes[c] else []
  }

  predicate Idle(box: seq<ServerMessage>, box': seq<ServerMessage>) {
    box <= box' && forall j :: |box| <= j < |box'| ==> !box'[j].RelayData?
  }

  lemma {:induction false} OneMessage(env: Env, k: Option<string>, boxes: Boxes, c: nat, m: ServerMessage)
    requires c < |boxes|
    ensures Relayed(env, k, boxes[c := boxes[c] + [m]]) == Relayed(env, k, boxes) + Weight(env, k, m)
    decreases |boxes|
  {
    var n := |boxes| - 1;
    var boxes' := boxes[c := boxes[c] + [m]];
    if c == n {
      assert boxes'[..n] == boxes[..n];
      assert (boxes[n] + [m])[..|boxes[n]|] == boxes[n];
    } else {
      OneMessage(env, k, boxes[..n], c, m);
      assert boxes'[..n] == boxes[..n][c := boxes[c] + [m]];
    }
  }

  /** No relay data was put on any channel. */
  ghost predicate NoData(n: Net, n': Net) {
    Grew(n, n') && forall c, m :: Adds(n, n', c, m) ==> !m.RelayData?
  }

  lemma NoDataRelayed(env: Env, k: Option<string>, n: Net, n': Net)
    requires NoData(n, n')
    ensures Relayed(env, k, n'.boxes) == Relayed(env, k, n.boxes)
  {
    forall c | 0 <= c < |n'.boxes| ensures Idle(BoxAt(n.boxes, c), n'.boxes[c]) {
      forall j | NewFrom(n, c) <= j < |n'.boxes[c]| ensures !n'.boxes[c][j].RelayData? {
        assert Adds(n, n', c, n'.boxes[c][j]);
      }
    }
    NoDataNoBytes(env, k, n.boxes, n'.boxes);
  }

  // ---------------------------------------------------------------- one event

  /** What an event that charges `load` at `r` does. */
  ghost predicate Books(s: State, s': State, load: Load, r: R.Readings) {
    var (quotas, o) := R.Charge(s.quotas, load.sender, r, load.size);
    && s'.quotas == quotas
    && (if o.Accepted? && Reachable(s, load.to)
        then s'.net == s.net.Send(s.reg.peers[load.to].tx, RelayData(load.id, load.sender, load.data))
             && s'.relayBytes == s.relayBytes + load.size
        else NoData(s.net, s'.net) && s'.relayBytes == s.relayBytes)
  }

  ghost predicate BooksStand(s: State, s': State) {
    s'.quotas == s.quotas && s'.relayBytes == s.relayBytes && NoData(s.net, s'.net)
  }

  lemma ErrorNoData(net: Net, c: ConnId, err: BrokerError, rid: Option<string>)
    ensures NoData(net, net.Send(c, Error(err, rid)))
  {
    SendAdds(net, c, Error(err, rid));
  }

  /** A relay message: the charge it asks for is booked, or nothing is. */
  lemma RelayBooks(env: Env, s: State, c: ConnId, text: string, msg: ClientMessage, inp: Inputs)
    requires msg.Relay?
    ensures
      var p, id, decoded := msg.pubkey, env.uuid(msg.sessionId), env.decodedLen(msg.data);
      var (eff, err) := RelayEffect(s, p, id, msg.data, decoded, inp.clock);
      var s' := Conclude(env, s, c, text, inp.clock.now, eff, err);
      match LoadOf(env, s.sessions, p, msg)
      case None => BooksStand(s, s')
      case Some(load) => Books(s, s', load, inp.clock)
  {
    var p, id, decoded := msg.pubkey, env.uuid(msg.sessionId), env.decodedLen(msg.data);
    var (eff, err) := RelayEffect(s, p, id, msg.data, decoded, inp.clock);
    EffectBooks(env, s, msg, inp);
    if err.Some? { ErrorNoData(s.net, c, err.value, env.requestIdOf(text)); }
  }

  /** The effect alone: a delivery reports no error, and whatever reports one puts nothing on a channel. */
  lemma EffectBooks(env: Env, s: State, msg: ClientMessage, inp: Inputs)
    requires msg.Relay?
    ensures
      var p := msg.pubkey;
      var (eff, err) := RelayEffect(s, p, env.uuid(msg.sessionId), msg.data, env.decodedLen(msg.data), inp.clock);
      match LoadOf(env, s.sessions, p, msg)
      case None => err.Some? && Apply(s, eff) == s
      case Some(load) =>
        var (quotas, o) := R.Charge(s.quotas, p, inp.clock, load.size);
        if o.Accepted? && Reachable(s, load.to)
        then
          var net := s.net.Send(s.reg.peers[load.to].tx, RelayData(load.id, p, load.data));
          err.None? && Apply(s, eff) == s.(quotas := quotas, relayBytes := s.relayBytes + load.size, net := net)
        else err.Some? && Apply(s, eff) == s.(quotas := quotas)
  {
  }

  lemma DispatchFree(env: Env, s: State, c: ConnId, p: string, msg: ClientMessage, utc: int, inp: Inputs)
    requires !msg.Relay?
    ensures !Dispatch(env, s, c, p, msg, utc, inp).0.Metered?
  {
  }

  lemma NoDataUnlessCaused(env: Env, s: State, e: Event)
    requires Enabled(s, e)
    requires e.Frame? ==> forall msg :: Accepts(env, s, e, s.conns[e.c], msg) ==> !msg.Relay?
    ensures NoData(s.net, Step(env, s, e).net)
  {
    var s' := Step(env, s, e);
    StepCause(env, s, e, 0, Pong(0));
    forall d: ConnId, m: ServerMessage | Adds(s.net, s'.net, d, m) ensures !m.RelayData? {
      StepCause(env, s, e, d, m);
    }
  }

  lemma FrameBooks(env: Env, s: State, e: Event)
    requires e.Frame? && Enabled(s, e)
    ensures
      match Metering(env, s, e)
      case None => BooksStand(s, Step(env, s, e))
      case Some(load) => Books(s, Step(env, s, e), load, e.inputs.clock)
  {
    var p := s.conns[e.c];
    var (eff, err) := HandleMessage(env, s, e.c, e.text, e.utc, e.inputs);
    HandleIsGood(env, s, e.c, e.text, e.utc, e.inputs);
    ConcludeConnections(env, s, e.c, e.text, e.inputs.clock.now, eff, err);
    match Accepted(env, p, e.text, e.utc)
    case Err(_) => NoDataUnlessCaused(env, s, e);
    case Ok(msg) =>
      if msg.Relay? {
        RelayBooks(env, s, e.c, e.text, msg, e.inputs);
      } else {
        DispatchFree(env, s, e.c, p, msg, e.utc, e.inputs);
        NoDataUnlessCaused(env, s, e);
      }
  }

  /** Only a frame that reaches the quota touches the books; a frame refused for its session, its encoding or its
      size touches nothing. */
  lemma StepBooks(env: Env, s: State, e: Event)
    requires Enabled(s, e)
    ensures
      match Metering(env, s, e)
      case None => BooksStand(s, Step(env, s, e))
      case Some(load) => e.Frame? && Books(s, Step(env, s, e), load, e.inputs.clock)
  {
    match e
    case Open(_, _, _, _) => OpenSessions(env, s, e); NoDataUnlessCaused(env, s, e);
    case Frame(_, _, _, _) => FrameBooks(env, s, e);
    case Close(_) => NoDataUnlessCaused(env, s, e);
    case WriterEnds(_) => NoDataUnlessCaused(env, s, e);
  }

  // ---------------------------------------------------------------- one sender's account

  function PageOf(env: Env, s: State, k: string): Page {
    Page(if k in s.quotas then Some(s.quotas[k]) else None, Relayed(env, Some(k), s.net.boxes), s.clock)
  }

  function TryOf(env: Env, s: State, e: Event, k: string): Option<Try> {
    match Metering(env, s, e)
    case None => None
    case Some(load) =>
      if e.Frame? && load.sender == k then Some(Try(e.inputs.clock, load.size, Reachable(s, load.to))) else None
  }

  /** The bytes a booked load puts on the channels, for any one sender and for all of them together. */
  lemma BooksRelay(env: Env, s: State, s': State, load: Load, r: R.Readings, k: Option<string>)
    requires Books(s, s', load, r) && env.decodedLen(load.data) == Some(load.size)
    ensures
      Relayed(env, k, s'.net.boxes) == Relayed(env, k, s.net.boxes)
      + if R.Charge(s.quotas, load.sender, r, load.size).1.Accepted? && Reachable(s, load.to)
           && (k.None? || k.value == load.sender) then load.size else 0
  {
    if R.Charge(s.quotas, load.sender, r, load.size).1.Accepted? && Reachable(s, load.to) {
      OneMessage(env, k, s.net.boxes, s.reg.peers[load.to].tx, RelayData(load.id, load.sender, load.data));
    } else {
      NoDataRelayed(env, k, s.net, s'.net);
    }
  }

  lemma LoadDecodes(env: Env, ss: R.Sessions, p: string, msg: ClientMessage)
    ensures LoadOf(env, ss, p, msg).Some? ==>
      env.decodedLen(LoadOf(env, ss, p, msg).value.data) == Some(LoadOf(env, ss, p, msg).value.size)
  {
  }

  lemma MeteringDecodes(env: Env, s: State, e: Event)
    ensures Metering(env, s, e).Some? ==>
      env.decodedLen(Metering(env, s, e).value.data) == Some(Metering(env, s, e).value.size)
  {
    if e.Frame? && e.c in s.conns {
      match Accepted(env, s.conns[e.c], e.text, e.utc)
      case Err(_) =>
      case Ok(msg) => LoadDecodes(env, s.sessions, s.conns[e.c], msg);
    }
  }

  lemma StepTicks(env: Env, s: State, e: Event)
    requires Enabled(s, e)
    ensures s.clock <= Step(env, s, e).clock
    ensures e.Frame? ==>
      s.clock <= e.inputs.clock.made <= e.inputs.clock.begun <= e.inputs.clock.now == Step(env, s, e).clock
  {
    if e.Open? {
      OpenCases(env, s, e);
      if Registering(env, e).Some? {
        RegisterShape(WithChannel(s), |s.net.boxes|, Registering(env, e).value, e.reflected, e.faults);
      }
    }
  }

  lemma BookedTurns(env: Env, s: State, s': State, load: Load, r: R.Readings, k: string)
    requires Books(s, s', load, r) && env.decodedLen(load.data) == Some(load.size)
    requires s.clock <= r.made <= r.begun <= r.now == s'.clock
    ensures Turns(PageOf(env, s, k), if load.sender == k then Some(Try(r, load.size, Reachable(s, load.to))) else None,
                  PageOf(env, s', k))
  {
    BooksRelay(env, s, s', load, r, Some(k));
  }

  /** Every event turns the account of every sender as its frame, if it is one that reaches that quota, says; and the
      counter of relayed bytes grows by what went on the channels. */
  lemma StepTurns(env: Env, s: State, e: Event, s': State, k: string)
    requires Leads(env, s, e, s')
    ensures Turns(PageOf(env, s, k), TryOf(env, s, e, k), PageOf(env, s', k))
    ensures s'.relayBytes - s.relayBytes == Relayed(env, None, s'.net.boxes) - Relayed(env, None, s.net.boxes)
  {
    StepTicks(env, s, e);
    StepBooks(env, s, e);
    MeteringDecodes(env, s, e);
    match Metering(env, s, e)
    case None =>
      NoDataRelayed(env, None, s.net, s'.net);
      NoDataRelayed(env, Some(k), s.net, s'.net);
    case Some(load) =>
      BookedTurns(env, s, s', load, e.inputs.clock, k);
      BooksRelay(env, s, s', load, e.inputs.clock, None);
  }
}
