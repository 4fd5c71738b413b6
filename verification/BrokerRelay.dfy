/** What each event does to the relay sessions. */
module BrokerRelay {
  import opened Common
  import opened Protocol
  import opened Outbox
  import opened Registry
  import opened SessionRuns
  import opened Broker
  import opened BrokerInv
  import opened BrokerPresence
  import R = Relay

  function SnapOf(s: State): Snap {
    Snap(s.sessions, s.issued)
  }

  /** What an accepted message of `p` means for sessions. */
  function MessageAct(env: Env, p: string, msg: ClientMessage, freshId: SessionId): Act {
    if msg.RequestRelay? then Asks(freshId, p, msg.peer)
    else if msg.AcceptRelay? && env.uuid(msg.sessionId).Some? then Agrees(env.uuid(msg.sessionId).value, p)
    else Rests
  }

  function ActOf(env: Env, s: State, e: Event): Act {
    if e.Frame? && e.c in s.conns then
      match Accepted(env, s.conns[e.c], e.text, e.utc)
      case Ok(msg) => MessageAct(env, s.conns[e.c], msg, e.inputs.freshId)
      case Err(_) => Rests
    else if e.Close? && e.c in s.conns then Leaves(s.conns[e.c])
    else Rests
  }

  ghost predicate AllIssued(t: Snap) {
    forall id :: id in t.sessions ==> id in t.issued
  }

  lemma RequestMoves(t: Snap, peers: map<string, Peer>, net: Net, id: SessionId, a: string, b: string)
    requires id !in t.issued && AllIssued(t)
    ensures Moves(t, Asks(id, a, b), Snap(R.Request(t.sessions, peers, net, id, a, b).0, t.issued + {id}))
  {
  }

  lemma AcceptMoves(t: Snap, peers: map<string, Peer>, net: Net, p: string, id: SessionId)
    ensures Moves(t, Agrees(id, p), t.(sessions := R.Accept(t.sessions, peers, net, p, id).0))
  {
  }

  lemma DispatchMoves(env: Env, s: State, c: ConnId, p: string, msg: ClientMessage, utc: int, inp: Inputs)
    requires AllIssued(SnapOf(s)) && inp.freshId !in s.issued
    ensures Moves(SnapOf(s), MessageAct(env, p, msg, inp.freshId),
      SnapOf(Apply(s, Dispatch(env, s, c, p, msg, utc, inp).0)))
  {
    if msg.RequestRelay? { RequestMoves(SnapOf(s), s.reg.peers, s.net, inp.freshId, p, msg.peer); }
    if msg.AcceptRelay? && env.uuid(msg.sessionId).Some? {
      AcceptMoves(SnapOf(s), s.reg.peers, s.net, p, env.uuid(msg.sessionId).value);
    }
  }

  lemma FrameMoves(env: Env, s: State, e: Event)
    requires e.Frame? && Enabled(s, e) && AllIssued(SnapOf(s))
    ensures Moves(SnapOf(s), ActOf(env, s, e), SnapOf(HandleFrame(env, s, e.c, e.text, e.utc, e.inputs)))
  {
    var p := s.conns[e.c];
    var (eff, err) := HandleMessage(env, s, e.c, e.text, e.utc, e.inputs);
    HandleIsGood(env, s, e.c, e.text, e.utc, e.inputs);
    ConcludeConnections(env, s, e.c, e.text, e.inputs.clock.now, eff, err);
    match Accepted(env, p, e.text, e.utc)
    case Err(_) =>
    case Ok(m) => DispatchMoves(env, s, e.c, p, m, e.utc, e.inputs);
  }

  lemma CleanupMoves(s: State, c: ConnId)
    requires c in s.conns
    ensures Moves(SnapOf(s), Leaves(s.conns[c]), SnapOf(Cleanup(s, c)))
  {
  }

  lemma OpenSessions(env: Env, s: State, e: Event)
    requires e.Open?
    ensures
      var s' := OpenSocket(env, s, e.first, e.reflected, e.utc, e.faults);
      s'.sessions == s.sessions && s'.issued == s.issued && s'.quotas == s.quotas && s'.relayBytes == s.relayBytes
  {
    OpenCases(env, s, e);
    if Registering(env, e).Some? {
      RegisterShape(WithChannel(s), |s.net.boxes|, Registering(env, e).value, e.reflected, e.faults);
    }
  }

  /** Every event moves the session table as its act allows. */
  lemma SessionStep(env: Env, s: State, e: Event)
    requires Enabled(s, e) && AllIssued(SnapOf(s))
    ensures Moves(SnapOf(s), ActOf(env, s, e), SnapOf(Step(env, s, e)))
  {
    match e
    case Open(_, _, _, _) => OpenSessions(env, s, e);
    case Frame(_, _, _, _) => FrameMoves(env, s, e);
    case Close(c) => CleanupMoves(s, c);
    case WriterEnds(_) =>
  }
}
