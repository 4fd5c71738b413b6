/** Runs that reach what the theorems speak of, for any broker that accepts the few texts they take. */
module BrokerExamples {
  import opened Common
  import opened Protocol
  import opened Outbox
  import opened Registry
  import opened Presence
  import opened Handles
  import opened SessionRuns
  import opened Broker
  import opened BrokerInv
  import opened BrokerPresence
  import opened BrokerHandles
  import opened BrokerRelay
  import opened BrokerLedger
  import opened BrokerRuns
  import R = Relay
  import Q = Quota

  /** Text that is accepted as message `m` when it comes in at `utc`. */
  ghost predicate Says(env: Env, utc: int, text: string, m: ClientMessage) {
    0 <= utc < 0x4000_0000_0000_0000 && env.parse(text) == Some(m) && Verify(env, m, utc).None?
  }

  const NO_FAULTS: Faults := Faults(false, false, false)

  function Joining(text: string, utc: int): Event {
    Open(Some(text), "", utc, NO_FAULTS)
  }

  function Saying(c: ConnId, text: string, utc: int, freshId: SessionId): Event {
    Frame(c, text, utc, Inputs(freshId, R.Readings(0.0, 0.0, 0.0), true, true, true, Done))
  }

  /** What a register leaves alone, and what it adds. */
  lemma Joined(env: Env, s: State, e: Event, m: ClientMessage)
    requires e.Open? && Registering(env, e) == Some(m)
    ensures
      var s' := OpenSocket(env, s, e.first, e.reflected, e.utc, e.faults);
      && m.Register? && s'.conns == s.conns[|s.net.boxes| := m.pubkey]
      && s'.reg == Insert(s.reg, Entry(s, m, e.reflected, e.faults))
      && |s'.net.boxes| == |s.net.boxes| + 1 && s'.net.closed == s.net.closed
      && s'.subs == s.subs && s'.sessions == s.sessions && s'.issued == s.issued && s'.quotas == s.quotas
      && s'.clock == s.clock && s'.db == ClaimOnRegister(s.db, m, e.faults).0
  {
    OpenCases(env, s, e);
    OpenRegistry(env, s, e);
    RegisterShape(WithChannel(s), |s.net.boxes|, m, e.reflected, e.faults);
  }

  /** A run from an empty broker that ends in `s`. */
  ghost predicate Reaches(env: Env, ss: seq<State>, es: seq<Event>, s: State) {
    IsRun(env, ss, es) && StartsEmpty(ss[0]) && ss[|es|] == s
  }

  lemma Extend(env: Env, ss: seq<State>, es: seq<Event>, s: State, e: Event, s': State)
    requires Reaches(env, ss, es, s) && Leads(env, s, e, s')
    ensures Reaches(env, ss + [s'], es + [e], s')
  {
    var ss', es' := ss + [s'], es + [e];
    forall i | 0 <= i < |es'| ensures Leads(env, ss'[i], es'[i], ss'[i + 1]) {
      if i < |es| { assert Leads(env, ss[i], es[i], ss[i + 1]); }
    }
  }

  lemma ReachedInv(env: Env, ss: seq<State>, es: seq<Event>, s: State)
    requires Reaches(env, ss, es, s)
    ensures Inv(s)
  {
    RunKeepsInv(env, ss, es, |es|);
  }

  // ---------------------------------------------------------------- out of step

  /** Only `k` is there, on connections 0 up to `n`, registered on the last of them, and watches `ts`. */
  ghost predicate Alone(s: State, k: string, n: nat, ts: set<string>) {
    && (forall c :: c in s.conns <==> 0 <= c < n) && (forall c :: c in s.conns ==> s.conns[c] == k)
    && |s.net.boxes| == n && s.net.closed == {}
    && s.issued == {} && s.clock == 0.0 && At(s.subs, k) == ts
    && (n > 0 ==> k in s.reg.peers && s.reg.peers[k].tx == n - 1)
  }

  lemma AloneJoins(env: Env, s: State, utc: int, k: string, n: nat, ts: set<string>, join: string, j: ClientMessage)
    requires Alone(s, k, n, ts) && Says(env, utc, join, j) && j.Register? && j.pubkey == k
    ensures Enabled(s, Joining(join, utc)) && Registers(env, Joining(join, utc), k)
    ensures Alone(Step(env, s, Joining(join, utc)), k, n + 1, ts)
  {
    Joined(env, s, Joining(join, utc), j);
  }

  lemma AloneWatches(env: Env, s: State, utc: int, k: string, t: string, watch: string, w: ClientMessage)
    requires Inv(s) && Alone(s, k, 1, {})
    requires Says(env, utc, watch, w) && w.SubscribePresence? && w.pubkey == k && w.peers == [t]
    ensures Enabled(s, Saying(0, watch, utc, 0)) && Alone(Step(env, s, Saying(0, watch, utc, 0)), k, 1, {t})
    ensures TracksAll(Step(env, s, Saying(0, watch, utc, 0)), k)
  {
    var e := Saying(0, watch, utc, 0);
    SubscribeShape(env, s, e);
    assert At(s.subs, k) + ToSet([t]) == {t};
    FirstWatchTracks(env, s, e, k);
  }

  /** A key that watches nobody yet is in step with whatever it subscribes to on its registered connection. */
  lemma FirstWatchTracks(env: Env, s: State, e: Event, k: string)
    requires Inv(s) && Enabled(s, e) && e.Frame? && At(s.subs, k) == {} && k in s.reg.peers && s.reg.peers[k].tx == e.c
    ensures TracksAll(Step(env, s, e), k)
  {
    assert TracksAll(s, k) && !Blinds(env, s, e, k);
    StepTracksIff(env, s, e, k);
  }

  /** Every key can come to watch anyone: a run of two events. */
  lemma WatcherRun(env: Env, utc: int, k: string, t: string, join: string, watch: string, j: ClientMessage,
      w: ClientMessage)
      returns (ss: seq<State>, es: seq<Event>)
    requires Says(env, utc, join, j) && j.Register? && j.pubkey == k
    requires Says(env, utc, watch, w) && w.SubscribePresence? && w.pubkey == k && w.peers == [t]
    ensures |es| == 2 && |ss| == 3 && Reaches(env, ss, es, ss[2]) && Alone(ss[2], k, 1, {t}) && TracksAll(ss[2], k)
  {
    var s0 := Initial(None, 0.0);
    assert Alone(s0, k, 0, {});
    AloneJoins(env, s0, utc, k, 0, {}, join, j);
    var s1 := Step(env, s0, Joining(join, utc));
    assert Reaches(env, [s0], [], s0);
    Extend(env, [s0], [], s0, Joining(join, utc), s1);
    ss, es := [s0] + [s1], [] + [Joining(join, utc)];
    ReachedInv(env, ss, es, s1);
    AloneWatches(env, s1, utc, k, t, watch, w);
    var s2 := Step(env, s1, Saying(0, watch, utc, 0));
    Extend(env, ss, es, s1, Saying(0, watch, utc, 0), s2);
    ss, es := ss + [s2], es + [Saying(0, watch, utc, 0)];
  }

  lemma SecondConnection(env: Env, s: State, utc: int, k: string, t: string, join: string, j: ClientMessage)
    requires Inv(s) && Alone(s, k, 1, {t}) && TracksAll(s, k) && t != k
    requires Says(env, utc, join, j) && j.Register? && j.pubkey == k
    ensures Enabled(s, Joining(join, utc)) && Alone(Step(env, s, Joining(join, utc)), k, 2, {t})
    ensures BlindsTo(env, s, Joining(join, utc), k, t) && !Tracks(Step(env, s, Joining(join, utc)), k, t)
  {
    AloneJoins(env, s, utc, k, 1, {t}, join, j);
    assert BlindsTo(env, s, Joining(join, utc), k, t);
    StepTracksTo(env, s, Joining(join, utc), k, t);
  }

  lemma FirstConnectionGoes(env: Env, s: State, k: string, ts: set<string>)
    requires Alone(s, k, 2, ts)
    ensures Enabled(s, Close(0)) && OnlineIffLive(s, k)
    ensures Live(Step(env, s, Close(0)), k) && k !in Step(env, s, Close(0)).reg.peers
  {
    assert 1 in s.conns && s.conns[1] == k;
    assert 1 in Step(env, s, Close(0)).conns && Step(env, s, Close(0)).conns[1] == k;
  }

  /** A key that watches someone registers on a second connection and is out of step; then its first connection goes,
      and it is connected and yet not registered. */
  lemma SecondConnectionRun(env: Env, utc: int, k: string, t: string, join: string, watch: string,
                            j: ClientMessage, w: ClientMessage) returns (ss: seq<State>, es: seq<Event>)
    requires Says(env, utc, join, j) && j.Register? && j.pubkey == k && t != k
    requires Says(env, utc, watch, w) && w.SubscribePresence? && w.pubkey == k && w.peers == [t]
    ensures |es| == 4 && IsRun(env, ss, es) && StartsEmpty(ss[0])
    ensures TracksAll(ss[2], k) && OnlineIffLive(ss[3], k)
    ensures !Tracks(ss[3], k, t) && !OnlineIffLive(ss[4], k)
  {
    ss, es := WatcherRun(env, utc, k, t, join, watch, j, w);
    var s2, again := ss[2], Joining(join, utc);
    ReachedInv(env, ss, es, s2);
    SecondConnection(env, s2, utc, k, t, join, j);
    var s3 := Step(env, s2, again);
    FirstConnectionGoes(env, s3, k, {t});
    var s4 := Step(env, s3, Close(0));
    Extend(env, ss, es, s2, again, s3);
    Extend(env, ss + [s3], es + [again], s3, Close(0), s4);
    ss, es := ss + [s3] + [s4], es + [again] + [Close(0)];
  }

  // ---------------------------------------------------------------- a handle that outlives its owner's registration

  lemma FirstClaim(m: ClientMessage, h: string)
    requires m.Register? && m.handle == Some(h) && ValidHandle(h)
    ensures ClaimOnRegister(Some(Tables(map[], map[])), m, NO_FAULTS).1
  {
  }

  /** `p` is connected on exactly the connections `cs`, and the index names it by `h`. */
  ghost predicate Indexed(s: State, p: string, h: string, cs: set<ConnId>) {
    && s.conns.Keys == cs && (forall c :: c in cs ==> c in s.conns && s.conns[c] == p)
    && s.reg.handleIndex == map[h := p]
  }

  lemma JoinsWithHandle(env: Env, s: State, utc: int, p: string, h: string, join: string, m: ClientMessage)
    requires s == Initial(Some(Tables(map[], map[])), 0.0) && ValidHandle(h)
    requires Says(env, utc, join, m) && m.Register? && m.pubkey == p && m.handle == Some(h)
    ensures
      var s' := Step(env, s, Joining(join, utc));
      Enabled(s, Joining(join, utc)) && Indexed(s', p, h, {0}) && |s'.net.boxes| == 1
  {
    Joined(env, s, Joining(join, utc), m);
    FirstClaim(m, h);
  }

  lemma JoinsWithout(env: Env, s: State, utc: int, p: string, h: string, join: string, m: ClientMessage)
    requires Indexed(s, p, h, {0}) && |s.net.boxes| == 1
    requires Says(env, utc, join, m) && m.Register? && m.pubkey == p && m.handle == None
    ensures
      var s' := Step(env, s, Joining(join, utc));
      Enabled(s, Joining(join, utc)) && Indexed(s', p, h, {0, 1}) && p in s'.reg.peers && s'.reg.peers[p].handle == None
  {
    Joined(env, s, Joining(join, utc), m);
  }

  lemma CleanupLeavesHandle(env: Env, s: State, c: ConnId, p: string, h: string, cs: set<ConnId>)
    requires Indexed(s, p, h, cs) && c in cs && (p in s.reg.peers ==> s.reg.peers[p].handle == None)
    ensures
      var s' := Step(env, s, Close(c));
      Enabled(s, Close(c)) && Indexed(s', p, h, cs - {c}) && p !in s'.reg.peers
  {
  }

  /** Register with a handle, register again without one, close both: nobody is connected, and the index still says
      whose the handle is. */
  lemma HandleOutlivesRegistration(env: Env, utc: int, p: string, h: string, with: string, without: string,
                                   m: ClientMessage, m': ClientMessage) returns (ss: seq<State>, es: seq<Event>)
    requires Says(env, utc, with, m) && m.Register? && m.pubkey == p && m.handle == Some(h) && ValidHandle(h)
    requires Says(env, utc, without, m') && m'.Register? && m'.pubkey == p && m'.handle == None
    ensures |es| == 4 && IsRun(env, ss, es) && StartsEmpty(ss[0])
    ensures ss[4].conns == map[] && ss[4].reg == Reg(map[], map[h := p])
  {
    var s0 := Initial(Some(Tables(map[], map[])), 0.0);
    JoinsWithHandle(env, s0, utc, p, h, with, m);
    var s1 := Step(env, s0, Joining(with, utc));
    JoinsWithout(env, s1, utc, p, h, without, m');
    var s2 := Step(env, s1, Joining(without, utc));
    ss, es := TwoEvents(env, s0, Joining(with, utc), s1, Joining(without, utc), s2);
    ss, es := BothClose(env, ss, es, s2, p, h);
  }

  lemma BothClose(env: Env, ss: seq<State>, es: seq<Event>, s2: State, p: string, h: string)
      returns (ss': seq<State>, es': seq<Event>)
    requires |es| == 2 && |ss| == 3 && Reaches(env, ss, es, s2) && Indexed(s2, p, h, {0, 1})
    requires p in s2.reg.peers && s2.reg.peers[p].handle == None
    ensures |es'| == 4 && |ss'| == 5 && Reaches(env, ss', es', ss'[4])
    ensures ss'[4].conns == map[] && ss'[4].reg == Reg(map[], map[h := p])
  {
    CleanupLeavesHandle(env, s2, 0, p, h, {0, 1});
    var s3 := Step(env, s2, Close(0));
    CleanupLeavesHandle(env, s3, 1, p, h, {0, 1} - {0});
    var s4 := Step(env, s3, Close(1));
    Extend(env, ss, es, s2, Close(0), s3);
    Extend(env, ss + [s3], es + [Close(0)], s3, Close(1), s4);
    ss', es' := ss + [s3] + [s4], es + [Close(0)] + [Close(1)];
    NobodyIsLeft(env, ss', es', s4, p, h);
  }

  lemma TwoEvents(env: Env, s0: State, e: Event, s1: State, e': Event, s2: State)
      returns (ss: seq<State>, es: seq<Event>)
    requires StartsEmpty(s0) && Leads(env, s0, e, s1) && Leads(env, s1, e', s2)
    ensures |es| == 2 && |ss| == 3 && Reaches(env, ss, es, s2) && ss[0] == s0
  {
    Extend(env, [s0], [], s0, e, s1);
    Extend(env, [s0] + [s1], [] + [e], s1, e', s2);
    ss, es := [s0] + [s1] + [s2], [] + [e] + [e'];
  }

  lemma NobodyIsLeft(env: Env, ss: seq<State>, es: seq<Event>, s: State, p: string, h: string)
    requires Reaches(env, ss, es, s) && Indexed(s, p, h, {0, 1} - {0} - {1})
    ensures s.conns == map[] && s.reg == Reg(map[], map[h := p])
  {
    ReachedInv(env, ss, es, s);
    assert s.conns.Keys == {};
    forall k | k in s.reg.peers ensures false {
      assert false;
    }
  }

  // ---------------------------------------------------------------- data through the relay

  /** `a` and `b` are connected and registered on 0 and 1, with the given sessions; `n` ids are used up. */
  ghost predicate Paired(s: State, a: string, b: string, sessions: R.Sessions, n: nat) {
    && s.conns == map[0 := a, 1 := b] && a != b && |s.net.boxes| == 2 && s.net.closed == {}
    && a in s.reg.peers && s.reg.peers[a].tx == 0 && b in s.reg.peers && s.reg.peers[b].tx == 1
    && s.sessions == sessions && (forall id :: id in s.issued ==> id < n) && s.quotas == map[] && s.clock == 0.0
  }

  lemma BothJoin(env: Env, s0: State, utc: int, a: string, b: string, joinA: string, joinB: string, m: ClientMessage,
      m': ClientMessage)
    requires s0 == Initial(None, 0.0) && a != b
    requires Says(env, utc, joinA, m) && m.Register? && m.pubkey == a
    requires Says(env, utc, joinB, m') && m'.Register? && m'.pubkey == b
    ensures Enabled(s0, Joining(joinA, utc))
    ensures
      var s1 := Step(env, s0, Joining(joinA, utc));
      Enabled(s1, Joining(joinB, utc)) && Paired(Step(env, s1, Joining(joinB, utc)), a, b, map[], 0)
  {
    Joined(env, s0, Joining(joinA, utc), m);
    Joined(env, Step(env, s0, Joining(joinA, utc)), Joining(joinB, utc), m');
  }

  /** What a frame that is not metered leaves alone. */
  lemma FrameRest(env: Env, s: State, e: Event, a: string, b: string, m: ClientMessage)
    requires Paired(s, a, b, s.sessions, 1) || Paired(s, a, b, s.sessions, 0)
    requires e.Frame? && Enabled(s, e) && Accepted(env, s.conns[e.c], e.text, e.utc) == Ok(m) && !m.Relay?
    requires e.inputs.clock.now == 0.0
    ensures
      var s' := Step(env, s, e);
      && s'.conns == s.conns && s'.reg == s.reg && s.net.SameShape(s'.net) && s'.quotas == s.quotas && s'.clock == 0.0
  {
    var (eff, err) := HandleMessage(env, s, e.c, e.text, e.utc, e.inputs);
    HandleIsGood(env, s, e.c, e.text, e.utc, e.inputs);
    ConcludeConnections(env, s, e.c, e.text, e.inputs.clock.now, eff, err);
    DispatchFree(env, s, e.c, s.conns[e.c], m, e.utc, e.inputs);
  }

  lemma Asked(env: Env, s: State, utc: int, a: string, b: string, ask: string, m: ClientMessage)
    requires Paired(s, a, b, map[], 0) && Says(env, utc, ask, m) && m.RequestRelay? && m.pubkey == a && m.peer == b
    ensures
      var e := Saying(0, ask, utc, 0);
      Enabled(s, e) && Paired(Step(env, s, e), a, b, map[0 := R.Session(a, b, R.Pending)], 1)
  {
    var e := Saying(0, ask, utc, 0);
    FrameRest(env, s, e, a, b, m);
    var (eff, err) := HandleMessage(env, s, 0, ask, utc, e.inputs);
    ConcludeConnections(env, s, 0, ask, 0.0, eff, err);
  }

  lemma Agreed(env: Env, s: State, utc: int, a: string, b: string, agree: string, m: ClientMessage)
    requires Paired(s, a, b, map[0 := R.Session(a, b, R.Pending)], 1)
    requires Says(env, utc, agree, m) && m.AcceptRelay? && m.pubkey == b && env.uuid(m.sessionId) == Some(0)
    ensures
      var e := Saying(1, agree, utc, 1);
      Enabled(s, e) && Paired(Step(env, s, e), a, b, map[0 := R.Session(a, b, R.Active)], 1)
  {
    var e := Saying(1, agree, utc, 1);
    FrameRest(env, s, e, a, b, m);
    var (eff, err) := HandleMessage(env, s, 1, agree, utc, e.inputs);
    ConcludeConnections(env, s, 1, agree, 0.0, eff, err);
  }

  lemma Sent(env: Env, s: State, utc: int, a: string, b: string, send: string, m: ClientMessage)
    requires Paired(s, a, b, map[0 := R.Session(a, b, R.Active)], 1)
    requires Says(env, utc, send, m) && m.Relay? && m.pubkey == a && env.uuid(m.sessionId) == Some(0)
    requires env.decodedLen(m.data).Some? && env.decodedLen(m.data).value <= RELAY_MAX_FRAME
    ensures
      var e := Saying(0, send, utc, 1);
      Enabled(s, e) && Step(env, s, e).net == s.net.Send(1, RelayData(0, a, m.data))
  {
    var e, size := Saying(0, send, utc, 1), env.decodedLen(m.data).value;
    assert Metering(env, s, e) == Some(Load(0, a, b, m.data, size));
    StepBooks(env, s, e);
    assert R.QuotaOf(s.quotas, a, e.inputs.clock) == Q.Fresh(0.0, 0.0);
    assert Q.Consume(Q.Fresh(0.0, 0.0), 0.0, size).1.Accepted?;
  }

  /** Two peers join, one asks, the other agrees, and data flows: the theorems about consent have something to say. */
  lemma RelayRun(env: Env, utc: int, a: string, b: string, texts: seq<string>, ms: seq<ClientMessage>)
      returns (ss: seq<State>, es: seq<Event>)
    requires a != b && |texts| == |ms| == 5 && forall i :: 0 <= i < 5 ==> Says(env, utc, texts[i], ms[i])
    requires ms[0].Register? && ms[0].pubkey == a && ms[1].Register? && ms[1].pubkey == b
    requires ms[2].RequestRelay? && ms[2].pubkey == a && ms[2].peer == b
    requires ms[3].AcceptRelay? && ms[3].pubkey == b && env.uuid(ms[3].sessionId) == Some(0)
    requires ms[4].Relay? && ms[4].pubkey == a && env.uuid(ms[4].sessionId) == Some(0)
    requires env.decodedLen(ms[4].data).Some? && env.decodedLen(ms[4].data).value <= RELAY_MAX_FRAME
    ensures |es| == 5 && IsRun(env, ss, es) && StartsEmpty(ss[0]) && Promotes(Snaps(ss), 3, 0)
    ensures |ss[5].net.boxes| == 2 && RelayData(0, a, ms[4].data) in ss[5].net.boxes[1]
  {
    var s0 := Initial(None, 0.0);
    BothJoin(env, s0, utc, a, b, texts[0], texts[1], ms[0], ms[1]);
    var s1 := Step(env, s0, Joining(texts[0], utc));
    var s2 := Step(env, s1, Joining(texts[1], utc));
    ss, es := TwoEvents(env, s0, Joining(texts[0], utc), s1, Joining(texts[1], utc), s2);
    ss, es := RelayRest(env, ss, es, s2, utc, a, b, texts, ms);
  }

  lemma RelayRest(env: Env, ss: seq<State>, es: seq<Event>, s2: State, utc: int, a: string, b: string,
                  texts: seq<string>, ms: seq<ClientMessage>) returns (ss': seq<State>, es': seq<Event>)
    requires |es| == 2 && |ss| == 3 && Reaches(env, ss, es, s2) && Paired(s2, a, b, map[], 0)
    requires |texts| == |ms| == 5 && forall i :: 0 <= i < 5 ==> Says(env, utc, texts[i], ms[i])
    requires ms[2].RequestRelay? && ms[2].pubkey == a && ms[2].peer == b
    requires ms[3].AcceptRelay? && ms[3].pubkey == b && env.uuid(ms[3].sessionId) == Some(0)
    requires ms[4].Relay? && ms[4].pubkey == a && env.uuid(ms[4].sessionId) == Some(0)
    requires env.decodedLen(ms[4].data).Some? && env.decodedLen(ms[4].data).value <= RELAY_MAX_FRAME
    ensures |es'| == 5 && |ss'| == 6 && Reaches(env, ss', es', ss'[5]) && Promotes(Snaps(ss'), 3, 0)
    ensures |ss'[5].net.boxes| == 2 && RelayData(0, a, ms[4].data) in ss'[5].net.boxes[1]
  {
    var e, e', e'' := Saying(0, texts[2], utc, 0), Saying(1, texts[3], utc, 1), Saying(0, texts[4], utc, 1);
    Asked(env, s2, utc, a, b, texts[2], ms[2]);
    var s3 := Step(env, s2, e);
    Agreed(env, s3, utc, a, b, texts[3], ms[3]);
    var s4 := Step(env, s3, e');
    Sent(env, s4, utc, a, b, texts[4], ms[4]);
    var s5 := Step(env, s4, e'');
    Extend(env, ss, es, s2, e, s3);
    Extend(env, ss + [s3], es + [e], s3, e', s4);
    Extend(env, ss + [s3] + [s4], es + [e] + [e'], s4, e'', s5);
    ss', es' := ss + [s3] + [s4] + [s5], es + [e] + [e'] + [e''];
  }
}
