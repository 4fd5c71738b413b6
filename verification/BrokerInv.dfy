/** What every event keeps, however many connections a key has. */
module BrokerInv {
  import opened Common
  import opened Protocol
  import opened Outbox
  import opened Registry
  import opened Presence
  import opened Handles
  import opened Broker
  import R = Relay

  /** The key has a connection that was not cleaned up yet. */
  ghost predicate Live(s: State, k: string) {
    exists c :: c in s.conns && s.conns[c] == k
  }

  /** A registry entry is the entry of a live connection of that very key. */
  ghost predicate NoGhosts(s: State) {
    && (forall c :: c in s.conns ==> c < |s.net.boxes|)
    && (forall k :: k in s.reg.peers ==>
         s.reg.peers[k].pubkey == k && s.reg.peers[k].tx in s.conns && s.conns[s.reg.peers[k].tx] == k)
    && s.connected == |s.conns|
  }

  /** No subscription and no session is kept for a key without a connection. */
  ghost predicate NoLeaks(s: State) {
    && (forall k :: k in s.subs ==> Live(s, k))
    && (forall id :: id in s.sessions ==>
         id in s.issued && Live(s, s.sessions[id].initiator) && Live(s, s.sessions[id].responder))
  }

  /** The registry's handle index agrees with the handle table. */
  ghost predicate Mirrors(s: State) {
    && (s.db.Some? ==> Consistent(s.db.value))
    && (forall h :: h in s.reg.handleIndex ==>
         s.db.Some? && h in s.db.value.handles && s.db.value.handles[h] == s.reg.handleIndex[h])
    && (forall k :: k in s.reg.peers && s.reg.peers[k].handle.Some? ==>
         s.reg.peers[k].handle.value in s.reg.handleIndex && s.reg.handleIndex[s.reg.peers[k].handle.value] == k)
  }

  ghost predicate Inv(s: State) {
    NoGhosts(s) && NoLeaks(s) && Mirrors(s)
  }

  // ---------------------------------------------------------------- messages

  /** What a session table may have become after a message of `p`: nothing, one new pending session of `p` with a
      registered peer, or one session promoted by its responder `p`. */
  ghost predicate SessionsMove(s: State, p: string, freshId: SessionId, sessions: R.Sessions) {
    || sessions == s.sessions
    || (exists b :: b in s.reg.peers && sessions == s.sessions[freshId := R.Session(p, b, R.Pending)])
    || (exists id :: id in s.sessions && s.sessions[id].responder == p && s.sessions[id].state == R.Pending
                     && sessions == s.sessions[id := s.sessions[id].(state := R.Active)])
  }

  ghost predicate GoodEffect(s: State, p: string, freshId: SessionId, e: Effect) {
    && s.net.SameShape(e.net)
    && match e
       case Reply(_) => true
       case Subscription(subs, _) => forall k :: k != p ==> (k in subs <==> k in s.subs)
       case SessionChange(sessions, issued, _) =>
         s.issued <= issued <= s.issued + {freshId} && SessionsMove(s, p, freshId, sessions)
         && (sessions != s.sessions && freshId in sessions && freshId !in s.sessions ==> freshId in issued)
       case Metered(_, _, _) => true
       case Roster(db, _) => SameOwners(s.db, db)
  }

  /** The same handles have the same owners, and consistent tables stay so. */
  ghost predicate SameOwners(db: Option<Tables>, db': Option<Tables>) {
    && (db'.Some? <==> db.Some?)
    && (db.Some? ==> db'.value.handles == db.value.handles && (Consistent(db.value) ==> Consistent(db'.value)))
  }

  lemma DispatchIsGood(env: Env, s: State, c: ConnId, p: string, m: ClientMessage, utc: int, inp: Inputs)
    ensures GoodEffect(s, p, inp.freshId, Dispatch(env, s, c, p, m, utc, inp).0)
  {
    match m
    case RequestRelay(_, peer, _, _, rid) => RequestIsGood(s, c, p, peer, rid, inp.freshId);
    case AcceptRelay(_, sid, _, _, _) => AcceptIsGood(s, p, env.uuid(sid), inp.freshId);
    case _ =>
  }

  lemma RequestIsGood(s: State, c: ConnId, p: string, peer: string, rid: Option<string>, id: SessionId)
    ensures GoodEffect(s, p, id, RequestRelayEffect(s, c, p, peer, rid, id).0)
  {
  }

  lemma AcceptIsGood(s: State, p: string, id: Option<SessionId>, freshId: SessionId)
    ensures GoodEffect(s, p, freshId, AcceptRelayEffect(s, p, id).0)
  {
  }

  lemma HandleIsGood(env: Env, s: State, c: ConnId, text: string, utc: int, inp: Inputs)
    requires c in s.conns
    ensures GoodEffect(s, s.conns[c], inp.freshId, HandleMessage(env, s, c, text, utc, inp).0)
  {
    match Accepted(env, s.conns[c], text, utc)
    case Err(_) =>
    case Ok(m) => DispatchIsGood(env, s, c, s.conns[c], m, utc, inp);
  }

  /** The parts of the state the connection invariants speak of. */
  ghost predicate SameConnections(s: State, s': State) {
    && s'.conns == s.conns && s'.reg == s.reg && s'.connected == s.connected && SameOwners(s.db, s'.db)
    && s.net.SameShape(s'.net)
  }

  lemma ConcludeConnections(env: Env, s: State, c: ConnId, text: string, now: real, e: Effect, err: Option<BrokerError>)
    requires s.net.SameShape(e.net) && (e.Roster? ==> SameOwners(s.db, e.db))
    ensures
      var s' := Conclude(env, s, c, text, now, e, err);
      && SameConnections(s, s') && s'.subs == Apply(s, e).subs && s'.sessions == Apply(s, e).sessions
      && s'.issued == Apply(s, e).issued && s'.quotas == Apply(s, e).quotas && s'.relayBytes == Apply(s, e).relayBytes
  {
  }

  lemma SameLive(s: State, s': State)
    requires s'.conns == s.conns
    ensures forall k :: Live(s', k) <==> Live(s, k)
  {
  }

  lemma ConnectionsKept(s: State, s': State)
    requires SameConnections(s, s') && NoGhosts(s) && Mirrors(s)
    ensures NoGhosts(s') && Mirrors(s')
  {
  }

  lemma EffectLeaks(s: State, p: string, freshId: SessionId, e: Effect)
    requires NoGhosts(s) && NoLeaks(s) && Live(s, p) && GoodEffect(s, p, freshId, e)
    ensures NoLeaks(Apply(s, e))
  {
    var s' := Apply(s, e);
    SameLive(s, s');
    assert forall k :: k in s.reg.peers ==> Live(s, k);
  }

  lemma FrameKeeps(env: Env, s: State, c: ConnId, text: string, utc: int, inp: Inputs)
    requires Inv(s) && c in s.conns
    ensures Inv(HandleFrame(env, s, c, text, utc, inp))
  {
    var (e, err) := HandleMessage(env, s, c, text, utc, inp);
    HandleIsGood(env, s, c, text, utc, inp);
    assert Live(s, s.conns[c]);
    EffectLeaks(s, s.conns[c], inp.freshId, e);
    ConcludeConnections(env, s, c, text, inp.clock.now, e, err);
    var s' := Conclude(env, s, c, text, inp.clock.now, e, err);
    ConnectionsKept(s, s');
    SameLive(s, s');
    SameLive(s, Apply(s, e));
  }

  // ---------------------------------------------------------------- registering and cleaning up

  lemma ClaimMirrors(db: Option<Tables>, m: ClientMessage, f: Faults)
    requires m.Register? && (db.Some? ==> Consistent(db.value))
    ensures
      var (db', claimed) := ClaimOnRegister(db, m, f);
      && (db'.Some? <==> db.Some?)
      && (db'.Some? ==> Consistent(db'.value))
      && (db.Some? ==> forall h :: h in db.value.handles ==>
           h in db'.value.handles && db'.value.handles[h] == db.value.handles[h])
      && (claimed ==> db'.Some? && m.handle.Some? && m.handle.value in db'.value.handles
                      && db'.value.handles[m.handle.value] == m.pubkey)
  {
    if db.Some? {
      var t := db.value;
      var kind := KindName(if m.kind.Some? then m.kind.value else User);
      var t1 := if f.kind then t else UpsertPeerWithKind(t, m.pubkey, kind);
      UpsertKeeps(t, m.pubkey, kind);
      UpsertKeeps(t1, m.pubkey, kind);
      if m.handle.Some? && ValidHandle(m.handle.value) {
        ClaimKeeps(UpsertPeer(t1, m.pubkey), m.pubkey, m.handle.value);
      }
    }
  }

  /** The state right after a register, without saying how its channels were written. */
  lemma RegisterShape(s: State, c: ConnId, m: ClientMessage, reflected: string, f: Faults)
    requires m.Register?
    ensures
      var s' := RegisterPeer(s, c, m, reflected, f);
      var (db, claimed) := ClaimOnRegister(s.db, m, f);
      && s' == s.(conns := s.conns[c := m.pubkey], connected := s.connected + 1, db := db, net := s'.net,
                  reg := Insert(s.reg, Peer(m.pubkey, if claimed then m.handle else None, m.addresses, reflected, c)))
      && s.net.SameShape(s'.net)
  {
  }

  lemma RegisterKeeps(s: State, c: ConnId, m: ClientMessage, reflected: string, f: Faults)
    requires Inv(s) && m.Register? && c !in s.conns && c < |s.net.boxes|
    ensures Inv(RegisterPeer(s, c, m, reflected, f))
  {
    var (db, claimed) := ClaimOnRegister(s.db, m, f);
    RegisterShape(s, c, m, reflected, f);
    ClaimMirrors(s.db, m, f);
    InsertKeeps(s, RegisterPeer(s, c, m, reflected, f), c,
                Peer(m.pubkey, if claimed then m.handle else None, m.addresses, reflected, c));
  }

  /** The tables of a register: owners stay, and the peer's handle, if it holds one, is its own. */
  ghost predicate Grows(db: Option<Tables>, db': Option<Tables>, p: Peer) {
    && (db.Some? ==> db'.Some?)
    && (db'.Some? ==> Consistent(db'.value))
    && (db.Some? ==> forall h :: h in db.value.handles ==>
         h in db'.value.handles && db'.value.handles[h] == db.value.handles[h])
    && (p.handle.Some? ==>
         db'.Some? && p.handle.value in db'.value.handles && db'.value.handles[p.handle.value] == p.pubkey)
  }

  ghost predicate Inserts(s: State, s': State, c: ConnId, p: Peer) {
    && s' == s.(conns := s.conns[c := p.pubkey], connected := s.connected + 1, db := s'.db, net := s'.net,
                reg := Insert(s.reg, p))
    && s.net.SameShape(s'.net) && c !in s.conns && c < |s.net.boxes| && p.tx == c
  }

  lemma InsertKeeps(s: State, s': State, c: ConnId, p: Peer)
    requires Inv(s) && Inserts(s, s', c, p) && Grows(s.db, s'.db, p)
    ensures Inv(s')
  {
    InsertMirrors(s, s', c, p);
    InsertGhosts(s, s', c, p);
    InsertLeaks(s, s', c, p);
  }

  lemma InsertGhosts(s: State, s': State, c: ConnId, p: Peer)
    requires NoGhosts(s) && Inserts(s, s', c, p)
    ensures NoGhosts(s')
  {
    assert |s'.conns| == |s.conns| + 1 by { assert s'.conns.Keys == s.conns.Keys + {c}; }
  }

  lemma InsertLeaks(s: State, s': State, c: ConnId, p: Peer)
    requires NoLeaks(s) && Inserts(s, s', c, p)
    ensures NoLeaks(s')
  {
    forall k | Live(s, k) ensures Live(s', k) {
      var d :| d in s.conns && s.conns[d] == k;
      assert d in s'.conns && s'.conns[d] == k;
    }
  }

  lemma InsertMirrors(s: State, s': State, c: ConnId, p: Peer)
    requires Mirrors(s) && Inserts(s, s', c, p) && Grows(s.db, s'.db, p)
    ensures Mirrors(s')
  {
  }

  lemma OpenKeeps(env: Env, s: State, e: Event)
    requires Inv(s) && e.Open?
    ensures Inv(OpenSocket(env, s, e.first, e.reflected, e.utc, e.faults))
  {
    var c := |s.net.boxes|;
    var s1 := s.(net := s.net.(boxes := s.net.boxes + [[]]));
    assert forall k :: Live(s1, k) <==> Live(s, k);
    assert Inv(s1);
    if e.first.Some? && env.parse(e.first.value).Some? && env.parse(e.first.value).value.Register? {
      var m := env.parse(e.first.value).value;
      RegisterKeeps(s1, c, m, e.reflected, e.faults);
      ErrorKeeps(s1, c, Verify(env, m, e.utc), m.requestId);
    } else if e.first.Some? && env.parse(e.first.value).Some? {
      ErrorKeeps(s1, c, Some(Malformed), RequestIdOf(env.parse(e.first.value).value));
    } else {
      ErrorKeeps(s1, c, Some(Malformed), None);
    }
  }

  lemma ErrorKeeps(s: State, c: ConnId, err: Option<BrokerError>, rid: Option<string>)
    requires Inv(s)
    ensures err.Some? ==> Inv(s.(net := s.net.Send(c, Error(err.value, rid))))
  {
    if err.Some? { SameLive(s, s.(net := s.net.Send(c, Error(err.value, rid)))); }
  }

  lemma CleanupKeeps(s: State, c: ConnId)
    requires Inv(s) && c in s.conns
    ensures Inv(Cleanup(s, c))
  {
    var s', p := Cleanup(s, c), s.conns[c];
    assert |s'.conns| == |s.conns| - 1 by { assert s'.conns.Keys == s.conns.Keys - {c}; }
    forall k | k != p && Live(s, k) ensures Live(s', k) {
      var d :| d in s.conns && s.conns[d] == k;
      assert d in s'.conns && s'.conns[d] == k;
    }
  }

  /** Every event keeps the invariant. */
  lemma StepKeepsInv(env: Env, s: State, e: Event)
    requires Inv(s) && Enabled(s, e)
    ensures Inv(Step(env, s, e))
  {
    match e
    case Open(_, _, _, _) => OpenKeeps(env, s, e);
    case Frame(c, text, utc, inp) => FrameKeeps(env, s, c, text, utc, inp);
    case Close(c) => CleanupKeeps(s, c);
    case WriterEnds(_) => SameLive(s, Step(env, s, e));
  }

  lemma {:induction false} RunKeepsInv(env: Env, ss: seq<State>, es: seq<Event>, n: nat)
    requires IsRun(env, ss, es) && StartsEmpty(ss[0]) && n <= |es|
    ensures Inv(ss[n])
  {
    if n > 0 {
      RunKeepsInv(env, ss, es, n - 1);
      assert Leads(env, ss[n - 1], es[n - 1], ss[n]);
      StepKeepsInv(env, ss[n - 1], es[n - 1]);
    }
  }

  // ---------------------------------------------------------------- over whole runs

  lemma {:induction false} InjectiveImage(peers: map<string, Peer>, ks: set<string>, cs: set<ConnId>)
    requires ks <= peers.Keys && OwnChannels(peers) && forall k :: k in ks ==> peers[k].tx in cs
    ensures |ks| <= |cs|
    decreases |ks|
  {
    if ks != {} {
      var k :| k in ks;
      InjectiveImage(peers, ks - {k}, cs - {peers[k].tx});
    }
  }

  /** In every state of every run: a registry entry sends on a connection of its own key that was not cleaned up,
      the gauge counts exactly those connections, and there are never more entries than connections. */
  lemma NoGhostRegistrations(env: Env, ss: seq<State>, es: seq<Event>, n: nat)
    requires IsRun(env, ss, es) && StartsEmpty(ss[0]) && n <= |es|
    ensures forall k :: k in ss[n].reg.peers ==>
      var tx := ss[n].reg.peers[k].tx; tx in ss[n].conns && ss[n].conns[tx] == k
    ensures ss[n].connected == |ss[n].conns| >= |ss[n].reg.peers|
  {
    RunKeepsInv(env, ss, es, n);
    InjectiveImage(ss[n].reg.peers, ss[n].reg.peers.Keys, ss[n].conns.Keys);
    assert |ss[n].reg.peers.Keys| == |ss[n].reg.peers| && |ss[n].conns.Keys| == |ss[n].conns|;
  }

  /** Whenever the last connection of a key is gone there is no registered peer, no subscription and no session of it
      left; with no connection at all there is none of anybody. The handle index is another matter: an entry of it can
      outlive the registration it was made for. */
  lemma NothingLeaks(env: Env, ss: seq<State>, es: seq<Event>, n: nat, k: string)
    requires IsRun(env, ss, es) && StartsEmpty(ss[0]) && n <= |es|
    ensures !Live(ss[n], k) ==>
      k !in ss[n].reg.peers && k !in ss[n].subs && forall id :: id in ss[n].sessions ==> !ss[n].sessions[id].Names(k)
    ensures ss[n].conns == map[] ==> ss[n].reg.peers == map[] && ss[n].subs == map[] && ss[n].sessions == map[]
  {
    RunKeepsInv(env, ss, es, n);
    assert forall p :: p in ss[n].reg.peers ==> Live(ss[n], p);
  }

  /** In every state of every run each index entry is the table's, and a registered peer that holds a handle is what
      its handle resolves to, in the index and in the table. */
  lemma HandleIndexMirrorsTable(env: Env, ss: seq<State>, es: seq<Event>, n: nat)
    requires IsRun(env, ss, es) && StartsEmpty(ss[0]) && n <= |es|
    ensures Mirrors(ss[n])
    ensures forall k :: k in ss[n].reg.peers && ss[n].reg.peers[k].handle.Some? ==>
      ResolveHandle(ss[n], ss[n].reg.peers[k].handle.value) == Some(k)
  {
    RunKeepsInv(env, ss, es, n);
  }
}
