/** What the first message of a socket does: which fault is reported how, or everything a register brings about. */
module BrokerAdmission {
  import opened Common
  import opened Protocol
  import opened Outbox
  import opened Registry
  import opened Presence
  import opened Handles
  import opened Broker
  import opened BrokerInv
  import opened BrokerPresence
  import opened BrokerHandles

  /** A socket whose first message is missing, no register or does not verify is told so, one whose first message does
      not parse is told nothing; in each case a silent channel is all that is left of it. */
  lemma OpenRefused(env: Env, s: State, e: Event)
    requires e.Open? && Enabled(s, e) && Registering(env, e).None?
    ensures
      var s', s1, c := Step(env, s, e), WithChannel(s), |s.net.boxes|;
      && (e.first.None? ==> s' == s1.(net := s1.net.Send(c, Error(Malformed, None))))
      && (e.first.Some? ==>
            match env.parse(e.first.value)
            case None => s' == s1
            case Some(m) =>
              && (!m.Register? ==> s' == s1.(net := s1.net.Send(c, Error(Malformed, RequestIdOf(m)))))
              && (m.Register? ==> Verify(env, m, e.utc).Some?)
              && (m.Register? ==> s' == s1.(net := s1.net.Send(c, Error(Verify(env, m, e.utc).value, m.requestId)))))
  {
  }

  // ---------------------------------------------------------------- the handle

  /** The register gets its handle: it asks for a grammatical one, the database works, and the handle is its own already
      or free while the key has none. */
  ghost predicate Granted(db: Option<Tables>, m: ClientMessage, f: Faults)
    requires m.Register?
  {
    && db.Some? && m.handle.Some? && ValidHandle(m.handle.value) && !f.upsert && !f.claim
    && (|| (m.handle.value in db.value.handles && db.value.handles[m.handle.value] == m.pubkey)
        || (&& m.handle.value !in db.value.handles
            && forall h :: h in db.value.handles ==> db.value.handles[h] != m.pubkey))
  }

  lemma GrantedIff(db: Option<Tables>, m: ClientMessage, f: Faults)
    requires m.Register? && (db.Some? ==> Consistent(db.value))
    ensures ClaimOnRegister(db, m, f).1 <==> Granted(db, m, f)
  {
    if db.Some? && m.handle.Some? && ValidHandle(m.handle.value) && !f.upsert && !f.claim {
      var t, kind := db.value, KindName(if m.kind.Some? then m.kind.value else User);
      var t1 := if f.kind then t else UpsertPeerWithKind(t, m.pubkey, kind);
      UpsertKeeps(t, m.pubkey, kind);
      UpsertKeeps(t1, m.pubkey, kind);
      UpsertMeans(t1, m.pubkey, kind);
      ClaimExactly(UpsertPeer(t1, m.pubkey), m.pubkey, m.handle.value);
    }
  }

  /** The name under which a kind is stored; none declared counts as a user. */
  function StoredKind(kind: Option<IdentityKind>): string {
    if kind == Some(Machine) then "machine" else "user"
  }

  /** No row but `p`'s changed or is new, and `p`'s kind is what it was. */
  ghost predicate RowsKept(t: Tables, t': Tables, p: string) {
    && (forall k :: k in t.peers && k != p ==> k in t'.peers && t'.peers[k] == t.peers[k])
    && (forall k :: k in t'.peers ==> k in t.peers || k == p)
    && (p in t.peers ==> p in t'.peers && t'.peers[p].kind == t.peers[p].kind)
  }

  lemma ClaimRows(t: Tables, p: string, h: string)
    requires Consistent(t)
    ensures
      var t' := UpsertPeer(t, p);
      && RowsKept(t, t', p) && RowsKept(t, ClaimHandle(t', p, h).0, p) && t'.handles == t.handles
      && ClaimHandle(t', p, h).0.handles ==
           if ClaimHandle(t', p, h).1.None? then t.handles[h := p] else t.handles
  {
    UpsertKeeps(t, p, "");
    UpsertMeans(t, p, "");
    ClaimExactly(UpsertPeer(t, p), p, h);
  }

  /** The rows after a register: the key's kind is as declared unless that statement failed, the handle granted is
      recorded as the key's, and no other row changes. */
  lemma RowsAfter(t: Tables, m: ClientMessage, f: Faults)
    requires m.Register? && Consistent(t)
    ensures
      var (db, claimed) := ClaimOnRegister(Some(t), m, f);
      var t1 := if f.kind then t else t.(peers := t.peers[m.pubkey := KindRow(t, m)]);
      && db.Some? && RowsKept(t1, db.value, m.pubkey)
      && db.value.handles == (if claimed then t.handles[m.handle.value := m.pubkey] else t.handles)
  {
    var kind := KindName(if m.kind.Some? then m.kind.value else User);
    UpsertKeeps(t, m.pubkey, kind);
    UpsertMeans(t, m.pubkey, kind);
    var t1 := if f.kind then t else UpsertPeerWithKind(t, m.pubkey, kind);
    assert !f.kind ==> t1 == t.(peers := t.peers[m.pubkey := KindRow(t, m)]);
    if m.handle.Some? { ClaimRows(t1, m.pubkey, m.handle.value); }
  }

  function KindRow(t: Tables, m: ClientMessage): PeerRow
    requires m.Register?
  {
    PeerRow(if m.pubkey in t.peers then t.peers[m.pubkey].handle else None, StoredKind(m.kind))
  }

  // ---------------------------------------------------------------- the state

  /** A register enters one connection and one registration, and touches neither subscriptions, sessions nor quotas. */
  lemma RegisterEnters(env: Env, s: State, e: Event, m: ClientMessage)
    requires e.Open? && Enabled(s, e) && Registering(env, e) == Some(m) && Inv(s)
    ensures
      var s', c := Step(env, s, e), |s.net.boxes|;
      var peer := Peer(m.pubkey, if Granted(s.db, m, e.faults) then m.handle else None, m.addresses, e.reflected, c);
      && s' == s.(conns := s.conns[c := m.pubkey], reg := s'.reg, connected := s.connected + 1, db := s'.db,
                  net := s'.net)
      && s'.reg.peers == s.reg.peers[m.pubkey := peer]
      && s'.net.closed == s.net.closed && |s'.net.boxes| == c + 1
  {
    OpenCases(env, s, e);
    OpenRegistry(env, s, e);
    RegisterShape(WithChannel(s), |s.net.boxes|, m, e.reflected, e.faults);
    GrantedIff(s.db, m, e.faults);
  }

  /** What the new channel carries: the error about a handle without a database, the answer to the register, and news of
      the key itself if it watches itself. */
  ghost function Greeting(s: State, m: ClientMessage, reflected: string, f: Faults): seq<ServerMessage>
    requires m.Register?
  {
    (if s.db.None? && m.handle.Some? then [Error(Internal, m.requestId)] else [])
    + [Registered(m.pubkey, reflected, Granted(s.db, m, f), m.requestId)]
    + (if m.pubkey in At(s.subs, m.pubkey) then [PresenceUpdate(m.pubkey, true)] else [])
  }

  lemma GreetedBox(s: State, c: ConnId, m: ClientMessage, reflected: string, f: Faults, d: ConnId)
    requires m.Register? && c < |s.net.boxes| && s.net.boxes[c] == [] && s.net.Open(c) && d < |s.net.boxes|
    ensures
      var net := Greeted(s, c, m, reflected, f);
      && s.net.SameShape(net)
      && net.boxes[d] ==
           if d != c then s.net.boxes[d]
           else (if s.db.None? && m.handle.Some? then [Error(Internal, m.requestId)] else [])
                + [Registered(m.pubkey, reflected, ClaimOnRegister(s.db, m, f).1, m.requestId)]
  {
  }

  /** Everybody else who is registered and watches the key hears that it is there, once, and nothing more. */
  lemma RegisterTells(env: Env, s: State, e: Event, m: ClientMessage, d: ConnId)
    requires e.Open? && Enabled(s, e) && Registering(env, e) == Some(m) && Inv(s)
    requires d <= |s.net.boxes| && |s.net.boxes| !in s.net.closed
    ensures
      var s', c := Step(env, s, e), |s.net.boxes|;
      && |s'.net.boxes| == c + 1
      && (d == c ==> s'.net.boxes[d] == Greeting(s, m, e.reflected, e.faults))
      && (d < c && d !in s.net.closed && Watched(s, m.pubkey, d) ==>
            s'.net.boxes[d] == s.net.boxes[d] + [PresenceUpdate(m.pubkey, true)])
      && (d < c && (d in s.net.closed || !Watched(s, m.pubkey, d)) ==> s'.net.boxes[d] == s.net.boxes[d])
  {
    var s1, c := WithChannel(s), |s.net.boxes|;
    var s' := Step(env, s, e);
    OpenCases(env, s, e);
    RegisterShape(s1, c, m, e.reflected, e.faults);
    RegisterNet(s1, c, m, e.reflected, e.faults);
    GrantedIff(s.db, m, e.faults);
    GreetedBox(s1, c, m, e.reflected, e.faults, d);
    RecipientsAre(s, s', m.pubkey, c, d);
  }

  /** Somebody else than `p` is registered on channel `d` and watches `p`. */
  ghost predicate Watched(s: State, p: string, d: ConnId) {
    exists k :: k in s.reg.peers && k != p && p in At(s.subs, k) && s.reg.peers[k].tx == d
  }

  lemma RecipientsAre(s: State, s': State, p: string, c: ConnId, d: ConnId)
    requires NoGhosts(s) && c == |s.net.boxes| && d <= c && s'.subs == s.subs
    requires p in s'.reg.peers && s'.reg.peers == s.reg.peers[p := s'.reg.peers[p]] && s'.reg.peers[p].tx == c
    ensures d in Recipients(s'.subs, s'.reg.peers, p) <==> if d == c then p in At(s.subs, p) else Watched(s, p, d)
  {
    if d in Recipients(s'.subs, s'.reg.peers, p) {
      var k :| k in s'.reg.peers && p in At(s'.subs, k) && s'.reg.peers[k].tx == d;
    }
    if k :| k in s.reg.peers && k != p && p in At(s.subs, k) && s.reg.peers[k].tx == d {
      assert k in s'.reg.peers && s'.reg.peers[k].tx == d;
    }
  }

  // ---------------------------------------------------------------- leaving

  /** Cleaning up takes the key out of the registry, forgets what it watches, ends its sessions and nobody else's, and
      leaves quotas, counter and tables alone. */
  lemma CleanupLeaves(env: Env, s: State, e: Event)
    requires e.Close? && Enabled(s, e)
    ensures
      var s', p := Step(env, s, e), s.conns[e.c];
      && s' == s.(conns := s'.conns, reg := s'.reg, subs := s'.subs, sessions := s'.sessions, net := s'.net,
                  connected := s.connected - 1)
      && s'.conns == s.conns - {e.c} && s'.reg.peers == s.reg.peers - {p}
      && (forall k :: At(s'.subs, k) == if k == p then {} else At(s.subs, k))
      && (forall id :: id in s'.sessions <==> id in s.sessions && !s.sessions[id].Names(p))
      && (forall id :: id in s'.sessions ==> s'.sessions[id] == s.sessions[id])
  {
  }

  /** Everybody else who is registered and watches the key hears that it is gone, once, and nothing more. */
  lemma CleanupTells(env: Env, s: State, e: Event, d: ConnId)
    requires e.Close? && Enabled(s, e) && d < |s.net.boxes|
    ensures
      var s', p := Step(env, s, e), s.conns[e.c];
      && s'.net.closed == s.net.closed && |s'.net.boxes| == |s.net.boxes|
      && (d !in s.net.closed && Watched(s, p, d) ==> s'.net.boxes[d] == s.net.boxes[d] + [PresenceUpdate(p, false)])
      && (d in s.net.closed || !Watched(s, p, d) ==> s'.net.boxes[d] == s.net.boxes[d])
  {
    var s', p := Step(env, s, e), s.conns[e.c];
    if d in Recipients(s'.subs, s'.reg.peers, p) {
      var k :| k in s'.reg.peers && p in At(s'.subs, k) && s'.reg.peers[k].tx == d;
      assert k in s.reg.peers && k != p && p in At(s.subs, k);
    }
    if k :| k in s.reg.peers && k != p && p in At(s.subs, k) && s.reg.peers[k].tx == d {
      assert k in s'.reg.peers && p in At(s'.subs, k);
    }
  }
}
