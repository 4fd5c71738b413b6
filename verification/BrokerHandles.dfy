/** The registry's handle index: when it holds exactly the handles of registered peers, and when an entry outlives
    its owner's registration. */
module BrokerHandles {
  import opened Common
  import opened Protocol
  import opened Outbox
  import opened Registry
  import opened Handles
  import opened Broker
  import opened BrokerInv
  import opened BrokerPresence

  /** The index says `h` is `k`. */
  ghost predicate Names(s: State, h: string, k: string) {
    h in s.reg.handleIndex && s.reg.handleIndex[h] == k
  }

  /** `k` is registered with handle `h`. */
  ghost predicate Holds(s: State, k: string, h: string) {
    k in s.reg.peers && s.reg.peers[k].handle == Some(h)
  }

  /** The index names `k` by its registered handle and by nothing else. */
  ghost predicate IndexExact(s: State, k: string) {
    forall h :: Names(s, h, k) <==> Holds(s, k, h)
  }

  // ---------------------------------------------------------------- registering

  /** The register claims again the handle its key owns, and the database lets it. */
  predicate Reclaims(m: ClientMessage, f: Faults, h: string)
    requires m.Register?
  {
    m.handle == Some(h) && !f.upsert && !f.claim
  }

  lemma ReclaimIff(t: Tables, m: ClientMessage, f: Faults, h: string)
    requires m.Register? && Consistent(t) && h in t.handles && t.handles[h] == m.pubkey
    ensures ClaimOnRegister(Some(t), m, f).1 <==> Reclaims(m, f, h)
  {
    var kind := KindName(if m.kind.Some? then m.kind.value else User);
    var t1 := if f.kind then t else UpsertPeerWithKind(t, m.pubkey, kind);
    UpsertKeeps(t, m.pubkey, kind);
    UpsertKeeps(t1, m.pubkey, kind);
    var t2 := UpsertPeer(t1, m.pubkey);
    assert OwnsHandle(t2, m.pubkey) by { assert h in t2.handles && t2.handles[h] == m.pubkey; }
    OwnersHandle(t2, m.pubkey, h);
  }

  /** On consistent tables an owner can claim its own handle only. */
  lemma OwnersHandle(t: Tables, p: string, h: string)
    requires Consistent(t) && h in t.handles && t.handles[h] == p
    ensures forall h' :: ClaimHandle(t, p, h').1.None? <==> h' == h
  {
    assert OwnsHandle(t, p);
  }

  /** What a register of `p` does to the index, seen from key `k`. */
  lemma InsertNames(s: State, s': State, p: Peer, k: string, h: string)
    requires s'.reg == Insert(s.reg, p)
    requires p.handle.Some? && p.pubkey != k ==> !Names(s, p.handle.value, k)
    ensures Names(s', h, k) <==> Names(s, h, k) || (k == p.pubkey && p.handle == Some(h))
    ensures Holds(s', k, h) <==> if k == p.pubkey then p.handle == Some(h) else Holds(s, k, h)
  {
  }

  /** A register of `k` leaves behind a handle `k` is registered with. */
  ghost predicate StrandsAs(env: Env, s: State, e: Event, k: string, h: string) {
    Registers(env, e, k) && Holds(s, k, h) && !Reclaims(Registering(env, e).value, e.faults, h)
  }

  ghost predicate Strands(env: Env, s: State, e: Event, k: string) {
    exists h :: StrandsAs(env, s, e, k, h)
  }

  ghost function Entry(s: State, m: ClientMessage, reflected: string, f: Faults): Peer
    requires m.Register?
  {
    Peer(m.pubkey, if ClaimOnRegister(s.db, m, f).1 then m.handle else None, m.addresses, reflected, |s.net.boxes|)
  }

  lemma OpenRegistry(env: Env, s: State, e: Event)
    requires e.Open?
    ensures
      var s' := OpenSocket(env, s, e.first, e.reflected, e.utc, e.faults);
      match Registering(env, e)
      case None => s'.reg == s.reg
      case Some(m) => m.Register? && s'.reg == Insert(s.reg, Entry(s, m, e.reflected, e.faults))
  {
    OpenCases(env, s, e);
    if Registering(env, e).Some? {
      RegisterShape(WithChannel(s), |s.net.boxes|, Registering(env, e).value, e.reflected, e.faults);
    }
  }

  /** A handle just claimed is nobody else's in the index. */
  lemma ClaimedIsFree(s: State, m: ClientMessage, reflected: string, f: Faults, k: string)
    requires Inv(s) && m.Register? && k != m.pubkey
    ensures var p := Entry(s, m, reflected, f); p.handle.Some? ==> !Names(s, p.handle.value, k)
  {
    ClaimMirrors(s.db, m, f);
  }

  lemma RegisterIndexIff(s: State, s': State, m: ClientMessage, reflected: string, f: Faults, k: string)
    requires Inv(s) && IndexExact(s, k) && m.Register? && s'.reg == Insert(s.reg, Entry(s, m, reflected, f))
    ensures IndexExact(s', k) <==> !(k == m.pubkey && exists h :: Holds(s, k, h) && !Reclaims(m, f, h))
  {
    var p := Entry(s, m, reflected, f);
    if k != m.pubkey { ClaimedIsFree(s, m, reflected, f, k); }
    forall h
      ensures Names(s', h, k) <==> Names(s, h, k) || (k == p.pubkey && p.handle == Some(h))
      ensures Holds(s', k, h) <==> if k == p.pubkey then p.handle == Some(h) else Holds(s, k, h)
      ensures Holds(s, m.pubkey, h) ==> (p.handle == Some(h) <==> Reclaims(m, f, h))
    {
      InsertNames(s, s', p, k, h);
      if Holds(s, m.pubkey, h) { ReclaimIff(s.db.value, m, f, h); }
    }
    ExactIff(s, s', k, k == m.pubkey, p.handle, m, f);
  }

  lemma ExactIff(s: State, s': State, k: string, own: bool, handle: Option<string>, m: ClientMessage, f: Faults)
    requires m.Register? && IndexExact(s, k)
    requires forall h :: Names(s', h, k) <==> Names(s, h, k) || (own && handle == Some(h))
    requires forall h :: Holds(s', k, h) <==> if own then handle == Some(h) else Holds(s, k, h)
    requires own ==> forall h :: Holds(s, k, h) ==> (handle == Some(h) <==> Reclaims(m, f, h))
    ensures IndexExact(s', k) <==> !(own && exists h :: Holds(s, k, h) && !Reclaims(m, f, h))
  {
    if h :| own && Holds(s, k, h) && !Reclaims(m, f, h) {
      assert Names(s, h, k) && Names(s', h, k) && !Holds(s', k, h);
    }
  }

  // ---------------------------------------------------------------- cleaning up

  /** After a cleanup the index still names the key by `h` exactly when it did before and the key's registration, if it
      had one, did not hold `h`. */
  lemma CleanupNamesIff(s: State, c: ConnId, h: string)
    requires Inv(s) && c in s.conns
    ensures var k := s.conns[c]; Names(Cleanup(s, c), h, k) <==> Names(s, h, k) && !Holds(s, k, h)
  {
  }

  lemma CleanupNames(s: State, c: ConnId, h: string, k: string)
    requires Inv(s) && c in s.conns
    ensures Names(Cleanup(s, c), h, k) <==> Names(s, h, k) && !(s.conns[c] == k && Holds(s, k, h))
  {
    if s.conns[c] == k { CleanupNamesIff(s, c, h); }
  }

  lemma CleanupKeepsExact(s: State, c: ConnId, k: string)
    requires Inv(s) && c in s.conns && IndexExact(s, k)
    ensures IndexExact(Cleanup(s, c), k)
  {
    var s' := Cleanup(s, c);
    forall h ensures Names(s', h, k) <==> Holds(s', k, h) {
      assert Names(s, h, k) <==> Holds(s, k, h);
      if k == s.conns[c] { CleanupNamesIff(s, c, h); }
    }
  }

  // ---------------------------------------------------------------- over whole runs

  /** An event keeps the index exact for a key exactly when it does not register the key again without its handle. */
  lemma StepIndexIff(env: Env, s: State, e: Event, k: string)
    requires Inv(s) && Enabled(s, e) && IndexExact(s, k)
    ensures IndexExact(Step(env, s, e), k) <==> !Strands(env, s, e, k)
  {
    match e
    case Open(_, _, _, _) =>
      OpenRegistry(env, s, e);
      if Registering(env, e).Some? {
        var m := Registering(env, e).value;
        RegisterIndexIff(s, Step(env, s, e), m, e.reflected, e.faults, k);
        assert forall h :: StrandsAs(env, s, e, k, h) <==> k == m.pubkey && Holds(s, k, h) && !Reclaims(m, e.faults, h);
      } else {
        SameIndex(s, Step(env, s, e), k);
      }
    case Frame(_, _, _, _) =>
      FrameConns(env, s, e);
      SameIndex(s, Step(env, s, e), k);
    case Close(c) => CleanupKeepsExact(s, c, k);
    case WriterEnds(_) => SameIndex(s, Step(env, s, e), k);
  }

  lemma SameIndex(s: State, s': State, k: string)
    requires IndexExact(s, k) && s'.reg == s.reg
    ensures IndexExact(s', k)
  {
    assert forall h :: Names(s', h, k) <==> Names(s, h, k);
  }

  /** The event registers `k` and claims `h` for it. */
  ghost predicate ClaimsAs(env: Env, s: State, e: Event, k: string, h: string) {
    Registers(env, e, k) && Entry(s, Registering(env, e).value, e.reflected, e.faults).handle == Some(h)
  }

  /** The event cleans up a connection of `k` while `k` is registered with `h`. */
  ghost predicate Retires(s: State, e: Event, k: string, h: string) {
    CleansUp(s, e, k) && Holds(s, k, h)
  }

  /** From any state, what an event makes of one entry of the index. */
  lemma NamesStep(env: Env, s: State, e: Event, h: string, k: string)
    requires Inv(s) && Enabled(s, e)
    ensures Names(Step(env, s, e), h, k) <==> ClaimsAs(env, s, e, k, h) || (Names(s, h, k) && !Retires(s, e, k, h))
  {
    match e
    case Open(_, _, _, _) =>
      OpenRegistry(env, s, e);
      if Registering(env, e).Some? {
        var m := Registering(env, e).value;
        if k != m.pubkey { ClaimedIsFree(s, m, e.reflected, e.faults, k); }
        InsertNames(s, Step(env, s, e), Entry(s, m, e.reflected, e.faults), k, h);
      }
    case Frame(_, _, _, _) => FrameConns(env, s, e);
    case Close(c) => CleanupNames(s, c, h, k);
    case WriterEnds(_) =>
  }

  /** Some event registered `k` with `h`, and none since has cleaned up a connection of `k` while it held `h`. */
  ghost predicate Remembered(env: Env, ss: seq<State>, es: seq<Event>, n: nat, h: string, k: string)
    requires n <= |es| <= |ss|
  {
    exists i :: 0 <= i < n && ClaimsAs(env, ss[i], es[i], k, h) &&
      forall j :: i < j < n ==> !Retires(ss[j], es[j], k, h)
  }

  /** In every run, in every state, that is exactly what the index holds. */
  lemma NamesOverRun(env: Env, ss: seq<State>, es: seq<Event>, n: nat, h: string, k: string)
    requires IsRun(env, ss, es) && StartsEmpty(ss[0]) && n <= |es|
    ensures Names(ss[n], h, k) <==> Remembered(env, ss, es, n, h, k)
  {
    var on := seq(|ss|, i requires 0 <= i < |ss| => Names(ss[i], h, k));
    var sets := seq(|es|, i requires 0 <= i < |es| => ClaimsAs(env, ss[i], es[i], k, h));
    var clears := seq(|es|, i requires 0 <= i < |es| => Retires(ss[i], es[i], k, h));
    forall i | 0 <= i < |es| ensures on[i + 1] <==> sets[i] || (on[i] && !clears[i]) {
      RunKeepsInv(env, ss, es, i);
      assert Leads(env, ss[i], es[i], ss[i + 1]);
      NamesStep(env, ss[i], es[i], h, k);
    }
    Latch(on, sets, clears, n);
    RememberedIs(env, ss, es, n, h, k, sets, clears);
  }

  lemma RememberedIs(env: Env, ss: seq<State>, es: seq<Event>, n: nat, h: string, k: string, sets: seq<bool>,
      clears: seq<bool>)
    requires n <= |es| <= |ss| && |sets| == |clears| == |es|
    requires forall i :: 0 <= i < |es| ==> (sets[i] <==> ClaimsAs(env, ss[i], es[i], k, h))
    requires forall i :: 0 <= i < |es| ==> (clears[i] <==> Retires(ss[i], es[i], k, h))
    ensures Remembered(env, ss, es, n, h, k) <==>
      exists i :: 0 <= i < n && sets[i] && forall j :: i < j < n ==> !clears[j]
  {
  }

  /** In every run the index is exact for every key that was never registered again without its handle. */
  lemma {:induction false} IndexExactUnlessStranded(env: Env, ss: seq<State>, es: seq<Event>, n: nat, k: string)
    requires IsRun(env, ss, es) && StartsEmpty(ss[0]) && n <= |es|
    requires forall i :: 0 <= i < n ==> !Strands(env, ss[i], es[i], k)
    ensures IndexExact(ss[n], k)
  {
    if n > 0 {
      IndexExactUnlessStranded(env, ss, es, n - 1, k);
      RunKeepsInv(env, ss, es, n - 1);
      assert Leads(env, ss[n - 1], es[n - 1], ss[n]);
      StepIndexIff(env, ss[n - 1], es[n - 1], k);
    }
  }

  lemma SingleIsNotStranded(env: Env, s: State, e: Event, k: string)
    requires Inv(s) && Enabled(s, e) && Single(Step(env, s, e), k)
    ensures !Strands(env, s, e, k)
  {
    StepConnections(env, s, e);
    if Registers(env, e, k) { OneHolder(s, Step(env, s, e), |s.net.boxes|, k); }
    assert k in s.reg.peers ==> Live(s, k);
  }

  /** In every run, for every key that never has two live connections: the index names it by its registered handle and
      by nothing else, so once its connection is gone the whole registry holds nothing of it. */
  lemma IndexOfSingleConnections(env: Env, ss: seq<State>, es: seq<Event>, n: nat, k: string)
    requires IsRun(env, ss, es) && StartsEmpty(ss[0]) && n <= |es|
    requires forall i :: 0 <= i <= n ==> Single(ss[i], k)
    ensures IndexExact(ss[n], k)
    ensures !Live(ss[n], k) ==> k !in ss[n].reg.peers && k !in ss[n].reg.handleIndex.Values
  {
    forall i | 0 <= i < n ensures !Strands(env, ss[i], es[i], k) {
      RunKeepsInv(env, ss, es, i);
      assert Leads(env, ss[i], es[i], ss[i + 1]);
      SingleIsNotStranded(env, ss[i], es[i], k);
    }
    IndexExactUnlessStranded(env, ss, es, n, k);
    RunKeepsInv(env, ss, es, n);
    NoValueWithoutPeer(ss[n], k);
  }

  lemma NoValueWithoutPeer(s: State, k: string)
    requires Inv(s) && IndexExact(s, k)
    ensures !Live(s, k) ==> k !in s.reg.peers && k !in s.reg.handleIndex.Values
  {
    if k in s.reg.handleIndex.Values {
      var h :| h in s.reg.handleIndex && s.reg.handleIndex[h] == k;
      assert Names(s, h, k) && Holds(s, k, h);
    }
    assert k in s.reg.peers ==> Live(s, k);
  }
}
