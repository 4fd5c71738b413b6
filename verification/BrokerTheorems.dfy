/** What holds in every run of the broker, from the start and for any number of connections, peers and sessions. */
module BrokerTheorems {
  import opened Common
  import opened Protocol
  import opened Outbox
  import opened SessionRuns
  import opened SenderLedger
  import opened Broker
  import opened BrokerInv
  import opened BrokerPresence
  import opened BrokerTrace
  import opened BrokerRelay
  import opened BrokerLedger
  import opened BrokerRuns
  import R = Relay
  import Q = Quota

  // ---------------------------------------------------------------- provenance

  /** The event from `s` to `s'` put `m` on channel `c`, as its entry `j`, because of message `msg` of the very peer
      `m` speaks for: it is signed over its canonical bytes, its timestamp is at most 60 s off, and it asks for just
      this. */
  ghost predicate Vouches(env: Env, s: State, e: Event, s': State, msg: ClientMessage, c: ConnId, j: nat,
      m: ServerMessage)
    requires Sourced(m)
  {
    && Puts(s.net, s'.net, c, j, m)
    && Accepts(env, s, e, m.from, msg) && Caused(env, s, m.from, msg, e.utc, e.inputs, c, m)
    && msg.pubkey == m.from && Signed(env, msg) && -MAX_DRIFT <= e.utc - msg.timestamp <= MAX_DRIFT
  }

  lemma StepVouches(env: Env, s: State, e: Event, s': State, c: ConnId, j: nat, m: ServerMessage)
    requires Leads(env, s, e, s') && Sourced(m) && Puts(s.net, s'.net, c, j, m)
    ensures e.Frame? && e.c in s.conns && s.conns[e.c] == m.from && exists msg :: Vouches(env, s, e, s', msg, c, j, m)
  {
    assert Adds(s.net, s'.net, c, m);
    StepCause(env, s, e, c, m);
    var msg :| Accepts(env, s, e, s.conns[e.c], msg) && Caused(env, s, s.conns[e.c], msg, e.utc, e.inputs, c, m);
    AcceptedMeans(env, s, e, s.conns[e.c], msg);
    assert Vouches(env, s, e, s', msg, c, j, m);
  }

  /** Event `i` put `m` there because of `msg`, on a connection that event `o` opened with a register of the same
      peer. */
  ghost predicate Authentic(env: Env, ss: seq<State>, es: seq<Event>, o: nat, i: nat, msg: ClientMessage, c: ConnId,
      j: nat, m: ServerMessage)
    requires |ss| == |es| + 1 && i < |es| && Sourced(m)
  {
    o < i && Vouches(env, ss[i], es[i], ss[i + 1], msg, c, j, m) && RegisteredAt(env, ss[o], es[o], es[i].c, m.from)
  }

  /** In every run each single signal, offer or relayed frame on any channel was put there because of a verified message
      of the peer it speaks for, on a connection that this peer had opened before with a verified register. */
  lemma Provenance(env: Env, ss: seq<State>, es: seq<Event>, n: nat, c: ConnId, j: nat)
    requires IsRun(env, ss, es) && StartsEmpty(ss[0]) && n < |ss|
    requires c < |ss[n].net.boxes| && j < |ss[n].net.boxes[c]| && Sourced(ss[n].net.boxes[c][j])
    ensures exists o: nat, i: nat, msg :: i < n && Authentic(env, ss, es, o, i, msg, c, j, ss[n].net.boxes[c][j])
  {
    var m := ss[n].net.boxes[c][j];
    RunGrows(env, ss, es);
    var i := PutSomewhere(Nets(ss), n, c, j);
    assert Leads(env, ss[i], es[i], ss[i + 1]);
    StepVouches(env, ss[i], es[i], ss[i + 1], c, j, m);
    RunJoins(env, ss, es);
    var o := JoinedBy(Conns(ss), AllJoins(env, ss, es), i, es[i].c);
    var msg :| Vouches(env, ss[i], es[i], ss[i + 1], msg, c, j, m);
    assert Authentic(env, ss, es, o, i, msg, c, j, m);
  }

  /** In every run no accepted frame is delivered twice, and no place is filled twice: two places that events `i` and
      `k` filled with a signal, an offer or a relayed frame are the same place if and only if they are the same
      event. */
  lemma OneMessagePerFrame(env: Env, ss: seq<State>, es: seq<Event>, i: nat, k: nat, c: ConnId, j: nat,
      m: ServerMessage, d: ConnId, l: nat, x: ServerMessage)
    requires IsRun(env, ss, es) && StartsEmpty(ss[0]) && i < |es| && k < |es|
    requires Sourced(m) && Puts(ss[i].net, ss[i + 1].net, c, j, m)
    requires Sourced(x) && Puts(ss[k].net, ss[k + 1].net, d, l, x)
    ensures (c == d && j == l) <==> i == k
  {
    RunGrows(env, ss, es);
    if i == k {
      assert Leads(env, ss[i], es[i], ss[i + 1]);
      StepIsOne(env, ss[i], es[i]);
    } else if c == d && j == l {
      if i < k { PutOnce(Nets(ss), i, k, c, j, m, x); } else { PutOnce(Nets(ss), k, i, c, j, x, m); }
    }
  }

  /** The register behind a connection was itself signed by its peer and fresh. */
  lemma RegisteredMeans(env: Env, s: State, e: Event, c: ConnId, p: string)
    requires Enabled(s, e) && RegisteredAt(env, s, e, c, p)
    ensures
      var m := Registering(env, e).value;
      && e.first.Some? && env.parse(e.first.value) == Some(m) && m.Register? && m.pubkey == p && Signed(env, m)
      && -MAX_DRIFT <= e.utc - m.timestamp <= MAX_DRIFT
  {
    VerifiedMeans(env, Registering(env, e).value, e.utc);
  }

  // ---------------------------------------------------------------- sessions

  /** In every run a session is there until the first cleanup of a connection of either party, and not longer. Its
      parties never change, once active it stays active, and once gone its id never names a session again. */
  lemma SessionLife(env: Env, ss: seq<State>, es: seq<Event>, i: nat, j: nat, n: nat, id: SessionId)
    requires IsRun(env, ss, es) && StartsEmpty(ss[0]) && i <= j <= n < |ss| && id in ss[i].sessions
    ensures
      var x := ss[i].sessions[id];
      && (id in ss[n].sessions <==> !LeftBetween(Acts(env, ss, es), i, n, x.initiator, x.responder))
      && (id in ss[n].sessions ==> SameParties(x, ss[n].sessions[id]))
      && (id in ss[n].sessions && x.state == R.Active ==> ss[n].sessions[id].state == R.Active)
    ensures id !in ss[j].sessions ==> id !in ss[n].sessions
  {
    var ts, acts := Snaps(ss), Acts(env, ss, es);
    RunIsLife(env, ss, es);
    Lasts(ts, acts, i, n, id);
    if id !in ss[j].sessions {
      Issued(ts, acts, i);
      IssuedGrows(ts, acts, i, j);
      StaysGone(ts, acts, j, n, id);
    }
  }

  /** In every run a session is promoted at most once, and by an accept of its responder. */
  lemma OneAccept(env: Env, ss: seq<State>, es: seq<Event>, i: nat, n: nat, id: SessionId)
    requires IsRun(env, ss, es) && StartsEmpty(ss[0]) && Promotes(Snaps(ss), i, id) && Promotes(Snaps(ss), n, id)
    ensures i == n && ActOf(env, ss[i], es[i]) == Agrees(id, ss[i].sessions[id].responder)
  {
    RunIsLife(env, ss, es);
    OnePromotion(Snaps(ss), Acts(env, ss, es), i, n, id);
  }

  lemma DataParties(env: Env, s: State, e: Event, s': State, d: ConnId, j: nat, m: ServerMessage)
    requires Leads(env, s, e, s') && Inv(s) && m.RelayData? && Puts(s.net, s'.net, d, j, m)
    ensures e.Frame? && m.sessionId in s.sessions && s.sessions[m.sessionId].state == R.Active
    ensures d in s.conns && Between(s.sessions[m.sessionId], m.from, s.conns[d])
  {
    assert Adds(s.net, s'.net, d, m);
    StepCause(env, s, e, d, m);
  }

  /** `from` and `to` are the two parties of the session. */
  predicate Between(x: R.Session, from: string, to: string) {
    (from == x.initiator && to == x.responder) || (from == x.responder && to == x.initiator)
  }

  /** Event `r` asked for session `id` as `x.initiator`, event `a` agreed to it as `x.responder`, event `i` put `m`,
      data of one of them, on a connection of the other as entry `j`, and no connection of either was cleaned up in
      between. */
  ghost predicate Consented(env: Env, ss: seq<State>, es: seq<Event>, r: nat, a: nat, i: nat, c: ConnId,
      j: nat, m: ServerMessage, x: R.Session)
    requires m.RelayData? && |ss| == |es| + 1 && i < |es|
  {
    && r < a < i && Puts(ss[i].net, ss[i + 1].net, c, j, m)
    && ActOf(env, ss[r], es[r]) == Asks(m.sessionId, x.initiator, x.responder)
    && ActOf(env, ss[a], es[a]) == Agrees(m.sessionId, x.responder)
    && c in ss[i].conns && Between(x, m.from, ss[i].conns[c])
    && !LeftBetween(Acts(env, ss, es), r, i, x.initiator, x.responder)
  }

  /** In every run each single frame of relayed data on any channel was put there with consent. */
  lemma RelayConsent(env: Env, ss: seq<State>, es: seq<Event>, n: nat, c: ConnId, j: nat)
    requires IsRun(env, ss, es) && StartsEmpty(ss[0]) && n < |ss|
    requires c < |ss[n].net.boxes| && j < |ss[n].net.boxes[c]| && ss[n].net.boxes[c][j].RelayData?
    ensures exists r: nat, a: nat, i: nat, x ::
      i < n && Consented(env, ss, es, r, a, i, c, j, ss[n].net.boxes[c][j], x)
  {
    var m := ss[n].net.boxes[c][j];
    RunGrows(env, ss, es);
    var i := PutSomewhere(Nets(ss), n, c, j);
    assert Leads(env, ss[i], es[i], ss[i + 1]);
    RunKeepsInv(env, ss, es, i);
    DataParties(env, ss[i], es[i], ss[i + 1], c, j, m);
    RunIsLife(env, ss, es);
    var r, a := SessionHistory(Snaps(ss), Acts(env, ss, es), i, m.sessionId);
    assert Consented(env, ss, es, r, a, i, c, j, m, ss[i].sessions[m.sessionId]);
  }

  // ---------------------------------------------------------------- books

  /** In every run the counter is the total of all relayed bytes on all channels. */
  lemma {:induction false} CounterIsRelayed(env: Env, ss: seq<State>, es: seq<Event>, n: nat)
    requires IsRun(env, ss, es) && StartsEmpty(ss[0]) && n < |ss|
    ensures ss[n].relayBytes == Relayed(env, None, ss[n].net.boxes)
  {
    if n > 0 {
      CounterIsRelayed(env, ss, es, n - 1);
      assert Leads(env, ss[n - 1], es[n - 1], ss[n]);
      StepTurns(env, ss[n - 1], es[n - 1], ss[n], "");
    }
  }

  /** In every run what a sender was charged is what was put on channels for it plus what was charged and lost, and
      its quota is what all its calls make of it, whatever sessions and connections they came through. */
  lemma SenderConservation(env: Env, ss: seq<State>, es: seq<Event>, n: nat, k: string)
    requires IsRun(env, ss, es) && StartsEmpty(ss[0]) && n < |ss|
    ensures
      var ps, ts := Pages(env, ss, k), Tries(env, ss, es, k);
      && Spent(ps, ts, n) == Relayed(env, Some(k), ss[n].net.boxes) + Lost(ps, ts, n)
      && Replays(ps, ts, n)
  {
    RunIsAccount(env, ss, es, k);
    Conserved(Pages(env, ss, k), Tries(env, ss, es, k), n);
    QuotaReplays(Pages(env, ss, k), Tries(env, ss, es, k), n);
  }

  lemma {:induction false} LostGrows(ps: seq<Page>, ts: seq<Option<Try>>, i: nat, n: nat)
    requires |ps| == |ts| + 1 && i <= n <= |ts|
    ensures Lost(ps, ts, i) <= Lost(ps, ts, n)
    decreases n
  {
    if i < n { LostGrows(ps, ts, i, n - 1); }
  }

  /** In every run, between any two moments, what any sender got onto all channels together is at most a full bucket
      plus the refill in between, and at most k + 1 GiB if they are less than k days apart. */
  lemma SenderBounds(env: Env, ss: seq<State>, es: seq<Event>, i: nat, n: nat, p: string, k: nat)
    requires IsRun(env, ss, es) && StartsEmpty(ss[0]) && i <= n < |ss|
    ensures
      var sent := Relayed(env, Some(p), ss[n].net.boxes) - Relayed(env, Some(p), ss[i].net.boxes);
      && sent as real <= Q.RATE + Q.RATE * (ss[n].clock - ss[i].clock)
      && (ss[n].clock < ss[i].clock + k as real * Q.DAY ==> sent <= (k + 1) * Q.BYTES_PER_DAY)
  {
    var ps, ts := Pages(env, ss, p), Tries(env, ss, es, p);
    RunIsAccount(env, ss, es, p);
    Conserved(ps, ts, i);
    Conserved(ps, ts, n);
    LostGrows(ps, ts, i, n);
    BurstOverRun(ps, ts, i, n);
    if ss[n].clock < ss[i].clock + k as real * Q.DAY { DaysOverRun(ps, ts, i, n, k); }
  }

  // ---------------------------------------------------------------- all senders together

  function WeightOfAll(env: Env, ks: seq<string>, m: ServerMessage): nat {
    if ks == [] then 0 else Weight(env, Some(ks[0]), m) + WeightOfAll(env, ks[1..], m)
  }

  function BoxOfAll(env: Env, ks: seq<string>, box: seq<ServerMessage>): nat {
    if ks == [] then 0 else BoxBytes(env, Some(ks[0]), box) + BoxOfAll(env, ks[1..], box)
  }

  function RelayedOfAll(env: Env, ks: seq<string>, boxes: Boxes): nat {
    if ks == [] then 0 else Relayed(env, Some(ks[0]), boxes) + RelayedOfAll(env, ks[1..], boxes)
  }

  ghost predicate Distinct(ks: seq<string>) {
    forall i, j :: 0 <= i < j < |ks| ==> ks[i] != ks[j]
  }

  /** The sender of the message is listed, or it carries no bytes. */
  predicate Listed(env: Env, ks: seq<string>, m: ServerMessage) {
    m.RelayData? ==> m.from in ks || Weight(env, None, m) == 0
  }

  predicate Covers(env: Env, ks: seq<string>, box: seq<ServerMessage>) {
    forall j :: 0 <= j < |box| ==> Listed(env, ks, box[j])
  }

  lemma {:induction false} OthersWeighNothing(env: Env, ks: seq<string>, m: ServerMessage)
    requires m.RelayData? ==> m.from !in ks
    ensures WeightOfAll(env, ks, m) == 0
  {
    if ks != [] { OthersWeighNothing(env, ks[1..], m); }
  }

  lemma {:induction false} WeightSplits(env: Env, ks: seq<string>, m: ServerMessage)
    requires Distinct(ks) && Listed(env, ks, m)
    ensures WeightOfAll(env, ks, m) == Weight(env, None, m)
  {
    if !m.RelayData? || m.from !in ks {
      OthersWeighNothing(env, ks, m);
    } else if m.from == ks[0] {
      OthersWeighNothing(env, ks[1..], m);
    } else {
      WeightSplits(env, ks[1..], m);
    }
  }

  lemma {:induction false} BoxAdds(env: Env, ks: seq<string>, box: seq<ServerMessage>)
    ensures box == [] ==> BoxOfAll(env, ks, box) == 0
    ensures box != [] ==>
      BoxOfAll(env, ks, box) == BoxOfAll(env, ks, box[..|box| - 1]) + WeightOfAll(env, ks, box[|box| - 1])
  {
    if ks != [] { BoxAdds(env, ks[1..], box); }
  }

  lemma {:induction false} BoxSplits(env: Env, ks: seq<string>, box: seq<ServerMessage>)
    requires Distinct(ks) && Covers(env, ks, box)
    ensures BoxOfAll(env, ks, box) == BoxBytes(env, None, box)
    decreases |box|
  {
    BoxAdds(env, ks, box);
    if box != [] {
      BoxSplits(env, ks, box[..|box| - 1]);
      WeightSplits(env, ks, box[|box| - 1]);
    }
  }

  lemma {:induction false} BoxesAdd(env: Env, ks: seq<string>, boxes: Boxes)
    ensures boxes == [] ==> RelayedOfAll(env, ks, boxes) == 0
    ensures boxes != [] ==>
      RelayedOfAll(env, ks, boxes) ==
        RelayedOfAll(env, ks, boxes[..|boxes| - 1]) + BoxOfAll(env, ks, boxes[|boxes| - 1])
  {
    if ks != [] { BoxesAdd(env, ks[1..], boxes); }
  }

  lemma {:induction false} RelayedSplits(env: Env, ks: seq<string>, boxes: Boxes)
    requires Distinct(ks) && forall c :: 0 <= c < |boxes| ==> Covers(env, ks, boxes[c])
    ensures RelayedOfAll(env, ks, boxes) == Relayed(env, None, boxes)
    decreases |boxes|
  {
    BoxesAdd(env, ks, boxes);
    if boxes != [] {
      RelayedSplits(env, ks, boxes[..|boxes| - 1]);
      BoxSplits(env, ks, boxes[|boxes| - 1]);
    }
  }

  function SpentOfAll(env: Env, ss: seq<State>, es: seq<Event>, n: nat, ks: seq<string>): nat
    requires |ss| == |es| + 1 && n < |ss|
  {
    if ks == [] then 0
    else Spent(Pages(env, ss, ks[0]), Tries(env, ss, es, ks[0]), n) + SpentOfAll(env, ss, es, n, ks[1..])
  }

  function LostOfAll(env: Env, ss: seq<State>, es: seq<Event>, n: nat, ks: seq<string>): nat
    requires |ss| == |es| + 1 && n < |ss|
  {
    if ks == [] then 0
    else Lost(Pages(env, ss, ks[0]), Tries(env, ss, es, ks[0]), n) + LostOfAll(env, ss, es, n, ks[1..])
  }

  lemma {:induction false} SpentSplits(env: Env, ss: seq<State>, es: seq<Event>, n: nat, ks: seq<string>)
    requires IsRun(env, ss, es) && StartsEmpty(ss[0]) && n < |ss|
    ensures SpentOfAll(env, ss, es, n, ks) == RelayedOfAll(env, ks, ss[n].net.boxes) + LostOfAll(env, ss, es, n, ks)
    decreases |ks|
  {
    if ks != [] {
      SenderConservation(env, ss, es, n, ks[0]);
      SpentSplits(env, ss, es, n, ks[1..]);
    }
  }

  lemma {:induction false} WeightWithin(env: Env, k: Option<string>, box: seq<ServerMessage>, j: nat)
    requires j < |box|
    ensures Weight(env, k, box[j]) <= BoxBytes(env, k, box)
    decreases |box|
  {
    if j < |box| - 1 { WeightWithin(env, k, box[..|box| - 1], j); }
  }

  lemma {:induction false} BoxWithin(env: Env, k: Option<string>, boxes: Boxes, c: nat)
    requires c < |boxes|
    ensures BoxBytes(env, k, boxes[c]) <= Relayed(env, k, boxes)
    decreases |boxes|
  {
    if c < |boxes| - 1 { BoxWithin(env, k, boxes[..|boxes| - 1], c); }
  }

  /** In every run nothing was relayed for a sender without a quota. */
  lemma NoQuotaNoBytes(env: Env, ss: seq<State>, es: seq<Event>, n: nat, k: string)
    requires IsRun(env, ss, es) && StartsEmpty(ss[0]) && n < |ss| && k !in ss[n].quotas
    ensures Relayed(env, Some(k), ss[n].net.boxes) == 0
  {
    var ps, ts := Pages(env, ss, k), Tries(env, ss, es, k);
    RunIsAccount(env, ss, es, k);
    SenderConservation(env, ss, es, n, k);
    NoQuotaNothingSpent(ps, ts, n);
  }

  lemma NoQuotaNothingSpent(ps: seq<Page>, ts: seq<Option<Try>>, n: nat)
    requires IsAccount(ps, ts) && n <= |ts| && ps[n].quota.None?
    ensures Spent(ps, ts, n) == 0
  {
    QuotaReplays(ps, ts, n);
    SpentIsCharged(ps, ts, 0, n);
  }

  lemma QuotasCover(env: Env, ss: seq<State>, es: seq<Event>, n: nat, ks: seq<string>, c: nat)
    requires IsRun(env, ss, es) && StartsEmpty(ss[0]) && n < |ss| && c < |ss[n].net.boxes|
    requires forall k :: k in ss[n].quotas ==> k in ks
    ensures Covers(env, ks, ss[n].net.boxes[c])
  {
    var boxes := ss[n].net.boxes;
    forall j | 0 <= j < |boxes[c]| ensures Listed(env, ks, boxes[c][j]) {
      var m := boxes[c][j];
      if m.RelayData? && m.from !in ks {
        NoQuotaNoBytes(env, ss, es, n, m.from);
        BoxWithin(env, Some(m.from), boxes, c);
        WeightWithin(env, Some(m.from), boxes[c], j);
      }
    }
  }

  /** In every run the total charged to all quotas is the counter of relayed bytes plus the bytes of frames that were
      charged and then could not be delivered. */
  lemma TotalConservation(env: Env, ss: seq<State>, es: seq<Event>, n: nat, ks: seq<string>)
    requires IsRun(env, ss, es) && StartsEmpty(ss[0]) && n < |ss|
    requires Distinct(ks) && forall k :: k in ss[n].quotas ==> k in ks
    ensures SpentOfAll(env, ss, es, n, ks) == ss[n].relayBytes + LostOfAll(env, ss, es, n, ks)
  {
    SpentSplits(env, ss, es, n, ks);
    forall c | 0 <= c < |ss[n].net.boxes| ensures Covers(env, ks, ss[n].net.boxes[c]) {
      QuotasCover(env, ss, es, n, ks, c);
    }
    RelayedSplits(env, ks, ss[n].net.boxes);
    CounterIsRelayed(env, ss, es, n);
  }
}
