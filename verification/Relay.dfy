/** The fallback relay: two-party sessions, consent, and metered forwarding. */
module Relay {
  import opened Common
  import opened Protocol
  import opened Outbox
  import opened Registry
  import Q = Quota

  datatype SessionState = Pending | Active

  datatype Session = Session(initiator: string, responder: string, state: SessionState) {
    predicate Names(p: string) {
      initiator == p || responder == p
    }
  }

  type Sessions = map<SessionId, Session>
  type Quotas = map<string, Q.State>

  /** The clock readings one forwarded frame can take: two if it makes the sender's quota, then one to charge it. */
  datatype Readings = Readings(made: real, begun: real, now: real)

  // ---------------------------------------------------------------- what the calls do

  /** The session is recorded before its offer is sent, and stays when the offer cannot be delivered. */
  function Request(ss: Sessions, peers: map<string, Peer>, net: Net, id: SessionId, a: string, b: string)
    : (Sessions, Net, Option<BrokerError>)
  {
    if b !in peers then (ss, net, Some(PeerOffline))
    else
      var ss' := ss[id := Session(a, b, Pending)];
      var tx := peers[b].tx;
      if net.Open(tx) then (ss', net.Send(tx, RelayOffer(id, a)), None) else (ss', net, Some(PeerOffline))
  }

  /** A session once promoted stays promoted even when a party cannot be told. */
  function Accept(ss: Sessions, peers: map<string, Peer>, net: Net, p: string, id: SessionId)
    : (Sessions, Net, Option<BrokerError>)
  {
    if id !in ss then (ss, net, Some(RelaySessionNotFound))
    else if ss[id].responder != p || ss[id].state != Pending then (ss, net, Some(RelayNotConsented))
    else
      var a := ss[id].initiator;
      var ss' := ss[id := ss[id].(state := Active)];
      if a !in peers || p !in peers then (ss', net, Some(PeerOffline))
      else if !net.Open(peers[a].tx) then (ss', net, Some(PeerOffline))
      else
        var net' := net.Send(peers[a].tx, RelaySessionEstablished(id, p, None));
        if !net'.Open(peers[p].tx) then (ss', net', Some(PeerOffline))
        else (ss', net'.Send(peers[p].tx, RelaySessionEstablished(id, a, None)), None)
  }

  /** The other party of an active session the sender belongs to. */
  function Destination(ss: Sessions, sender: string, id: SessionId): Result<string> {
    if id !in ss then Err(RelaySessionNotFound)
    else if ss[id].state != Active then Err(RelayNotConsented)
    else if ss[id].initiator == sender then Ok(ss[id].responder)
    else if ss[id].responder == sender then Ok(ss[id].initiator)
    else Err(RelayNotConsented)
  }

  /** The frame's size, once it decodes and fits. */
  function FrameSize(decoded: Option<nat>): Result<nat> {
    if decoded.None? then Err(Malformed)
    else if decoded.value > RELAY_MAX_FRAME then Err(PayloadTooLarge(decoded.value, RELAY_MAX_FRAME))
    else Ok(decoded.value)
  }

  function QuotaOf(qs: Quotas, p: string, r: Readings): Q.State {
    if p in qs then qs[p] else Q.Fresh(r.made, r.begun)
  }

  function Charge(qs: Quotas, p: string, r: Readings, bytes: nat): (Quotas, Q.Outcome) {
    var (q, o) := Q.Consume(QuotaOf(qs, p, r), r.now, bytes);
    (qs[p := q], o)
  }

  function OutcomeError(o: Q.Outcome): BrokerError {
    if o.RateLimited? then RateLimited else RelayQuotaExceeded
  }

  /** Session, encoding and size are checked before the quota is touched; the quota is charged before delivery. */
  function Forward(ss: Sessions, qs: Quotas, peers: map<string, Peer>, net: Net, sender: string, id: SessionId,
                   data: string, decoded: Option<nat>, r: Readings): (Quotas, Net, Result<nat>)
  {
    match Destination(ss, sender, id)
    case Err(e) => (qs, net, Err(e))
    case Ok(other) =>
      match FrameSize(decoded)
      case Err(e) => (qs, net, Err(e))
      case Ok(size) =>
        var (qs', o) := Charge(qs, sender, r, size);
        if !o.Accepted? then (qs', net, Err(OutcomeError(o)))
        else if other !in peers || !net.Open(peers[other].tx) then (qs', net, Err(PeerOffline))
        else (qs', net.Send(peers[other].tx, RelayData(id, sender, data)), Ok(size))
  }

  function Dropped(ss: Sessions, p: string): Sessions {
    map id | id in ss && !ss[id].Names(p) :: ss[id]
  }

  // ---------------------------------------------------------------- the manager

  class RelayManager {
    var sessions: Sessions
    var quotas: map<string, Q.PeerQuota>

    /** Every sender has its own quota object. */
    ghost predicate Valid()
      reads this
    {
      forall k, k' :: k in quotas && k' in quotas && quotas[k] == quotas[k'] ==> k == k'
    }

    ghost function Levels(): Quotas
      reads this, quotas.Values
    {
      map k | k in quotas :: quotas[k].Value()
    }

    constructor ()
      ensures Valid() && sessions == map[] && quotas == map[]
    {
      sessions, quotas := map[], map[];
    }

    method RequestSession(registry: PeerRegistry, out: Outboxes, id: SessionId, initiator: string, responder: string)
      returns (err: Option<BrokerError>)
      modifies this`sessions, out
      ensures (sessions, out.net, err) ==
        Request(old(sessions), registry.byPubkey, old(out.net), id, initiator, responder)
    {
      var recipient := registry.Get(responder);
      if recipient.None? { return Some(PeerOffline); }
      sessions := sessions[id := Session(initiator, responder, Pending)];
      var ok := out.TrySend(recipient.value.tx, RelayOffer(id, initiator));
      return if ok then None else Some(PeerOffline);
    }

    method AcceptSession(registry: PeerRegistry, out: Outboxes, responder: string, id: SessionId)
      returns (err: Option<BrokerError>)
      modifies this`sessions, out
      ensures (sessions, out.net, err) == Accept(old(sessions), registry.byPubkey, old(out.net), responder, id)
    {
      if id !in sessions { return Some(RelaySessionNotFound); }
      var entry := sessions[id];
      if entry.responder != responder { return Some(RelayNotConsented); }
      if entry.state != Pending { return Some(RelayNotConsented); }
      sessions := sessions[id := entry.(state := Active)];
      var first, second := registry.Get(entry.initiator), registry.Get(responder);
      if first.None? || second.None? { return Some(PeerOffline); }
      var ok := out.TrySend(first.value.tx, RelaySessionEstablished(id, responder, None));
      if !ok { return Some(PeerOffline); }
      ok := out.TrySend(second.value.tx, RelaySessionEstablished(id, entry.initiator, None));
      return if ok then None else Some(PeerOffline);
    }

    method ConsumeQuota(pubkey: string, r: Readings, bytes: nat) returns (outcome: Q.Outcome)
      requires Valid()
      modifies this`quotas, quotas.Values
      ensures Valid() && fresh(quotas.Values - old(quotas.Values))
      ensures (Levels(), outcome) == Charge(old(Levels()), pubkey, r, bytes)
    {
      if pubkey !in quotas {
        var made := new Q.PeerQuota(r.made, r.begun);
        quotas := quotas[pubkey := made];
      }
      var quota := quotas[pubkey];
      outcome := quota.TryConsume(r.now, bytes);
      assert quotas.Values <= old(quotas.Values) + {quota};
      assert Levels() == Charge(old(Levels()), pubkey, r, bytes).0;
    }

    method ForwardFrame(registry: PeerRegistry, out: Outboxes, sender: string, id: SessionId, data: string,
                        decoded: Option<nat>, r: Readings) returns (result: Result<nat>)
      requires Valid()
      modifies this`quotas, quotas.Values, out
      ensures Valid() && fresh(quotas.Values - old(quotas.Values))
      ensures (Levels(), out.net, result) ==
        Forward(sessions, old(Levels()), registry.byPubkey, old(out.net), sender, id, data, decoded, r)
    {
      if id !in sessions { return Err(RelaySessionNotFound); }
      var entry := sessions[id];
      if entry.state != Active { return Err(RelayNotConsented); }
      var other;
      if entry.initiator == sender {
        other := entry.responder;
      } else if entry.responder == sender {
        other := entry.initiator;
      } else {
        return Err(RelayNotConsented);
      }
      if decoded.None? { return Err(Malformed); }
      if decoded.value > RELAY_MAX_FRAME { return Err(PayloadTooLarge(decoded.value, RELAY_MAX_FRAME)); }
      var outcome := ConsumeQuota(sender, r, decoded.value);
      if !outcome.Accepted? { return Err(OutcomeError(outcome)); }
      var recipient := registry.Get(other);
      if recipient.None? { return Err(PeerOffline); }
      var ok := out.TrySend(recipient.value.tx, RelayData(id, sender, data));
      return if ok then Ok(decoded.value) else Err(PeerOffline);
    }

    method DropSessionsFor(pubkey: string)
      modifies this`sessions
      ensures sessions == Dropped(old(sessions), pubkey)
    {
      var stale := set id | id in sessions && sessions[id].Names(pubkey);
      while stale != {}
        invariant forall id :: id in stale ==> id in sessions && sessions[id].Names(pubkey)
        invariant forall id :: id in sessions ==> id in old(sessions) && sessions[id] == old(sessions)[id]
        invariant forall id :: id in old(sessions) && !old(sessions)[id].Names(pubkey) ==> id in sessions
        invariant forall id :: id in sessions && sessions[id].Names(pubkey) ==> id in stale
        decreases stale
      {
        var id :| id in stale;
        stale := stale - {id};
        sessions := sessions - {id};
      }
    }
  }
}
