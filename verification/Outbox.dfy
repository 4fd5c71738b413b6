/** Outgoing messages. Each socket owns one channel, known by its connection id; what was sent on it is an
    append-only sequence. A channel whose writer task has ended is closed and takes no more messages. */
module Outbox {
  import opened Common
  import opened Protocol

  type ConnId = nat
  type SessionId = nat

  datatype ServerMessage =
    | Registered(peerId: string, reflected: string, handleClaimed: bool, requestId: Option<string>)
    | PeerInfo(peerId: string, handle: Option<string>, addresses: PeerAddresses, reflectedAddress: Option<string>,
               online: bool, kind: Option<IdentityKind>, requestId: Option<string>)
    | IncomingSignal(from: string, payload: string, timestamp: int)
    | PresenceUpdate(peerId: string, online: bool)
    | SubscribePresenceAck(peers: seq<string>, requestId: Option<string>)
    | RelayOffer(sessionId: SessionId, from: string)
    | RelaySessionEstablished(sessionId: SessionId, peer: string, requestId: Option<string>)
    | RelayData(sessionId: SessionId, from: string, data: string)
    | TeamReply(requestId: Option<string>)
    | Pong(timestamp: int)
    | Error(error: BrokerError, requestId: Option<string>)

  type Boxes = seq<seq<ServerMessage>>

  /** The channels and which of them are closed. */
  datatype Net = Net(boxes: Boxes, closed: set<ConnId>) {
    predicate Open(c: ConnId) {
      c < |boxes| && c !in closed
    }

    /** The same channels, open and closed alike. */
    predicate SameShape(n: Net) {
      n.closed == closed && |n.boxes| == |boxes|
    }

    function Send(c: ConnId, m: ServerMessage): (n: Net)
      ensures SameShape(n)
    {
      if Open(c) then this.(boxes := boxes[c := boxes[c] + [m]]) else this
    }

    function SendAll(c: ConnId, ms: seq<ServerMessage>): (n: Net)
      ensures SameShape(n)
    {
      if Open(c) then this.(boxes := boxes[c := boxes[c] + ms]) else this
    }

    /** One copy of `m` to every open channel of `cs`. */
    function Fan(cs: set<ConnId>, m: ServerMessage): (n: Net)
      ensures SameShape(n)
    {
      this.(boxes := seq(|boxes|, c requires 0 <= c < |boxes| =>
        if c in cs && c !in closed then boxes[c] + [m] else boxes[c]))
    }
  }

  class Outboxes {
    var net: Net

    constructor ()
      ensures net == Net([], {})
    {
      net := Net([], {});
    }

    method OpenChannel() returns (c: ConnId)
      modifies this
      ensures c == |old(net).boxes| && net == old(net).(boxes := old(net).boxes + [[]])
    {
      c := |net.boxes|;
      net := net.(boxes := net.boxes + [[]]);
    }

    method CloseChannel(c: ConnId)
      modifies this
      ensures net == old(net).(closed := old(net).closed + {c})
    {
      net := net.(closed := net.closed + {c});
    }

    method TrySend(c: ConnId, m: ServerMessage) returns (ok: bool)
      modifies this
      ensures net == old(net).Send(c, m) && ok == old(net).Open(c)
    {
      ok := net.Open(c);
      if ok { net := net.(boxes := net.boxes[c := net.boxes[c] + [m]]); }
    }
  }

  /** A message goes to the end of its channel if that is open, and nowhere else. */
  lemma SendMeans(n: Net, d: ConnId, m: ServerMessage)
    ensures n.Send(d, m).closed == n.closed && |n.Send(d, m).boxes| == |n.boxes|
    ensures forall c :: 0 <= c < |n.boxes| ==>
      n.Send(d, m).boxes[c] == if c == d && c !in n.closed then n.boxes[c] + [m] else n.boxes[c]
  {
  }

  lemma SendAllMeans(n: Net, d: ConnId, ms: seq<ServerMessage>)
    ensures n.SendAll(d, ms).closed == n.closed && |n.SendAll(d, ms).boxes| == |n.boxes|
    ensures forall c :: 0 <= c < |n.boxes| ==>
      n.SendAll(d, ms).boxes[c] == if c == d && c !in n.closed then n.boxes[c] + ms else n.boxes[c]
  {
  }

  lemma FanGrows(n: Net, cs: set<ConnId>, c: ConnId, m: ServerMessage)
    requires c !in cs
    ensures n.Fan(cs, m).Send(c, m) == n.Fan(cs + {c}, m)
  {
    assert n.Fan(cs, m).Send(c, m).boxes == n.Fan(cs + {c}, m).boxes;
  }
}
