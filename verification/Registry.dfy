/** The in-memory registry of connected peers and its handle index. */
module Registry {
  import opened Common
  import opened Protocol
  import opened Outbox

  datatype Peer = Peer(pubkey: string, handle: Option<string>, addresses: PeerAddresses, reflected: string, tx: ConnId)

  datatype Reg = Reg(peers: map<string, Peer>, handleIndex: map<string, string>)

  function Insert(r: Reg, p: Peer): Reg {
    Reg(r.peers[p.pubkey := p], if p.handle.Some? then r.handleIndex[p.handle.value := p.pubkey] else r.handleIndex)
  }

  /** The index entry goes only if it still points at the removed peer. */
  function Remove(r: Reg, pubkey: string): Reg {
    if pubkey !in r.peers then r
    else
      var p := r.peers[pubkey];
      Reg(r.peers - {pubkey},
          if p.handle.Some? && p.handle.value in r.handleIndex && r.handleIndex[p.handle.value] == p.pubkey
          then r.handleIndex - {p.handle.value} else r.handleIndex)
  }

  class PeerRegistry {
    var byPubkey: map<string, Peer>
    var handleToPubkey: map<string, string>

    function View(): Reg
      reads this
    {
      Reg(byPubkey, handleToPubkey)
    }

    constructor ()
      ensures View() == Reg(map[], map[])
    {
      byPubkey, handleToPubkey := map[], map[];
    }

    method InsertPeer(peer: Peer)
      modifies this
      ensures View() == Insert(old(View()), peer)
    {
      if peer.handle.Some? { handleToPubkey := handleToPubkey[peer.handle.value := peer.pubkey]; }
      byPubkey := byPubkey[peer.pubkey := peer];
    }

    method RemovePeer(pubkey: string) returns (removed: Option<Peer>)
      modifies this
      ensures View() == Remove(old(View()), pubkey)
      ensures removed == if pubkey in old(byPubkey) then Some(old(byPubkey)[pubkey]) else None
    {
      if pubkey !in byPubkey { return None; }
      var peer := byPubkey[pubkey];
      byPubkey := byPubkey - {pubkey};
      if peer.handle.Some? && peer.handle.value in handleToPubkey {
        if handleToPubkey[peer.handle.value] == peer.pubkey {
          handleToPubkey := handleToPubkey - {peer.handle.value};
        }
      }
      return Some(peer);
    }

    function Get(pubkey: string): Option<Peer>
      reads this
    {
      if pubkey in byPubkey then Some(byPubkey[pubkey]) else None
    }

    function OnlineSet(pubkeys: seq<string>): seq<(string, bool)>
      reads this
    {
      seq(|pubkeys|, i reads this requires 0 <= i < |pubkeys| => (pubkeys[i], pubkeys[i] in byPubkey))
    }

    function ResolveHandle(handle: string): Option<string>
      reads this
    {
      if handle in handleToPubkey then Some(handleToPubkey[handle]) else None
    }
  }
}
