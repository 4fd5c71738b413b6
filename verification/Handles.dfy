/** Handle claiming: the grammar check and the two tables a claim touches. */
module Handles {
  import opened Common
  import Utf8

  // ---------------------------------------------------------------- the grammar

  predicate HandleChar(c: char) {
    'a' <= c <= 'z' || '0' <= c <= '9' || c == '.' || c == '-' || c == '_'
  }

  /** 2 to 64 of the allowed characters and at most one '@', anywhere. */
  ghost predicate ValidHandle(h: string) {
    && 2 <= |h| <= 64
    && (forall i :: 0 <= i < |h| ==> HandleChar(h[i]) || h[i] == '@')
    && (forall i, j :: 0 <= i < j < |h| ==> !(h[i] == '@' && h[j] == '@'))
  }

  /** The length check is on UTF-8 bytes, before the characters are looked at. */
  method ValidateHandle(handle: string) returns (ok: bool)
    ensures ok <==> ValidHandle(handle)
  {
    var len := |Utf8.Encode(handle)|;
    if !(2 <= len <= 64) {
      if ValidHandle(handle) { AsciiLength(handle); }
      return false;
    }
    var atCount := 0;
    ghost var at := -1;
    for n := 0 to |handle|
      invariant forall i :: 0 <= i < n ==> HandleChar(handle[i]) || handle[i] == '@'
      invariant atCount == 0 ==> forall i :: 0 <= i < n ==> handle[i] != '@'
      invariant atCount == 1 ==>
        0 <= at < n && handle[at] == '@' && forall i :: 0 <= i < n && i != at ==> handle[i] != '@'
      invariant 0 <= atCount <= 1
    {
      var ch := handle[n];
      if HandleChar(ch) {
      } else if ch == '@' {
        atCount := atCount + 1;
        if atCount > 1 { return false; }
        at := n;
      } else {
        return false;
      }
    }
    AsciiLength(handle);
    return true;
  }

  lemma {:induction false} AsciiLength(h: string)
    requires forall i :: 0 <= i < |h| ==> HandleChar(h[i]) || h[i] == '@'
    ensures |Utf8.Encode(h)| == |h|
  {
    if h != "" { AsciiLength(h[1..]); }
  }

  /** The handles the source's own tests accept and reject. */
  lemma HandleExamples()
    ensures ValidHandle("alice") && ValidHandle("ali_ce") && ValidHandle("alice.bob") && ValidHandle("alice-bob")
    ensures ValidHandle("alice@org") && ValidHandle("a1") && forall h: string :: |h| == 65 ==> !ValidHandle(h)
    ensures !ValidHandle("a") && !ValidHandle("Alice") && !ValidHandle("al ice") && !ValidHandle("al!ce")
    ensures !ValidHandle("a@b@c")
  {
    assert "Alice"[0] == 'A' && "al ice"[2] == ' ' && "al!ce"[2] == '!' && "a@b@c"[1] == '@' && "a@b@c"[3] == '@';
  }

  // ---------------------------------------------------------------- the tables

  datatype PeerRow = PeerRow(handle: Option<string>, kind: string)

  /** `peers` is keyed by pubkey, `handles` by handle. */
  datatype Tables = Tables(peers: map<string, PeerRow>, handles: map<string, string>)

  /** The two tables are inverse to each other and hold only grammatical handles. */
  ghost predicate Consistent(t: Tables) {
    && (forall h :: h in t.handles ==>
         ValidHandle(h) && t.handles[h] in t.peers && t.peers[t.handles[h]].handle == Some(h))
    && (forall p :: p in t.peers && t.peers[p].handle.Some? ==>
         t.peers[p].handle.value in t.handles && t.handles[t.peers[p].handle.value] == p)
  }

  /** The UNIQUE column `peers.handle`. */
  ghost predicate UniqueColumn(t: Tables) {
    forall p, p' :: p in t.peers && p' in t.peers && p != p' && t.peers[p].handle.Some? ==>
      t.peers[p].handle != t.peers[p'].handle
  }

  lemma ConsistentIsUnique(t: Tables)
    requires Consistent(t)
    ensures UniqueColumn(t)
  {
  }

  /** Insert a row, or leave the existing one and its handle alone. */
  function UpsertPeer(t: Tables, pubkey: string): Tables {
    if pubkey in t.peers then t else t.(peers := t.peers[pubkey := PeerRow(None, "user")])
  }

  function UpsertPeerWithKind(t: Tables, pubkey: string, kind: string): Tables {
    if pubkey in t.peers then t.(peers := t.peers[pubkey := t.peers[pubkey].(kind := kind)])
    else t.(peers := t.peers[pubkey := PeerRow(None, kind)])
  }

  predicate OwnsHandle(t: Tables, pubkey: string) {
    exists h :: h in t.handles && t.handles[h] == pubkey
  }

  /** One serial run of the claim transaction. A failed constraint aborts it. */
  function ClaimHandle(t: Tables, pubkey: string, handle: string): (Tables, Option<BrokerError>) {
    if OwnsHandle(t, pubkey) then
      if handle in t.handles && t.handles[handle] == pubkey then (t, None) else (t, Some(HandleAlreadyOwned))
    else if handle in t.handles then (t, Some(HandleTaken))
    else if pubkey !in t.peers then (t, Some(Database))
    else if exists p :: p in t.peers && p != pubkey && t.peers[p].handle == Some(handle) then (t, Some(Database))
    else
      (Tables(t.peers[pubkey := t.peers[pubkey].(handle := Some(handle))], t.handles[handle := pubkey]), None)
  }

  function ClaimChecked(t: Tables, pubkey: string, handle: string, valid: bool): (Tables, Option<BrokerError>) {
    if !valid then (t, Some(Malformed)) else ClaimHandle(UpsertPeer(t, pubkey), pubkey, handle)
  }

  class Database {
    var tables: Tables

    constructor ()
      ensures tables == Tables(map[], map[])
    {
      tables := Tables(map[], map[]);
    }

    method Upsert(pubkey: string)
      modifies this
      ensures tables == UpsertPeer(old(tables), pubkey)
    {
      if pubkey !in tables.peers { tables := tables.(peers := tables.peers[pubkey := PeerRow(None, "user")]); }
    }

    method UpsertWithKind(pubkey: string, kind: string)
      modifies this
      ensures tables == UpsertPeerWithKind(old(tables), pubkey, kind)
    {
      var row := if pubkey in tables.peers then tables.peers[pubkey].(kind := kind) else PeerRow(None, kind);
      tables := tables.(peers := tables.peers[pubkey := row]);
    }

    /** The statements of the claim, in order; `existing` is whichever row the first SELECT returns. */
    method ClaimRow(pubkey: string, handle: string) returns (err: Option<BrokerError>)
      requires Consistent(tables)
      modifies this
      ensures (tables, err) == ClaimHandle(old(tables), pubkey, handle)
    {
      if existing :| existing in tables.handles && tables.handles[existing] == pubkey {
        assert OwnsHandle(tables, pubkey);
        if existing == handle { return None; }
        return Some(HandleAlreadyOwned);
      }
      if handle in tables.handles { return Some(HandleTaken); }
      if pubkey !in tables.peers { return Some(BrokerError.Database); }
      var handles := tables.handles[handle := pubkey];
      var peers := tables.peers[pubkey := tables.peers[pubkey].(handle := Some(handle))];
      tables := Tables(peers, handles);
      return None;
    }

    method Claim(pubkey: string, handle: string) returns (err: Option<BrokerError>)
      requires Consistent(tables)
      modifies this
      ensures (tables, err) == ClaimChecked(old(tables), pubkey, handle, ValidHandle(handle))
      ensures Consistent(tables)
    {
      var ok := ValidateHandle(handle);
      if !ok { return Some(Malformed); }
      UpsertKeeps(tables, pubkey, "user");
      ClaimKeeps(UpsertPeer(tables, pubkey), pubkey, handle);
      Upsert(pubkey);
      err := ClaimRow(pubkey, handle);
    }
  }

  // ---------------------------------------------------------------- what every claim keeps

  lemma UpsertKeeps(t: Tables, pubkey: string, kind: string)
    requires Consistent(t)
    ensures Consistent(UpsertPeer(t, pubkey)) && Consistent(UpsertPeerWithKind(t, pubkey, kind))
    ensures UpsertPeer(t, pubkey).handles == UpsertPeerWithKind(t, pubkey, kind).handles == t.handles
  {
  }

  /** A claim succeeds exactly when the caller then owns the handle; it never changes another owner, never
      gives a pubkey a second handle and never trips the UNIQUE column. */
  lemma ClaimKeeps(t: Tables, pubkey: string, handle: string)
    requires Consistent(t) && ValidHandle(handle)
    ensures
      var (t', err) := ClaimHandle(t, pubkey, handle);
      && Consistent(t') && UniqueColumn(t')
      && (err.None? <==> handle in t'.handles && t'.handles[handle] == pubkey)
      && (forall h :: h in t.handles ==> h in t'.handles && t'.handles[h] == t.handles[h])
      && (forall h, h' :: h in t'.handles && h' in t'.handles && t'.handles[h] == t'.handles[h'] ==> h == h')
      && (err == Some(Database) ==> pubkey !in t.peers)
  {
    var (t', err) := ClaimHandle(t, pubkey, handle);
    ConsistentIsUnique(t');
  }

  /** Who gets what: a claim is granted exactly to a key with a row that owns the handle already, or owns none while the
      handle is free; a key that owns another handle is told so before it is looked whether the handle is taken. */
  lemma ClaimExactly(t: Tables, pubkey: string, handle: string)
    requires Consistent(t)
    ensures
      var (t', err) := ClaimHandle(t, pubkey, handle);
      var mine, free := handle in t.handles && t.handles[handle] == pubkey, handle !in t.handles;
      var other := exists h :: h in t.handles && h != handle && t.handles[h] == pubkey;
      && (err == None <==> mine || (free && !other && pubkey in t.peers))
      && (err == Some(HandleAlreadyOwned) <==> other)
      && (err == Some(HandleTaken) <==> !mine && !other && !free)
      && (err == Some(Database) <==> free && !other && pubkey !in t.peers)
      && (err == None && free ==> t' == Tables(t.peers[pubkey := PeerRow(Some(handle), t.peers[pubkey].kind)],
                                               t.handles[handle := pubkey]))
      && (err != None || !free ==> t' == t)
  {
    if OwnsHandle(t, pubkey) {
      var h :| h in t.handles && t.handles[h] == pubkey;
      OwnerHasOne(t, pubkey, h, handle);
    }
  }

  lemma OwnerHasOne(t: Tables, pubkey: string, h: string, handle: string)
    requires Consistent(t) && h in t.handles && t.handles[h] == pubkey
    ensures handle in t.handles && t.handles[handle] == pubkey ==> h == handle
  {
  }

  /** A row made or refreshed: the kind is what was declared, a handle stays, and no other row is touched. */
  lemma UpsertMeans(t: Tables, pubkey: string, kind: string)
    ensures
      var u, v := UpsertPeer(t, pubkey), UpsertPeerWithKind(t, pubkey, kind);
      && u.handles == v.handles == t.handles && u.peers.Keys == v.peers.Keys == t.peers.Keys + {pubkey}
      && (forall k :: k in t.peers && k != pubkey ==> u.peers[k] == v.peers[k] == t.peers[k])
      && u.peers[pubkey] == (if pubkey in t.peers then t.peers[pubkey] else PeerRow(None, "user"))
      && v.peers[pubkey] == PeerRow(if pubkey in t.peers then t.peers[pubkey].handle else None, kind)
  {
  }

  datatype ClaimRequest = ClaimRequest(pubkey: string, handle: string)

  /** The tables after a sequence of serial claims. */
  ghost function AfterClaims(t: Tables, reqs: seq<ClaimRequest>): Tables
    decreases |reqs|
  {
    if reqs == [] then t
    else AfterClaims(ClaimChecked(t, reqs[0].pubkey, reqs[0].handle, ValidHandle(reqs[0].handle)).0, reqs[1..])
  }

  /** Over any sequence of claims: the tables stay inverse, and a handle once owned keeps its owner. */
  lemma {:induction false} ClaimsKeepOwners(t: Tables, reqs: seq<ClaimRequest>)
    requires Consistent(t)
    ensures Consistent(AfterClaims(t, reqs)) && UniqueColumn(AfterClaims(t, reqs))
    ensures forall h :: h in t.handles ==>
      h in AfterClaims(t, reqs).handles && AfterClaims(t, reqs).handles[h] == t.handles[h]
    decreases |reqs|
  {
    if reqs == [] {
      ConsistentIsUnique(t);
    } else {
      var r := reqs[0];
      UpsertKeeps(t, r.pubkey, "user");
      if ValidHandle(r.handle) { ClaimKeeps(UpsertPeer(t, r.pubkey), r.pubkey, r.handle); }
      ClaimsKeepOwners(ClaimChecked(t, r.pubkey, r.handle, ValidHandle(r.handle)).0, reqs[1..]);
    }
  }
}
