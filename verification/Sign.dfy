/** The TypeScript client's signing code: canonical JSON, the messages the SDK builds, hex. */
module Sign {
  import opened Common
  import opened JsonText
  import opened Tree
  import opened Naming
  import opened Protocol
  import Utf8

  // ---------------------------------------------------------------- canonical JSON

  /** The members of an object that are not `undefined`. */
  function Defined(src: map<string, Option<Json>>): map<string, Json> {
    map k | k in src && src[k].Some? :: src[k].value
  }

  /** `sortReplacer` on one object: `keys` is what `Object.keys(src).sort()` returns. */
  method SortReplacer(src: map<string, Option<Json>>, keys: seq<string>) returns (sorted: seq<Field>)
    requires forall i, j :: 0 <= i < j < |keys| ==> Less(keys[i], keys[j])
    requires forall k :: k in keys <==> k in src
    ensures sorted == Listing(Defined(src))
  {
    sorted := [];
    for n := 0 to |keys|
      invariant forall i :: 0 <= i < |sorted| ==> sorted[i].key in keys[..n]
      invariant Sorted(sorted)
      invariant MapOf(sorted) == DefinedAmong(src, keys[..n])
    {
      var k := keys[n];
      KeyIsNext(keys, n);
      DefinedStep(src, keys[..n], k);
      if src[k].Some? {
        var f := Field(k, src[k].value);
        assert forall i :: 0 <= i < |sorted| ==> Less(sorted[i].key, k);
        MapOfAppend(sorted, f);
        SortedAppend(sorted, f);
        sorted := sorted + [f];
      }
    }
    DefinedAll(src, keys);
    SortedUnique(sorted, Listing(Defined(src)));
  }

  lemma DefinedStep(src: map<string, Option<Json>>, keys: seq<string>, k: string)
    requires k in src && k !in keys
    ensures DefinedAmong(src, keys + [k]) ==
            if src[k].Some? then DefinedAmong(src, keys)[k := src[k].value] else DefinedAmong(src, keys)
  {
  }

  lemma DefinedAll(src: map<string, Option<Json>>, keys: seq<string>)
    requires forall k :: k in keys <==> k in src
    ensures DefinedAmong(src, keys[..|keys|]) == Defined(src)
  {
    assert keys[..|keys|] == keys;
  }

  lemma SortedAppend(fs: seq<Field>, f: Field)
    requires Sorted(fs) && forall i :: 0 <= i < |fs| ==> Less(fs[i].key, f.key)
    ensures Sorted(fs + [f])
  {
  }

  function DefinedAmong(src: map<string, Option<Json>>, keys: seq<string>): map<string, Json> {
    map k | k in keys && k in src && src[k].Some? :: src[k].value
  }

  lemma KeyIsNext(keys: seq<string>, n: nat)
    requires n < |keys| && forall i, j :: 0 <= i < j < |keys| ==> Less(keys[i], keys[j])
    ensures keys[..n + 1] == keys[..n] + [keys[n]]
    ensures forall k :: k in keys[..n] ==> k != keys[n] && Less(k, keys[n])
  {
    forall k | k in keys[..n]
      ensures k != keys[n] && Less(k, keys[n])
    {
      LessIrreflexive(k);
    }
  }

  lemma {:induction false} MapOfAppend(fs: seq<Field>, f: Field)
    requires forall i :: 0 <= i < |fs| ==> fs[i].key != f.key
    ensures MapOf(fs + [f]) == MapOf(fs)[f.key := f.value]
  {
    if fs == [] {
      assert (fs + [f])[1..] == [];
    } else {
      MapOfAppend(fs[1..], f);
      assert (fs + [f])[1..] == fs[1..] + [f];
    }
  }

  /** `JSON.stringify` calls the replacer on every value it reaches, so objects are sorted at every depth. */
  function Canonical(j: Json): Json
    decreases j, 1
  {
    match j
    case JArr(es) => JArr(CanonicalElements(es))
    case JObj(fs) => JObj(SortFields(fs))
    case _ => j
  }

  function CanonicalElements(es: seq<Json>): seq<Json>
    decreases es, 0
  {
    if es == [] then [] else [Canonical(es[0])] + CanonicalElements(es[1..])
  }

  function SortFields(fs: seq<Field>): (r: seq<Field>)
    ensures Sorted(r)
    decreases fs, 0
  {
    if fs == [] then [] else Put(SortFields(fs[1..]), fs[0].key, Canonical(fs[0].value))
  }

  function CanonicalJson(j: Json): string {
    Print(Canonical(j))
  }

  function CanonicalMap(m: map<string, Json>): map<string, Json> {
    map k | k in m :: Canonical(m[k])
  }

  lemma {:induction false} MapOfSortFields(fs: seq<Field>)
    ensures MapOf(SortFields(fs)) == CanonicalMap(MapOf(fs))
  {
    if fs != [] { MapOfSortFields(fs[1..]); }
  }

  /** Sorting is what the replacer does: the sorted listing of the object's members, each made canonical in turn. */
  lemma SortFieldsIsListing(fs: seq<Field>)
    ensures SortFields(fs) == Listing(CanonicalMap(MapOf(fs)))
  {
    MapOfSortFields(fs);
    SortedUnique(SortFields(fs), Listing(CanonicalMap(MapOf(fs))));
  }

  lemma {:induction false} CanonicalStrings(es: seq<Json>)
    requires forall i :: 0 <= i < |es| ==> es[i].JStr?
    ensures CanonicalElements(es) == es
  {
    if es != [] {
      CanonicalStrings(es[1..]);
      assert es == [es[0]] + es[1..];
    }
  }

  /** Scalars and lists of strings are already canonical. */
  predicate Flat(j: Json) {
    j.JNull? || j.JStr? || j.JInt? || (j.JArr? && forall i :: 0 <= i < |j.es| ==> j.es[i].JStr?)
  }

  lemma CanonicalFlat(j: Json)
    requires Flat(j)
    ensures Canonical(j) == j
  {
    if j.JArr? { CanonicalStrings(j.es); }
  }

  // ---------------------------------------------------------------- what the SDK builds

  /** The request methods of the client and their arguments. */
  datatype Call =
    | CallRegister(handle: Option<string>, addresses: PeerAddresses)
    | CallLookupPeer(target: string)
    | CallLookupHandle(target: string)
    | CallSignal(to: string, payload: string)
    | CallSubscribe(peers: seq<string>)
    | CallUnsubscribe(peers: seq<string>)
    | CallRequestRelay(peer: string)
    | CallAcceptRelay(sessionId: string)
    | CallRelayFrame(sessionId: string, data: string)
    | CallAnnounceTeam(optTeamId: Option<string>, teamName: string, adminPubkey: string, adminSignature: string)
    | CallLookupTeam(teamId: string)
    | CallPing

  /** The literal each method gives as `type`. */
  function TypeOf(call: Call): string {
    match call
    case CallRegister(_, _) => "register"
    case CallLookupPeer(_) => "lookup_peer"
    case CallLookupHandle(_) => "lookup_handle"
    case CallSignal(_, _) => "signal"
    case CallSubscribe(_) => "subscribe_presence"
    case CallUnsubscribe(_) => "unsubscribe_presence"
    case CallRequestRelay(_) => "request_relay"
    case CallAcceptRelay(_) => "accept_relay"
    case CallRelayFrame(_, _) => "relay"
    case CallAnnounceTeam(_, _, _, _) => "team_announce"
    case CallLookupTeam(_) => "team_lookup"
    case CallPing => "ping"
  }

  /** The calls that mint a request id; the others leave `request_id` out. */
  predicate Awaits(call: Call) {
    !(call.CallSignal? || call.CallUnsubscribe? || call.CallAcceptRelay? || call.CallRelayFrame? || call.CallPing?)
  }

  /** The members a method copies from its arguments; optional ones only when given. */
  function Arguments(call: Call, addr: Json): Object {
    match call
    case CallRegister(handle, _) => Optional(KHandle, handle)[KAddresses := addr]
    case CallLookupPeer(target) => map[KTargetPubkey := JStr(target)]
    case CallLookupHandle(target) => map[KTargetHandle := JStr(target)]
    case CallSignal(to, payload) => map[KTo := JStr(to), KPayload := JStr(payload)]
    case CallSubscribe(peers) => map[KPeers := Strings(peers)]
    case CallUnsubscribe(peers) => map[KPeers := Strings(peers)]
    case CallRequestRelay(peer) => map[KPeer := JStr(peer)]
    case CallAcceptRelay(sid) => map[KSessionId := JStr(sid)]
    case CallRelayFrame(sid, data) => map[KSessionId := JStr(sid), KData := JStr(data)]
    case CallAnnounceTeam(teamId, name, admin, adminSig) =>
      Optional(KTeamId, teamId)[KTeamName := JStr(name)][KAdminPubkey := JStr(admin)][KAdminSignature := JStr(adminSig)]
    case CallLookupTeam(teamId) => map[KTeamId := JStr(teamId)]
    case CallPing => map[]
  }

  /** The unsigned message object. `addr` is the caller's addresses object, `rid` the minted request id. */
  function Draft(call: Call, pubkey: string, now: I64, rid: string, addr: Json): Object {
    map[KType := JStr(TypeOf(call)), KPubkey := JStr(pubkey), KTimestamp := JInt(now)]
    + Arguments(call, addr)
    + if Awaits(call) then map[KRequestId := JStr(rid)] else map[]
  }

  /** The message the call means to send. */
  function Intended(call: Call, pubkey: string, now: I64, rid: string, sig: string): ClientMessage {
    match call
    case CallRegister(handle, a) => Register(pubkey, handle, a, None, now, sig, Some(rid))
    case CallLookupPeer(target) => LookupPeer(pubkey, target, now, sig, Some(rid))
    case CallLookupHandle(target) => LookupHandle(pubkey, target, now, sig, Some(rid))
    case CallSignal(to, payload) => Signal(pubkey, to, payload, now, sig, None)
    case CallSubscribe(peers) => SubscribePresence(pubkey, peers, now, sig, Some(rid))
    case CallUnsubscribe(peers) => UnsubscribePresence(pubkey, peers, now, sig, None)
    case CallRequestRelay(peer) => RequestRelay(pubkey, peer, now, sig, Some(rid))
    case CallAcceptRelay(sid) => AcceptRelay(pubkey, sid, now, sig, None)
    case CallRelayFrame(sid, data) => Relay(pubkey, sid, data, now, sig)
    case CallAnnounceTeam(teamId, name, admin, adminSig) =>
      TeamAnnounce(pubkey, teamId, name, admin, adminSig, now, sig, Some(rid))
    case CallLookupTeam(teamId) => TeamLookup(pubkey, teamId, now, sig, Some(rid))
    case CallPing => Ping(pubkey, now, sig)
  }

  lemma ArgumentsAreOwn(call: Call, pubkey: string, now: I64, rid: string, addr: Json, sig: string)
    ensures
      var m := Intended(call, pubkey, now, rid, sig);
      && Arguments(call, addr) == Own(m, addr)
      && TypeOf(call) == TagName(TagOf(m))
      && RequestIdOf(m) == if Awaits(call) then Some(rid) else None
  {
  }

  lemma DraftIsMembers(call: Call, pubkey: string, now: I64, rid: string, addr: Json, sig: string)
    ensures Draft(call, pubkey, now, rid, addr)[KSignature := JStr(sig)]
            == Members(Intended(call, pubkey, now, rid, sig), addr)
  {
    var m := Intended(call, pubkey, now, rid, sig);
    ArgumentsAreOwn(call, pubkey, now, rid, addr, sig);
    OwnIsNotShared(m, addr);
    Overlay(m, Own(m, addr));
  }

  lemma Overlay(m: ClientMessage, own: Object)
    requires own.Keys !! SHARED
    ensures
      (map[KType := JStr(TagName(TagOf(m))), KPubkey := JStr(m.pubkey), KTimestamp := JInt(m.timestamp)]
       + own + Optional(KRequestId, RequestIdOf(m)))[KSignature := JStr(m.signature)]
      == Common4(m) + own + Optional(KRequestId, RequestIdOf(m))
  {
  }

  // ---------------------------------------------------------------- both sides agree

  /** A JavaScript object as `JSON.stringify` walks it: its members in the order the keys were added. */
  function Arranged(order: seq<Key>, o: Object): seq<Field>
    requires forall k :: k in order ==> k in o
  {
    seq(|order|, i requires 0 <= i < |order| => Field(Name(order[i]), o[order[i]]))
  }

  ghost predicate Enumerates(order: seq<Key>, o: Object) {
    && (forall k :: k in order <==> k in o)
    && (forall i, j :: 0 <= i < j < |order| ==> order[i] != order[j])
  }

  /** The addresses argument as an object with its members in any order. */
  ghost predicate AddressArgument(call: Call, addr: Json) {
    call.CallRegister? ==>
      addr.JObj? && Distinct(addr.fs) && MapOf(addr.fs) == Named(AddressObject(call.addresses))
  }

  /** What the client sends, and what it signs: `{ ...message, signature }` and `{ ...message, signature: "" }`. */
  function SentText(order: seq<Key>, draft: Object, sig: string): string
    requires forall k :: k in order ==> k in draft[KSignature := JStr(sig)]
  {
    Print(JObj(Arranged(order, draft[KSignature := JStr(sig)])))
  }

  function SigningBytes(order: seq<Key>, draft: Object): seq<Utf8.Byte>
    requires forall k :: k in order ==> k in draft[KSignature := JStr("")]
  {
    Utf8.Encode(CanonicalJson(JObj(Arranged(order, draft[KSignature := JStr("")]))))
  }

  lemma {:induction false} ArrangedMap(order: seq<Key>, o: Object, fs: seq<Field>)
    requires Enumerates(order, o) && fs == Arranged(order, o)
    ensures Distinct(fs) && MapOf(fs) == Named(o)
  {
    NamesInjective();
    ArrangedPointwise(order, o, fs);
  }

  lemma ArrangedPointwise(order: seq<Key>, o: Object, fs: seq<Field>)
    requires Enumerates(order, o) && fs == Arranged(order, o) && Distinct(fs) && Injective(Name)
    ensures MapOf(fs) == Named(o)
  {
    forall s: string
      ensures s in MapOf(fs) <==> s in Named(o)
      ensures s in MapOf(fs) ==> MapOf(fs)[s] == Named(o)[s]
    {
      if s in MapOf(fs) {
        var i := MapOfKeys(fs, s);
        MapOfHas(fs, i);
        NamedByMember(Name, o, order[i]);
      }
      if s in Named(o) {
        var k :| k in o && Name(k) == s;
        var i :| 0 <= i < |order| && order[i] == k;
        MapOfHas(fs, i);
      }
    }
  }

  function CanonicalMembers(o: Object): Object {
    map k | k in o :: Canonical(o[k])
  }

  lemma NamedCanonical(o: Object)
    ensures Named(CanonicalMembers(o)) == CanonicalMap(Named(o))
  {
    NamesInjective();
    forall s: string
      ensures s in Named(CanonicalMembers(o)) <==> s in Named(o)
      ensures s in Named(o) ==> Named(CanonicalMembers(o))[s] == Canonical(Named(o)[s])
    {
      if s in Named(o) || s in Named(CanonicalMembers(o)) {
        var k :| k in o && Name(k) == s;
        NamedByMember(Name, o, k);
        NamedByMember(Name, CanonicalMembers(o), k);
      }
    }
  }

  lemma OwnFlat(m: ClientMessage, addr: Json, addr': Json)
    ensures Own(m, addr).Keys == Own(m, addr').Keys
    ensures forall k :: k in Own(m, addr) && k != KAddresses ==>
      Flat(Own(m, addr)[k]) && Own(m, addr')[k] == Own(m, addr)[k]
    ensures KAddresses in Own(m, addr) ==> Own(m, addr)[KAddresses] == addr && Own(m, addr')[KAddresses] == addr'
  {
    if m.Register? {
      RegisterFlat(m, addr, addr');
    } else {
      PlainFlat(m, addr, addr');
    }
  }

  lemma RegisterFlat(m: ClientMessage, addr: Json, addr': Json)
    requires m.Register?
    ensures Own(m, addr).Keys == Own(m, addr').Keys && KAddresses in Own(m, addr)
    ensures Own(m, addr)[KAddresses] == addr && Own(m, addr')[KAddresses] == addr'
    ensures forall k :: k in Own(m, addr) && k != KAddresses ==>
      Flat(Own(m, addr)[k]) && Own(m, addr')[k] == Own(m, addr)[k]
  {
    var kind := if m.kind.Some? then Some(KindName(m.kind.value)) else None;
    OptionalFlat(KHandle, m.handle);
    OptionalFlat(KKind, kind);
    OverlayFlat(addr, addr', Optional(KHandle, m.handle), Optional(KKind, kind));
  }

  lemma OptionalFlat(k: Key, v: Option<string>)
    ensures AllFlat(Optional(k, v)) && Optional(k, v).Keys <= {k}
  {
  }

  predicate AllFlat(o: Object) {
    forall k :: k in o ==> Flat(o[k])
  }

  lemma OverlayFlat(addr: Json, addr': Json, a: Object, b: Object)
    requires AllFlat(a) && AllFlat(b) && KAddresses !in a && KAddresses !in b
    ensures
      var o, o' := map[KAddresses := addr] + a + b, map[KAddresses := addr'] + a + b;
      && o.Keys == o'.Keys && KAddresses in o && o[KAddresses] == addr && o'[KAddresses] == addr'
      && forall k :: k in o && k != KAddresses ==> Flat(o[k]) && o'[k] == o[k]
  {
  }

  lemma PlainFlat(m: ClientMessage, addr: Json, addr': Json)
    requires !m.Register?
    ensures Own(m, addr) == Own(m, addr') && KAddresses !in Own(m, addr)
    ensures forall k :: k in Own(m, addr) ==> Flat(Own(m, addr)[k])
  {
  }

  /** Only the addresses are ever rearranged. */
  lemma CanonicalOwn(m: ClientMessage, addr: Json)
    ensures CanonicalMembers(Own(m, addr)) == Own(m, Canonical(addr))
  {
    var own, own' := Own(m, addr), Own(m, Canonical(addr));
    OwnFlat(m, addr, Canonical(addr));
    CanonicalPointwise(own, own', addr);
  }

  lemma CanonicalPointwise(own: Object, own': Object, addr: Json)
    requires own.Keys == own'.Keys
    requires forall k :: k in own && k != KAddresses ==> Flat(own[k]) && own'[k] == own[k]
    requires KAddresses in own ==> own[KAddresses] == addr && own'[KAddresses] == Canonical(addr)
    ensures CanonicalMembers(own) == own'
  {
    forall k | k in own && k != KAddresses { CanonicalFlat(own[k]); }
  }

  lemma CanonicalOfMembers(m: ClientMessage, addr: Json)
    ensures CanonicalMembers(Members(m, addr)) == Members(m, Canonical(addr))
  {
    CanonicalOwn(m, addr);
    CanonicalOverlay(m, Own(m, addr));
  }

  lemma CanonicalOverlay(m: ClientMessage, own: Object)
    ensures CanonicalMembers(Common4(m) + own + Optional(KRequestId, RequestIdOf(m)))
            == Common4(m) + CanonicalMembers(own) + Optional(KRequestId, RequestIdOf(m))
  {
  }

  lemma CanonicalAddresses(call: Call, addr: Json, m: ClientMessage)
    requires AddressArgument(call, addr) && call.CallRegister? && m.Register? && m.addresses == call.addresses
    ensures Canonical(addr) == AddressJson(m)
  {
    var o := AddressObject(call.addresses);
    MapOfSortFields(addr.fs);
    CanonicalFlat(Strings(call.addresses.lan));
    CanonicalFlat(OrNull(call.addresses.publicAddr));
    assert CanonicalMembers(o) == o;
    NamedCanonical(o);
    SortedUnique(SortFields(addr.fs), Listing(Named(o)));
  }

  /** The server reads back exactly the message the caller meant, and recomputes exactly the bytes the
      client signed, for every call, every argument and every order of the object's keys. */
  lemma SignedBytesAgree(call: Call, pubkey: string, now: I64, rid: string, addr: Json, order: seq<Key>, sig: string)
    requires AddressArgument(call, addr)
    requires Enumerates(order, Draft(call, pubkey, now, rid, addr)[KSignature := JStr(sig)])
    ensures
      var draft := Draft(call, pubkey, now, rid, addr);
      var m := Intended(call, pubkey, now, rid, sig);
      Decode(SentText(order, draft, sig)) == Some(m) && CanonicalBytes(m) == SigningBytes(order, draft)
  {
    var draft := Draft(call, pubkey, now, rid, addr);
    var m, u := Intended(call, pubkey, now, rid, sig), Intended(call, pubkey, now, rid, "");
    DraftIsMembers(call, pubkey, now, rid, addr, sig);
    DraftIsMembers(call, pubkey, now, rid, addr, "");
    IntendedUnsigned(call, pubkey, now, rid, sig);
    if call.CallRegister? {
      AddressesRoundTrip(call.addresses, addr.fs);
      CanonicalAddresses(call, addr, u);
    }
    ServerReads(order, draft, m, addr, sig);
    ServerRecomputes(order, draft, m, u, addr);
  }

  lemma ServerReads(order: seq<Key>, draft: Object, m: ClientMessage, addr: Json, sig: string)
    requires draft[KSignature := JStr(sig)] == Members(m, addr) && Enumerates(order, draft[KSignature := JStr(sig)])
    requires AddressesIn(m, addr)
    ensures Decode(SentText(order, draft, sig)) == Some(m)
  {
    var sent := Arranged(order, draft[KSignature := JStr(sig)]);
    ArrangedMap(order, draft[KSignature := JStr(sig)], sent);
    FieldsRoundTrip(m, addr, sent);
    ParsePrint(JObj(sent));
  }

  lemma ServerRecomputes(order: seq<Key>, draft: Object, m: ClientMessage, u: ClientMessage, addr: Json)
    requires u == Unsigned(m) && draft[KSignature := JStr("")] == Members(u, addr)
    requires Enumerates(order, draft[KSignature := JStr("")])
    requires u.Register? ==> Canonical(addr) == AddressJson(u)
    ensures CanonicalBytes(m) == SigningBytes(order, draft)
  {
    SigningFields(order, draft[KSignature := JStr("")], m, u, addr);
  }

  lemma IntendedUnsigned(call: Call, pubkey: string, now: I64, rid: string, sig: string)
    ensures
      var m, u := Intended(call, pubkey, now, rid, sig), Intended(call, pubkey, now, rid, "");
      && Unsigned(m) == u
      && (m.Register? <==> call.CallRegister?) && (u.Register? <==> call.CallRegister?)
      && (call.CallRegister? ==> m.addresses == u.addresses == call.addresses)
  {
  }

  lemma SigningFields(order: seq<Key>, o: Object, m: ClientMessage, u: ClientMessage, addr: Json)
    requires u == Unsigned(m) && o == Members(u, addr) && Enumerates(order, o)
    requires u.Register? ==> Canonical(addr) == AddressJson(u)
    ensures SortFields(Arranged(order, o)) == Listing(Named(CanonicalObject(m)))
  {
    SameObject(m, u, Canonical(addr));
    SortsToListing(order, o, u, addr);
  }

  lemma SameObject(m: ClientMessage, u: ClientMessage, addr: Json)
    requires u == Unsigned(m) && (u.Register? ==> addr == AddressJson(u))
    ensures Members(u, addr) == ToObject(u) == CanonicalObject(m)
  {
    CanonicalIsUnsigned(m);
    OwnUsesAddressesOnly(u, addr, AddressJson(u));
  }

  lemma SortsToListing(order: seq<Key>, o: Object, u: ClientMessage, addr: Json)
    requires Enumerates(order, o) && o == Members(u, addr) && Members(u, Canonical(addr)) == ToObject(u)
    ensures SortFields(Arranged(order, o)) == Listing(Named(ToObject(u)))
  {
    var fs := Arranged(order, o);
    ArrangedMap(order, o, fs);
    MapOfSortFields(fs);
    NamedCanonical(o);
    CanonicalOfMembers(u, addr);
    SortedUnique(SortFields(fs), Listing(Named(ToObject(u))));
  }

  lemma OwnUsesAddressesOnly(m: ClientMessage, addr: Json, addr': Json)
    requires m.Register? ==> addr == addr'
    ensures Members(m, addr) == Members(m, addr')
  {
  }
}
