/** Client messages: their serde shape and the bytes their signature covers. */
module Protocol {
  import opened Common
  import opened JsonText
  import opened Tree
  import opened Naming
  import Utf8

  const SIGNALING_MAX_PAYLOAD: nat := 4 * 1024
  const RELAY_MAX_FRAME: nat := 64 * 1024

  type I64 = n: int | -0x8000_0000_0000_0000 <= n < 0x8000_0000_0000_0000

  datatype PeerAddresses = PeerAddresses(lan: seq<string>, publicAddr: Option<string>)

  datatype IdentityKind = User | Machine

  function KindName(k: IdentityKind): string {
    match k
    case User => "user"
    case Machine => "machine"
  }

  function ParseKind(s: string): Option<IdentityKind> {
    if s == "user" then Some(User) else if s == "machine" then Some(Machine) else None
  }

  datatype ClientMessage =
    | Register(pubkey: string, handle: Option<string>, addresses: PeerAddresses, kind: Option<IdentityKind>,
               timestamp: I64, signature: string, requestId: Option<string>)
    | LookupPeer(pubkey: string, targetPubkey: string, timestamp: I64, signature: string, requestId: Option<string>)
    | LookupHandle(pubkey: string, targetHandle: string, timestamp: I64, signature: string, requestId: Option<string>)
    | Signal(pubkey: string, to: string, payload: string, timestamp: I64, signature: string, requestId: Option<string>)
    | SubscribePresence(pubkey: string, peers: seq<string>, timestamp: I64, signature: string,
                        requestId: Option<string>)
    | UnsubscribePresence(pubkey: string, peers: seq<string>, timestamp: I64, signature: string,
                          requestId: Option<string>)
    | RequestRelay(pubkey: string, peer: string, timestamp: I64, signature: string, requestId: Option<string>)
    | AcceptRelay(pubkey: string, sessionId: string, timestamp: I64, signature: string, requestId: Option<string>)
    | Relay(pubkey: string, sessionId: string, data: string, timestamp: I64, signature: string)
    | TeamAnnounce(pubkey: string, optTeamId: Option<string>, teamName: string, adminPubkey: string,
                   adminSignature: string, timestamp: I64, signature: string, requestId: Option<string>)
    | TeamLookup(pubkey: string, teamId: string, timestamp: I64, signature: string, requestId: Option<string>)
    | Ping(pubkey: string, timestamp: I64, signature: string)

  // ---------------------------------------------------------------- member names

  datatype Key =
    | KType | KPubkey | KTimestamp | KSignature | KRequestId | KHandle
    | KAddresses | KKind | KTargetPubkey | KTargetHandle | KTo | KPayload
    | KPeers | KPeer | KSessionId | KData | KTeamId | KTeamName
    | KAdminPubkey | KAdminSignature | KLan | KPublic

  function Name(k: Key): (r: string)
    ensures r != ""
  {
    match k
    case KType => "type"
    case KPubkey => "pubkey"
    case KTimestamp => "timestamp"
    case KSignature => "signature"
    case KRequestId => "request_id"
    case KHandle => "handle"
    case KAddresses => "addresses"
    case KKind => "kind"
    case KTargetPubkey => "target_pubkey"
    case KTargetHandle => "target_handle"
    case KTo => "to"
    case KPayload => "payload"
    case KPeers => "peers"
    case KPeer => "peer"
    case KSessionId => "session_id"
    case KData => "data"
    case KTeamId => "team_id"
    case KTeamName => "team_name"
    case KAdminPubkey => "admin_pubkey"
    case KAdminSignature => "admin_signature"
    case KLan => "lan"
    case KPublic => "public"
  }

  datatype Tag =
    | TRegister | TLookupPeer | TLookupHandle | TSignal | TSubscribePresence | TUnsubscribePresence
    | TRequestRelay | TAcceptRelay | TRelay | TTeamAnnounce | TTeamLookup | TPing

  function TagName(t: Tag): string {
    match t
    case TRegister => "register"
    case TLookupPeer => "lookup_peer"
    case TLookupHandle => "lookup_handle"
    case TSignal => "signal"
    case TSubscribePresence => "subscribe_presence"
    case TUnsubscribePresence => "unsubscribe_presence"
    case TRequestRelay => "request_relay"
    case TAcceptRelay => "accept_relay"
    case TRelay => "relay"
    case TTeamAnnounce => "team_announce"
    case TTeamLookup => "team_lookup"
    case TPing => "ping"
  }

  function TagOf(m: ClientMessage): Tag {
    if m.Register? then TRegister
    else if m.LookupPeer? then TLookupPeer
    else if m.LookupHandle? then TLookupHandle
    else if m.Signal? then TSignal
    else if m.SubscribePresence? then TSubscribePresence
    else if m.UnsubscribePresence? then TUnsubscribePresence
    else if m.RequestRelay? then TRequestRelay
    else if m.AcceptRelay? then TAcceptRelay
    else if m.Relay? then TRelay
    else if m.TeamAnnounce? then TTeamAnnounce
    else if m.TeamLookup? then TTeamLookup
    else TPing
  }

  lemma NameInjective(a: Key, b: Key)
    requires Name(a) == Name(b)
    ensures a == b
  {
    var s, t := Name(a), Name(b);
    assert |s| == |t| && s[0] == t[0] && s[1] == t[1];
    assert |s| > 3 ==> s[3] == t[3];
    assert |s| > 7 ==> s[7] == t[7];
  }

  lemma TagNameInjective(a: Tag, b: Tag)
    requires TagName(a) == TagName(b)
    ensures a == b
  {
    var s, t := TagName(a), TagName(b);
    assert |s| == |t| && s[0] == t[0];
  }

  // ---------------------------------------------------------------- objects by member name

  type Object = map<Key, Json>

  lemma NamesInjective()
    ensures Injective(Name)
  {
    forall a: Key, b: Key | Name(a) == Name(b) ensures a == b { NameInjective(a, b); }
  }

  function AllKeys(): (r: set<Key>)
    ensures forall k: Key :: k in r
  {
    set k: Key | Name(k) != ""
  }

  /** The object as JSON sees it, keyed by text. */
  function Named(o: Object): map<string, Json> {
    NamesInjective();
    NamedBy(Name, o)
  }

  /** The known members of a JSON object; others are ignored. */
  function Known(m: map<string, Json>): Object {
    KnownBy(Name, AllKeys(), m)
  }

  lemma KnownNamed(o: Object)
    ensures Known(Named(o)) == o
  {
    NamesInjective();
    KnownByNamedBy(Name, AllKeys(), o);
  }

  // ---------------------------------------------------------------- serialising

  function Strings(ss: seq<string>): Json {
    JArr(seq(|ss|, i requires 0 <= i < |ss| => JStr(ss[i])))
  }

  function OrNull(s: Option<string>): Json {
    match s
    case None => JNull
    case Some(v) => JStr(v)
  }

  /** `public` has no skip rule, so its absence is written as null. */
  function AddressObject(a: PeerAddresses): Object {
    map[KLan := Strings(a.lan), KPublic := OrNull(a.publicAddr)]
  }

  function Optional(k: Key, v: Option<string>): Object {
    match v
    case None => map[]
    case Some(s) => map[k := JStr(s)]
  }

  /** The members every variant has. */
  function Common4(m: ClientMessage): Object {
    map[KType := JStr(TagName(TagOf(m))), KPubkey := JStr(m.pubkey),
        KTimestamp := JInt(m.timestamp), KSignature := JStr(m.signature)]
  }

  function RequestIdOf(m: ClientMessage): Option<string> {
    if m.Relay? || m.Ping? then None else m.requestId
  }

  /** The members of one variant only, with `addr` for a register's addresses; absent options are left out. */
  function Own(m: ClientMessage, addr: Json): Object {
    match m
    case Register(_, handle, _, kind, _, _, _) =>
      map[KAddresses := addr]
      + Optional(KHandle, handle)
      + Optional(KKind, if kind.Some? then Some(KindName(kind.value)) else None)
    case LookupPeer(_, target, _, _, _) => map[KTargetPubkey := JStr(target)]
    case LookupHandle(_, target, _, _, _) => map[KTargetHandle := JStr(target)]
    case Signal(_, to, payload, _, _, _) => map[KTo := JStr(to), KPayload := JStr(payload)]
    case SubscribePresence(_, peers, _, _, _) => map[KPeers := Strings(peers)]
    case UnsubscribePresence(_, peers, _, _, _) => map[KPeers := Strings(peers)]
    case RequestRelay(_, peer, _, _, _) => map[KPeer := JStr(peer)]
    case AcceptRelay(_, sid, _, _, _) => map[KSessionId := JStr(sid)]
    case Relay(_, sid, data, _, _) => map[KSessionId := JStr(sid), KData := JStr(data)]
    case TeamAnnounce(_, teamId, name, admin, adminSig, _, _, _) =>
      map[KTeamName := JStr(name), KAdminPubkey := JStr(admin), KAdminSignature := JStr(adminSig)]
      + Optional(KTeamId, teamId)
    case TeamLookup(_, teamId, _, _, _) => map[KTeamId := JStr(teamId)]
    case Ping(_, _, _) => map[]
  }

  function Members(m: ClientMessage, addr: Json): Object {
    Common4(m) + Own(m, addr) + Optional(KRequestId, RequestIdOf(m))
  }

  /** The addresses as `serde_json` writes them, members in key order. */
  function AddressJson(m: ClientMessage): Json {
    if m.Register? then JObj(Listing(Named(AddressObject(m.addresses)))) else JNull
  }

  /** `serde_json::to_value`. */
  function ToObject(m: ClientMessage): Object {
    Members(m, AddressJson(m))
  }

  /** The object whose text is signed: the message with `signature` overwritten by "". */
  function CanonicalObject(m: ClientMessage): Object {
    ToObject(m)[KSignature := JStr("")]
  }

  /** `canonical_bytes`: `serde_json` prints an object's members in key order. */
  function CanonicalBytes(m: ClientMessage): seq<Utf8.Byte> {
    Utf8.Encode(Print(JObj(Listing(Named(CanonicalObject(m))))))
  }

  // ---------------------------------------------------------------- deserialising

  function GetStr(o: Object, k: Key): Option<string> {
    if k in o && o[k].JStr? then Some(o[k].s) else None
  }

  /** An optional member: absent and null both mean none. */
  function GetOptStr(o: Object, k: Key): Option<Option<string>> {
    if k !in o || o[k].JNull? then Some(None) else if o[k].JStr? then Some(Some(o[k].s)) else None
  }

  /** `signature` alone is defaulted, to the empty string. */
  function GetSignature(o: Object): Option<string> {
    if KSignature !in o then Some("") else GetStr(o, KSignature)
  }

  function GetI64(o: Object, k: Key): Option<I64> {
    if k in o && o[k].JInt? && -0x8000_0000_0000_0000 <= o[k].n < 0x8000_0000_0000_0000 then Some(o[k].n) else None
  }

  function AsStrings(j: Json): Option<seq<string>> {
    if j.JArr? && forall i :: 0 <= i < |j.es| ==> j.es[i].JStr?
    then Some(seq(|j.es|, i requires 0 <= i < |j.es| && j.es[i].JStr? => j.es[i].s))
    else None
  }

  function GetStrings(o: Object, k: Key): Option<seq<string>> {
    if k in o then AsStrings(o[k]) else None
  }

  /** A member the type names may not come twice. */
  predicate Repeats(fs: seq<Field>, names: set<Key>) {
    exists i, j :: 0 <= i < j < |fs| && fs[i].key == fs[j].key && exists k :: k in names && Name(k) == fs[i].key
  }

  function AsAddresses(j: Json): Option<PeerAddresses> {
    if !j.JObj? || Repeats(j.fs, {KLan, KPublic}) then None
    else AddressesOf(Known(MapOf(j.fs)))
  }

  function AddressesOf(o: Object): Option<PeerAddresses> {
    var lan :- if KLan in o then AsStrings(o[KLan]) else Some([]);
    var publicAddr :- GetOptStr(o, KPublic);
    Some(PeerAddresses(lan, publicAddr))
  }

  function GetAddresses(o: Object): Option<PeerAddresses> {
    if KAddresses in o then AsAddresses(o[KAddresses]) else None
  }

  function GetKind(o: Object): Option<Option<IdentityKind>> {
    var name :- GetOptStr(o, KKind);
    match name
    case None => Some(None)
    case Some(s) =>
      var k :- ParseKind(s);
      Some(Some(k))
  }

  function ParseTag(s: string): Option<Tag> {
    if exists t :: TagName(t) == s then
      assert forall a, b | TagName(a) == s && TagName(b) == s :: a == b by {
        forall a, b | TagName(a) == s && TagName(b) == s ensures a == b { TagNameInjective(a, b); }
      }
      var t :| TagName(t) == s;
      Some(t)
    else None
  }

  /** The members a variant names. */
  function Names(t: Tag): set<Key> {
    {KType, KPubkey, KTimestamp, KSignature} +
    match t
    case TRegister => {KHandle, KAddresses, KKind, KRequestId}
    case TLookupPeer => {KTargetPubkey, KRequestId}
    case TLookupHandle => {KTargetHandle, KRequestId}
    case TSignal => {KTo, KPayload, KRequestId}
    case TSubscribePresence => {KPeers, KRequestId}
    case TUnsubscribePresence => {KPeers, KRequestId}
    case TRequestRelay => {KPeer, KRequestId}
    case TAcceptRelay => {KSessionId, KRequestId}
    case TRelay => {KSessionId, KData}
    case TTeamAnnounce => {KTeamId, KTeamName, KAdminPubkey, KAdminSignature, KRequestId}
    case TTeamLookup => {KTeamId, KRequestId}
    case TPing => {}
  }

  function FromObject(t: Tag, o: Object): Option<ClientMessage> {
    var pubkey :- GetStr(o, KPubkey);
    var timestamp :- GetI64(o, KTimestamp);
    var signature :- GetSignature(o);
    var rid :- if t.TRelay? || t.TPing? then Some(None) else GetOptStr(o, KRequestId);
    FromOwn(t, o, pubkey, timestamp, signature, rid)
  }

  /** One variant, from its own members and the common ones. */
  function FromOwn(t: Tag, o: Object, pubkey: string, timestamp: I64, signature: string, rid: Option<string>)
    : Option<ClientMessage>
  {
    match t
    case TRegister =>
      var handle :- GetOptStr(o, KHandle);
      var addresses :- GetAddresses(o);
      var kind :- GetKind(o);
      Some(Register(pubkey, handle, addresses, kind, timestamp, signature, rid))
    case TLookupPeer =>
      var target :- GetStr(o, KTargetPubkey);
      Some(LookupPeer(pubkey, target, timestamp, signature, rid))
    case TLookupHandle =>
      var target :- GetStr(o, KTargetHandle);
      Some(LookupHandle(pubkey, target, timestamp, signature, rid))
    case TSignal =>
      var to :- GetStr(o, KTo);
      var payload :- GetStr(o, KPayload);
      Some(Signal(pubkey, to, payload, timestamp, signature, rid))
    case TSubscribePresence =>
      var peers :- GetStrings(o, KPeers);
      Some(SubscribePresence(pubkey, peers, timestamp, signature, rid))
    case TUnsubscribePresence =>
      var peers :- GetStrings(o, KPeers);
      Some(UnsubscribePresence(pubkey, peers, timestamp, signature, rid))
    case TRequestRelay =>
      var peer :- GetStr(o, KPeer);
      Some(RequestRelay(pubkey, peer, timestamp, signature, rid))
    case TAcceptRelay =>
      var sid :- GetStr(o, KSessionId);
      Some(AcceptRelay(pubkey, sid, timestamp, signature, rid))
    case TRelay =>
      var sid :- GetStr(o, KSessionId);
      var data :- GetStr(o, KData);
      Some(Relay(pubkey, sid, data, timestamp, signature))
    case TTeamAnnounce =>
      var teamId :- GetOptStr(o, KTeamId);
      var name :- GetStr(o, KTeamName);
      var admin :- GetStr(o, KAdminPubkey);
      var adminSig :- GetStr(o, KAdminSignature);
      Some(TeamAnnounce(pubkey, teamId, name, admin, adminSig, timestamp, signature, rid))
    case TTeamLookup =>
      var teamId :- GetStr(o, KTeamId);
      Some(TeamLookup(pubkey, teamId, timestamp, signature, rid))
    case TPing => Some(Ping(pubkey, timestamp, signature))
  }

  /** The message a JSON object stands for: known members once each, in any order. */
  function FromFields(fs: seq<Field>): Option<ClientMessage> {
    var o := Known(MapOf(fs));
    var text :- GetStr(o, KType);
    var t :- ParseTag(text);
    if Repeats(fs, Names(t)) then None else FromObject(t, o)
  }

  /** `serde_json::from_str::<ClientMessage>`. */
  function Decode(text: string): Option<ClientMessage> {
    var j :- Parse(text);
    if j.JObj? then FromFields(j.fs) else None
  }

  // ---------------------------------------------------------------- what the bytes determine

  lemma StringsRoundTrip(ss: seq<string>)
    ensures AsStrings(Strings(ss)) == Some(ss)
  {
    assert AsStrings(Strings(ss)).value == ss;
  }

  /** JSON that stands for a register's addresses, its members in any order. */
  predicate AddressesIn(m: ClientMessage, addr: Json) {
    m.Register? ==> AsAddresses(addr) == Some(m.addresses)
  }

  lemma AddressesRoundTrip(a: PeerAddresses, fs: seq<Field>)
    requires Distinct(fs) && MapOf(fs) == Named(AddressObject(a))
    ensures AsAddresses(JObj(fs)) == Some(a)
  {
    KnownNamed(AddressObject(a));
    AddressesFrom(a, fs, Known(MapOf(fs)));
  }

  lemma AddressesFrom(a: PeerAddresses, fs: seq<Field>, o: Object)
    requires Distinct(fs) && o == Known(MapOf(fs)) == AddressObject(a)
    ensures AsAddresses(JObj(fs)) == Some(a)
  {
    AddressObjectRead(a);
  }

  lemma AddressObjectRead(a: PeerAddresses)
    ensures AddressesOf(AddressObject(a)) == Some(a)
  {
    var o := AddressObject(a);
    StringsRoundTrip(a.lan);
    assert o[KLan] == Strings(a.lan) && GetOptStr(o, KPublic) == Some(a.publicAddr);
  }

  lemma AddressJsonIsIn(m: ClientMessage)
    ensures AddressesIn(m, AddressJson(m))
  {
    if m.Register? {
      var fs := Listing(Named(AddressObject(m.addresses)));
      SortedDistinct(fs);
      AddressesRoundTrip(m.addresses, fs);
    }
  }

  lemma TagRoundTrip(t: Tag)
    ensures ParseTag(TagName(t)) == Some(t)
  {
    var t' := ParseTag(TagName(t)).value;
    TagNameInjective(t, t');
  }

  function Unsigned(m: ClientMessage): ClientMessage {
    m.(signature := "")
  }

  const SHARED: set<Key> := {KType, KPubkey, KTimestamp, KSignature, KRequestId}

  lemma OwnIsNotShared(m: ClientMessage, addr: Json)
    ensures Own(m, addr).Keys !! SHARED
  {
  }

  /** The signature is a shared member and nothing else depends on it. */
  lemma OwnIgnoresSignature(m: ClientMessage, addr: Json)
    ensures Own(Unsigned(m), addr) == Own(m, addr)
    ensures TagOf(Unsigned(m)) == TagOf(m) && RequestIdOf(Unsigned(m)) == RequestIdOf(m)
  {
  }

  /** `o` has the variant's own members and no other unshared ones. */
  ghost predicate Carries(o: Object, own: Object) {
    forall k :: k !in SHARED ==> (k in o <==> k in own) && (k in o ==> o[k] == own[k])
  }

  lemma RegisterRoundTrip(m: ClientMessage, addr: Json, o: Object)
    requires m.Register? && AddressesIn(m, addr) && Carries(o, Own(m, addr))
    ensures FromOwn(TagOf(m), o, m.pubkey, m.timestamp, m.signature, RequestIdOf(m)) == Some(m)
  {
    RegisterMembers(m, addr, o);
    assert GetAddresses(o) == Some(m.addresses);
  }

  lemma RegisterMembers(m: ClientMessage, addr: Json, o: Object)
    requires m.Register? && Carries(o, Own(m, addr))
    ensures GetOptStr(o, KHandle) == Some(m.handle) && GetKind(o) == Some(m.kind)
    ensures KAddresses in o && o[KAddresses] == addr
  {
    assert KHandle !in SHARED && KAddresses !in SHARED && KKind !in SHARED;
    if m.kind.Some? { KindRoundTrip(m.kind.value); }
  }

  lemma KindRoundTrip(k: IdentityKind)
    ensures ParseKind(KindName(k)) == Some(k)
  {
  }

  lemma TeamAnnounceRoundTrip(m: ClientMessage, o: Object)
    requires m.TeamAnnounce? && Carries(o, Own(m, JNull))
    ensures FromOwn(TagOf(m), o, m.pubkey, m.timestamp, m.signature, RequestIdOf(m)) == Some(m)
  {
    assert KTeamId !in SHARED && KTeamName !in SHARED && KAdminPubkey !in SHARED && KAdminSignature !in SHARED;
  }

  lemma PresenceRoundTrip(m: ClientMessage, o: Object)
    requires (m.SubscribePresence? || m.UnsubscribePresence?) && Carries(o, Own(m, JNull))
    ensures FromOwn(TagOf(m), o, m.pubkey, m.timestamp, m.signature, RequestIdOf(m)) == Some(m)
  {
    StringsRoundTrip(m.peers);
    assert KPeers !in SHARED;
  }

  lemma OwnRoundTrip(m: ClientMessage, addr: Json, o: Object)
    requires AddressesIn(m, addr) && Carries(o, Own(m, addr))
    ensures FromOwn(TagOf(m), o, m.pubkey, m.timestamp, m.signature, RequestIdOf(m)) == Some(m)
  {
    match m
    case Register(_, _, _, _, _, _, _) => RegisterRoundTrip(m, addr, o);
    case TeamAnnounce(_, _, _, _, _, _, _, _) => TeamAnnounceRoundTrip(m, o);
    case SubscribePresence(_, _, _, _, _) => PresenceRoundTrip(m, o);
    case UnsubscribePresence(_, _, _, _, _) => PresenceRoundTrip(m, o);
    case _ => PlainRoundTrip(m, o);
  }

  lemma PlainRoundTrip(m: ClientMessage, o: Object)
    requires !m.Register? && !m.TeamAnnounce? && !m.SubscribePresence? && !m.UnsubscribePresence?
    requires Carries(o, Own(m, JNull))
    ensures FromOwn(TagOf(m), o, m.pubkey, m.timestamp, m.signature, RequestIdOf(m)) == Some(m)
  {
  }

  /** Members of the variant itself do not disturb the shared ones. */
  lemma SharedOverlay(m: ClientMessage, own: Object)
    requires own.Keys !! SHARED
    ensures
      var o := Common4(m) + own + Optional(KRequestId, RequestIdOf(m));
      && GetStr(o, KType) == Some(TagName(TagOf(m))) && GetStr(o, KPubkey) == Some(m.pubkey)
      && GetI64(o, KTimestamp) == Some(m.timestamp) && GetSignature(o) == Some(m.signature)
      && GetOptStr(o, KRequestId) == Some(RequestIdOf(m))
      && Carries(o, own)
  {
  }

  lemma ObjectRoundTrip(m: ClientMessage, addr: Json, o: Object)
    requires AddressesIn(m, addr) && o == Members(m, addr)
    ensures GetStr(o, KType) == Some(TagName(TagOf(m))) && FromObject(TagOf(m), o) == Some(m)
  {
    OwnIsNotShared(m, addr);
    SharedOverlay(m, Own(m, addr));
    OwnRoundTrip(m, addr, o);
  }

  /** A message is recovered from its members, whatever order they are written in. */
  lemma FieldsRoundTrip(m: ClientMessage, addr: Json, fs: seq<Field>)
    requires AddressesIn(m, addr) && Distinct(fs) && MapOf(fs) == Named(Members(m, addr))
    ensures FromFields(fs) == Some(m)
  {
    KnownNamed(Members(m, addr));
    TagRoundTrip(TagOf(m));
    ObjectRoundTrip(m, addr, Known(MapOf(fs)));
    FieldsGive(fs, Known(MapOf(fs)), TagOf(m));
  }

  lemma FieldsGive(fs: seq<Field>, o: Object, t: Tag)
    requires Distinct(fs) && o == Known(MapOf(fs)) && GetStr(o, KType) == Some(TagName(t))
    requires ParseTag(TagName(t)) == Some(t)
    ensures FromFields(fs) == FromObject(t, o)
  {
  }

  lemma BlankSignature(m: ClientMessage, addr: Json)
    ensures Members(m, addr)[KSignature := JStr("")] == Members(Unsigned(m), addr)
  {
    OwnIsNotShared(m, addr);
    OwnIgnoresSignature(m, addr);
    OverlaySignature(m, Unsigned(m), Own(m, addr));
  }

  lemma OverlaySignature(m: ClientMessage, u: ClientMessage, own: Object)
    requires own.Keys !! SHARED && u.signature == "" && m.pubkey == u.pubkey && m.timestamp == u.timestamp
    requires TagOf(m) == TagOf(u) && RequestIdOf(m) == RequestIdOf(u)
    ensures (Common4(m) + own + Optional(KRequestId, RequestIdOf(m)))[KSignature := JStr("")]
            == Common4(u) + own + Optional(KRequestId, RequestIdOf(u))
  {
  }

  lemma CanonicalIsUnsigned(m: ClientMessage)
    ensures CanonicalObject(m) == ToObject(Unsigned(m)) && AddressJson(Unsigned(m)) == AddressJson(m)
  {
    BlankSignature(m, AddressJson(m));
  }

  /** Two messages have the same signed bytes exactly when they agree on every field but the signature. */
  lemma CanonicalBytesInjective(m: ClientMessage, m': ClientMessage)
    ensures CanonicalBytes(m) == CanonicalBytes(m') <==> Unsigned(m) == Unsigned(m')
  {
    CanonicalIsUnsigned(m);
    CanonicalIsUnsigned(m');
    if CanonicalBytes(m) == CanonicalBytes(m') {
      var fs, fs' := Listing(Named(CanonicalObject(m))), Listing(Named(CanonicalObject(m')));
      Utf8.EncodeInjective(Print(JObj(fs)), Print(JObj(fs')));
      ParsePrint(JObj(fs));
      ParsePrint(JObj(fs'));
      SortedDistinct(fs);
      AddressJsonIsIn(Unsigned(m));
      AddressJsonIsIn(Unsigned(m'));
      FieldsRoundTrip(Unsigned(m), AddressJson(m), fs);
      FieldsRoundTrip(Unsigned(m'), AddressJson(m'), fs');
    }
  }
}
