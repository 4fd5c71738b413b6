/** Exactly which JSON objects are read as which messages. */
module Reading {
  import opened Common
  import opened JsonText
  import opened Tree
  import opened Protocol

  /** Member `k` of `o` stands for what a message with members `w` would write there: the same value, nothing or null
      for an option that is not set, and nothing for an empty signature. */
  predicate StandsFor(o: Object, w: Object, k: Key) {
    if k in w then (k in o && o[k] == w[k]) || (k == KSignature && k !in o && w[k] == JStr(""))
    else k !in o || o[k] == JNull
  }

  /** The addresses an object gives. */
  function AddressMember(o: Object): Json {
    if KAddresses in o then o[KAddresses] else JNull
  }

  /** Every member the message's variant knows stands for it; other members do not matter. */
  ghost predicate ReadsAs(o: Object, m: ClientMessage) {
    var w := Members(m, AddressMember(o));
    && StandsFor(o, w, KType) && StandsFor(o, w, KPubkey) && StandsFor(o, w, KTimestamp) && StandsFor(o, w, KSignature)
    && (m.Relay? || m.Ping? || StandsFor(o, w, KRequestId))
    && OwnReads(o, m, w)
  }

  // ---------------------------------------------------------------- the common members

  ghost predicate CommonReads(o: Object, m: ClientMessage) {
    && GetStr(o, KPubkey) == Some(m.pubkey) && GetI64(o, KTimestamp) == Some(m.timestamp)
    && GetSignature(o) == Some(m.signature)
    && (m.Relay? || m.Ping? || GetOptStr(o, KRequestId) == Some(m.requestId))
  }

  /** `w` has the members every variant has, with the values of `m`. */
  ghost predicate Shares(w: Object, m: ClientMessage) {
    && KPubkey in w && w[KPubkey] == JStr(m.pubkey) && KTimestamp in w && w[KTimestamp] == JInt(m.timestamp)
    && KSignature in w && w[KSignature] == JStr(m.signature)
    && match RequestIdOf(m)
       case None => KRequestId !in w
       case Some(rid) => KRequestId in w && w[KRequestId] == JStr(rid)
  }

  lemma CommonIff(o: Object, m: ClientMessage, w: Object)
    requires Shares(w, m)
    ensures CommonReads(o, m) <==>
      && StandsFor(o, w, KPubkey) && StandsFor(o, w, KTimestamp) && StandsFor(o, w, KSignature)
      && (m.Relay? || m.Ping? || StandsFor(o, w, KRequestId))
  {
  }

  lemma SharedMembers(m: ClientMessage, addr: Json, w: Object)
    requires w == Members(m, addr)
    ensures Shares(w, m) && KType in w && w[KType] == JStr(TagName(TagOf(m)))
    ensures forall k :: k !in SHARED ==> (k in w <==> k in Own(m, addr)) && (k in w ==> w[k] == Own(m, addr)[k])
  {
    OwnIsNotShared(m, addr);
  }

  // ---------------------------------------------------------------- the members of one variant

  /** Every member of the variant's own stands for the message. */
  ghost predicate OwnReads(o: Object, m: ClientMessage, own: Object) {
    match m
    case Register(_, _, addresses, _, _, _, _) =>
      && StandsFor(o, own, KHandle) && StandsFor(o, own, KAddresses) && StandsFor(o, own, KKind)
      && KAddresses in o && AsAddresses(o[KAddresses]) == Some(addresses)
    case LookupPeer(_, _, _, _, _) => StandsFor(o, own, KTargetPubkey)
    case LookupHandle(_, _, _, _, _) => StandsFor(o, own, KTargetHandle)
    case Signal(_, _, _, _, _, _) => StandsFor(o, own, KTo) && StandsFor(o, own, KPayload)
    case SubscribePresence(_, _, _, _, _) => StandsFor(o, own, KPeers)
    case UnsubscribePresence(_, _, _, _, _) => StandsFor(o, own, KPeers)
    case RequestRelay(_, _, _, _, _) => StandsFor(o, own, KPeer)
    case AcceptRelay(_, _, _, _, _) => StandsFor(o, own, KSessionId)
    case Relay(_, _, _, _, _) => StandsFor(o, own, KSessionId) && StandsFor(o, own, KData)
    case TeamAnnounce(_, _, _, _, _, _, _, _) =>
      && StandsFor(o, own, KTeamId) && StandsFor(o, own, KTeamName)
      && StandsFor(o, own, KAdminPubkey) && StandsFor(o, own, KAdminSignature)
    case TeamLookup(_, _, _, _, _) => StandsFor(o, own, KTeamId)
    case Ping(_, _, _) => true
  }

  function Rebuilt(o: Object, m: ClientMessage): Option<ClientMessage> {
    FromOwn(TagOf(m), o, m.pubkey, m.timestamp, m.signature, RequestIdOf(m))
  }

  lemma StringsIff(j: Json, ss: seq<string>)
    ensures AsStrings(j) == Some(ss) <==> j == Strings(ss)
  {
    StringsRoundTrip(ss);
    if AsStrings(j) == Some(ss) {
      assert j.es == Strings(ss).es;
    }
  }

  lemma KindIff(o: Object, kind: Option<IdentityKind>)
    ensures GetKind(o) == Some(kind) <==>
      GetOptStr(o, KKind) == Some(if kind.Some? then Some(KindName(kind.value)) else None)
  {
  }

  lemma OptionIff(o: Object, own: Object, k: Key, v: Option<string>)
    requires k != KSignature && if v.None? then k !in own else k in own && own[k] == JStr(v.value)
    ensures GetOptStr(o, k) == Some(v) <==> StandsFor(o, own, k)
  {
  }

  lemma RegisterOwn(m: ClientMessage, addr: Json, own: Object)
    requires m.Register? && own == Own(m, addr)
    ensures KAddresses in own && own[KAddresses] == addr
    ensures if m.handle.None? then KHandle !in own else KHandle in own && own[KHandle] == JStr(m.handle.value)
    ensures if m.kind.None? then KKind !in own else KKind in own && own[KKind] == JStr(KindName(m.kind.value))
  {
  }

  lemma RegisterIff(o: Object, m: ClientMessage, own: Object)
    requires m.Register? && own == Own(m, AddressMember(o))
    ensures Rebuilt(o, m) == Some(m) <==> OwnReads(o, m, own)
  {
    RegisterOwn(m, AddressMember(o), own);
    KindIff(o, m.kind);
    OptionIff(o, own, KHandle, m.handle);
    OptionIff(o, own, KKind, if m.kind.Some? then Some(KindName(m.kind.value)) else None);
    RegisterRebuilt(o, m);
  }

  lemma RegisterRebuilt(o: Object, m: ClientMessage)
    requires m.Register?
    ensures Rebuilt(o, m) == Some(m) <==>
      GetOptStr(o, KHandle) == Some(m.handle) && GetAddresses(o) == Some(m.addresses) && GetKind(o) == Some(m.kind)
  {
  }

  lemma AnnounceIff(o: Object, m: ClientMessage, own: Object)
    requires m.TeamAnnounce? && own == Own(m, AddressMember(o))
    ensures Rebuilt(o, m) == Some(m) <==> OwnReads(o, m, own)
  {
    OptionIff(o, own, KTeamId, m.optTeamId);
  }

  lemma PlainIff(o: Object, m: ClientMessage, own: Object)
    requires !m.Register? && !m.TeamAnnounce? && own == Own(m, AddressMember(o))
    ensures Rebuilt(o, m) == Some(m) <==> OwnReads(o, m, own)
  {
    if (m.SubscribePresence? || m.UnsubscribePresence?) && KPeers in o { StringsIff(o[KPeers], m.peers); }
  }

  lemma OwnIff(o: Object, m: ClientMessage, own: Object)
    requires own == Own(m, AddressMember(o))
    ensures Rebuilt(o, m) == Some(m) <==> OwnReads(o, m, own)
  {
    if m.Register? {
      RegisterIff(o, m, own);
    } else if m.TeamAnnounce? {
      AnnounceIff(o, m, own);
    } else {
      PlainIff(o, m, own);
    }
  }

  // ---------------------------------------------------------------- whole messages

  lemma OwnReadsSame(o: Object, m: ClientMessage, w: Object, own: Object)
    requires forall k :: k !in SHARED ==> (k in w <==> k in own) && (k in w ==> w[k] == own[k])
    ensures OwnReads(o, m, w) <==> OwnReads(o, m, own)
  {
    assert {KHandle, KAddresses, KKind, KTargetPubkey, KTargetHandle, KTo, KPayload, KPeers, KPeer, KSessionId, KData,
            KTeamId, KTeamName, KAdminPubkey, KAdminSignature} !! SHARED;
    forall k | k !in SHARED ensures StandsFor(o, w, k) <==> StandsFor(o, own, k) {
    }
  }

  lemma ObjectIff(o: Object, m: ClientMessage)
    ensures FromObject(TagOf(m), o) == Some(m) <==> CommonReads(o, m) && Rebuilt(o, m) == Some(m)
  {
    RebuiltKeeps(o, m);
  }

  /** Whatever a variant's own members are, the common ones are passed on. */
  lemma OwnKeeps(t: Tag, o: Object, pubkey: string, timestamp: I64, signature: string, rid: Option<string>)
    ensures
      var r := FromOwn(t, o, pubkey, timestamp, signature, rid);
      r.Some? ==>
        && TagOf(r.value) == t && r.value.pubkey == pubkey && r.value.timestamp == timestamp
        && r.value.signature == signature && (t.TRelay? || t.TPing? || RequestIdOf(r.value) == rid)
  {
  }

  lemma RebuiltKeeps(o: Object, m: ClientMessage)
    ensures FromObject(TagOf(m), o) == Some(m) ==> CommonReads(o, m)
  {
    var t := TagOf(m);
    var pubkey, timestamp, signature := GetStr(o, KPubkey), GetI64(o, KTimestamp), GetSignature(o);
    var rid := if t.TRelay? || t.TPing? then Some(None) else GetOptStr(o, KRequestId);
    if pubkey.Some? && timestamp.Some? && signature.Some? && rid.Some? {
      OwnKeeps(t, o, pubkey.value, timestamp.value, signature.value, rid.value);
    }
  }

  lemma ObjectTag(t: Tag, o: Object)
    ensures FromObject(t, o).Some? ==> TagOf(FromObject(t, o).value) == t
  {
    var pubkey, timestamp, signature := GetStr(o, KPubkey), GetI64(o, KTimestamp), GetSignature(o);
    var rid := if t.TRelay? || t.TPing? then Some(None) else GetOptStr(o, KRequestId);
    if pubkey.Some? && timestamp.Some? && signature.Some? && rid.Some? {
      OwnKeeps(t, o, pubkey.value, timestamp.value, signature.value, rid.value);
    }
  }

  lemma ReadsAsIff(o: Object, m: ClientMessage)
    ensures ReadsAs(o, m) <==>
      GetStr(o, KType) == Some(TagName(TagOf(m))) && FromObject(TagOf(m), o) == Some(m)
  {
    var addr := AddressMember(o);
    var w, own := Members(m, addr), Own(m, addr);
    SharedMembers(m, addr, w);
    CommonIff(o, m, w);
    OwnReadsSame(o, m, w, own);
    OwnIff(o, m, own);
    ObjectIff(o, m);
    TypeIff(o, m, w);
  }

  lemma TypeIff(o: Object, m: ClientMessage, w: Object)
    requires KType in w && w[KType] == JStr(TagName(TagOf(m)))
    ensures StandsFor(o, w, KType) <==> GetStr(o, KType) == Some(TagName(TagOf(m)))
  {
  }

  /** An object is read as a message exactly when every member the variant knows stands for it and none of those comes
      twice; the order and any other members do not matter. */
  lemma ReadExactly(fs: seq<Field>, m: ClientMessage)
    ensures FromFields(fs) == Some(m) <==> !Repeats(fs, Names(TagOf(m))) && ReadsAs(Known(MapOf(fs)), m)
  {
    var o := Known(MapOf(fs));
    ReadsAsIff(o, m);
    TagRoundTrip(TagOf(m));
    var text := GetStr(o, KType);
    if text.Some? && ParseTag(text.value).Some? { ObjectTag(ParseTag(text.value).value, o); }
  }

  lemma DecodeExactly(text: string, m: ClientMessage)
    ensures Decode(text) == Some(m) <==>
      exists fs :: Parse(text) == Some(JObj(fs)) && !Repeats(fs, Names(TagOf(m))) && ReadsAs(Known(MapOf(fs)), m)
  {
    var j := Parse(text);
    if j.Some? && j.value.JObj? { ReadExactly(j.value.fs, m); }
  }
}
