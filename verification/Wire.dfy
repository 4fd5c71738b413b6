/** The signed text of a message, member by member. */
module Wire {
  import opened Common
  import opened JsonText
  import opened Tree
  import opened Naming
  import opened Protocol
  import Utf8

  /** All member names, in alphabetical order. */
  const ALPHABETICAL: seq<Key> := [
    KAddresses, KAdminPubkey, KAdminSignature, KData, KHandle, KKind, KLan, KPayload, KPeer, KPeers, KPubkey, KPublic,
    KRequestId, KSessionId, KSignature, KTargetHandle, KTargetPubkey, KTeamId, KTeamName, KTimestamp, KTo, KType]

  /** The names themselves, as `src/protocol.rs` and the client both spell them. */
  lemma Spelling()
    ensures Name(KAddresses) == "addresses" && Name(KAdminPubkey) == "admin_pubkey"
    ensures Name(KAdminSignature) == "admin_signature" && Name(KData) == "data" && Name(KHandle) == "handle"
    ensures Name(KKind) == "kind" && Name(KLan) == "lan" && Name(KPayload) == "payload" && Name(KPeer) == "peer"
    ensures Name(KPeers) == "peers" && Name(KPubkey) == "pubkey" && Name(KPublic) == "public"
    ensures Name(KRequestId) == "request_id" && Name(KSessionId) == "session_id" && Name(KSignature) == "signature"
    ensures Name(KTargetHandle) == "target_handle" && Name(KTargetPubkey) == "target_pubkey"
    ensures Name(KTeamId) == "team_id" && Name(KTeamName) == "team_name" && Name(KTimestamp) == "timestamp"
    ensures Name(KTo) == "to" && Name(KType) == "type"
  {
  }

  /** Where a name first differs from the next one. */
  function NextDifference(i: nat): nat {
    if i == 0 then 2
    else if i == 1 then 6
    else if i == 8 then 4
    else if i == 10 then 3
    else if i == 15 then 7
    else if i == 17 then 5
    else if i in {7, 9, 13, 16, 18, 19, 20} then 1
    else 0
  }

  lemma NextDiffers(i: nat)
    requires i < 21
    ensures DiffersAt(Name(ALPHABETICAL[i]), Name(ALPHABETICAL[i + 1]), NextDifference(i))
  {
    if i < 7 { NextDiffersLow(i); } else if i < 14 { NextDiffersMiddle(i); } else { NextDiffersHigh(i); }
  }

  lemma NextDiffersLow(i: nat)
    requires i < 7
    ensures DiffersAt(Name(ALPHABETICAL[i]), Name(ALPHABETICAL[i + 1]), NextDifference(i))
  {
  }

  lemma NextDiffersMiddle(i: nat)
    requires 7 <= i < 14
    ensures DiffersAt(Name(ALPHABETICAL[i]), Name(ALPHABETICAL[i + 1]), NextDifference(i))
  {
  }

  lemma NextDiffersHigh(i: nat)
    requires 14 <= i < 21
    ensures DiffersAt(Name(ALPHABETICAL[i]), Name(ALPHABETICAL[i + 1]), NextDifference(i))
  {
  }

  lemma NextIsLater(i: nat)
    requires i < 21
    ensures Less(Name(ALPHABETICAL[i]), Name(ALPHABETICAL[i + 1]))
  {
    NextDiffers(i);
    LessAt(Name(ALPHABETICAL[i]), Name(ALPHABETICAL[i + 1]), NextDifference(i));
  }

  ghost predicate Ascends(ks: seq<Key>) {
    forall i, j :: 0 <= i < j < |ks| ==> Less(Name(ks[i]), Name(ks[j]))
  }

  lemma {:induction false} Chain(names: seq<string>, i: nat, j: nat)
    requires i < j < |names| && forall n :: 0 <= n < |names| - 1 ==> Less(names[n], names[n + 1])
    ensures Less(names[i], names[j])
    decreases j
  {
    assert Less(names[j - 1], names[j - 1 + 1]);
    if i < j - 1 {
      Chain(names, i, j - 1);
      LessTransitive(names[i], names[j - 1], names[j]);
    }
  }

  /** The place of a name in the alphabet. */
  function Place(k: Key): nat {
    match k
    case KAddresses => 0
    case KAdminPubkey => 1
    case KAdminSignature => 2
    case KData => 3
    case KHandle => 4
    case KKind => 5
    case KLan => 6
    case KPayload => 7
    case KPeer => 8
    case KPeers => 9
    case KPubkey => 10
    case KPublic => 11
    case KRequestId => 12
    case KSessionId => 13
    case KSignature => 14
    case KTargetHandle => 15
    case KTargetPubkey => 16
    case KTeamId => 17
    case KTeamName => 18
    case KTimestamp => 19
    case KTo => 20
    case KType => 21
  }

  lemma EveryKeyHasItsPlace(k: Key)
    ensures Place(k) < |ALPHABETICAL| && ALPHABETICAL[Place(k)] == k
  {
  }

  lemma AlphabeticalAscends(ks: seq<Key>)
    requires ks == ALPHABETICAL
    ensures Ascends(ks) && forall k: Key :: k in ks
  {
    var names := seq(|ks|, i requires 0 <= i < |ks| => Name(ks[i]));
    forall n | 0 <= n < |ks| - 1 ensures Less(names[n], names[n + 1]) { NextIsLater(n); }
    forall i, j | 0 <= i < j < |ks| ensures Less(Name(ks[i]), Name(ks[j])) { Chain(names, i, j); }
    forall k: Key ensures k in ks { EveryKeyHasItsPlace(k); }
  }

  // ---------------------------------------------------------------- objects

  /** The members of an object that `ks` names, in the order of `ks`. */
  function InOrder(ks: seq<Key>, o: Object): seq<Field> {
    if ks == [] then []
    else (if ks[0] in o then [Field(Name(ks[0]), o[ks[0]])] else []) + InOrder(ks[1..], o)
  }

  lemma {:induction false} FieldsInOrder(ks: seq<Key>, o: Object, i: nat) returns (j: nat)
    requires i < |InOrder(ks, o)|
    ensures j < |ks| && ks[j] in o && InOrder(ks, o)[i] == Field(Name(ks[j]), o[ks[j]])
  {
    if ks[0] in o && i == 0 {
      j := 0;
    } else {
      var n := FieldsInOrder(ks[1..], o, if ks[0] in o then i - 1 else i);
      j := n + 1;
    }
  }

  lemma {:induction false} InOrderHas(ks: seq<Key>, o: Object, k: Key)
    requires k in ks && k in o
    ensures Field(Name(k), o[k]) in InOrder(ks, o)
  {
    if ks[0] != k { InOrderHas(ks[1..], o, k); }
  }

  lemma {:induction false} InOrderSorted(ks: seq<Key>, o: Object)
    requires Ascends(ks)
    ensures Sorted(InOrder(ks, o))
  {
    if ks != [] {
      InOrderSorted(ks[1..], o);
      var fs := InOrder(ks[1..], o);
      forall i | 0 <= i < |fs| ensures Less(Name(ks[0]), fs[i].key) {
        var j := FieldsInOrder(ks[1..], o, i);
        assert Less(Name(ks[0]), Name(ks[j + 1]));
      }
    }
  }

  lemma FieldIsNamed(ks: seq<Key>, o: Object, fs: seq<Field>, s: string)
    requires fs == InOrder(ks, o) && Distinct(fs) && s in MapOf(fs)
    ensures s in Named(o) && Named(o)[s] == MapOf(fs)[s]
  {
    NamesInjective();
    var i := MapOfKeys(fs, s);
    MapOfHas(fs, i);
    var j := FieldsInOrder(ks, o, i);
    NamedByMember(Name, o, ks[j]);
  }

  lemma NamedIsField(ks: seq<Key>, o: Object, fs: seq<Field>, s: string)
    requires fs == InOrder(ks, o) && (forall k :: k in o ==> k in ks) && s in Named(o)
    ensures s in MapOf(fs)
  {
    var k :| k in o && Name(k) == s;
    InOrderHas(ks, o, k);
    var i :| 0 <= i < |fs| && fs[i] == Field(Name(k), o[k]);
    MapOfHas(fs, i);
  }

  lemma InOrderIsListing(ks: seq<Key>, o: Object, fs: seq<Field>)
    requires Ascends(ks) && (forall k :: k in o ==> k in ks) && fs == InOrder(ks, o)
    ensures fs == Listing(Named(o))
  {
    InOrderSorted(ks, o);
    SortedDistinct(fs);
    forall s: string
      ensures s in MapOf(fs) ==> s in Named(o) && Named(o)[s] == MapOf(fs)[s]
      ensures s in Named(o) ==> s in MapOf(fs)
    {
      if s in MapOf(fs) { FieldIsNamed(ks, o, fs, s); }
      if s in Named(o) { NamedIsField(ks, o, fs, s); }
    }
    assert MapOf(fs) == Named(o);
    SortedUnique(Listing(Named(o)), fs);
  }

  /** The signed bytes of a message are its members in alphabetical order, `signature` empty, in UTF-8. */
  lemma CanonicalOrder(m: ClientMessage)
    ensures CanonicalBytes(m) == Utf8.Encode(Print(JObj(InOrder(ALPHABETICAL, CanonicalObject(m)))))
  {
    AlphabeticalAscends(ALPHABETICAL);
    InOrderIsListing(ALPHABETICAL, CanonicalObject(m), InOrder(ALPHABETICAL, CanonicalObject(m)));
  }

  // ---------------------------------------------------------------- a whole text

  lemma {:induction false} PlainText(s: string)
    requires Plain(s)
    ensures Escape(s) == s
  {
    if s != "" {
      PlainText(s[1..]);
      assert s == [s[0]] + s[1..];
    }
  }

  /** One member as it is written. */
  function Member(name: string, value: string): string {
    "\"" + name + "\":" + value
  }

  predicate Plain(s: string) {
    forall i :: 0 <= i < |s| ==> s[i] >= ' ' && s[i] != '"' && s[i] != '\\'
  }

  lemma PlainMember(f: Field)
    requires Plain(f.key)
    ensures PrintField(f) == Member(f.key, Print(f.value))
  {
    PlainText(f.key);
    assert "\"" + f.key + "\"" + ":" + Print(f.value) == "\"" + f.key + "\":" + Print(f.value);
  }

  lemma PlainNames()
    ensures Plain("pubkey") && Plain("signature") && Plain("timestamp") && Plain("type")
  {
  }

  lemma MoreFields(f: Field, fs: seq<Field>)
    ensures PrintFields([f] + fs) == "," + PrintField(f) + PrintFields(fs)
  {
    assert ([f] + fs)[1..] == fs;
  }

  lemma ObjectText(f: Field, fs: seq<Field>)
    ensures Print(JObj([f] + fs)) == "{" + PrintField(f) + PrintFields(fs)
  {
    assert ([f] + fs)[1..] == fs;
    assert "{" + (PrintField(f) + PrintFields(fs)) == "{" + PrintField(f) + PrintFields(fs);
  }

  lemma FourFields(a: Field, b: Field, c: Field, d: Field, bcd: seq<Field>, cd: seq<Field>, last: seq<Field>)
    requires last == [d] + [] && cd == [c] + last && bcd == [b] + cd
    ensures Print(JObj([a] + bcd)) ==
      "{" + PrintField(a) + ("," + PrintField(b) + ("," + PrintField(c) + ("," + PrintField(d) + "}")))
  {
    ObjectText(a, bcd);
    MoreFields(b, cd);
    MoreFields(c, last);
    MoreFields(d, []);
  }

  lemma InOrderFour(ks: seq<Key>, o: Object)
    requires |ks| == 4 && forall i :: 0 <= i < 4 ==> ks[i] in o
    ensures InOrder(ks, o) == [Field(Name(ks[0]), o[ks[0]])] + ([Field(Name(ks[1]), o[ks[1]])]
      + ([Field(Name(ks[2]), o[ks[2]])] + ([Field(Name(ks[3]), o[ks[3]])] + [])))
  {
    var k1, k2, k3 := ks[1..], ks[2..], ks[3..];
    assert k1[1..] == k2 && k2[1..] == k3 && k3[1..] == [];
    assert InOrder(k3, o) == [Field(Name(ks[3]), o[ks[3]])] + InOrder([], o);
    assert InOrder(k2, o) == [Field(Name(ks[2]), o[ks[2]])] + InOrder(k3, o);
    assert InOrder(k1, o) == [Field(Name(ks[1]), o[ks[1]])] + InOrder(k2, o);
  }

  lemma ListingOfFour(ks: seq<Key>, o: Object)
    requires |ks| == 4 && Ascends(ks) && forall k :: k in o <==> k in ks
    ensures Listing(Named(o)) == [Field(Name(ks[0]), o[ks[0]])] + ([Field(Name(ks[1]), o[ks[1]])]
      + ([Field(Name(ks[2]), o[ks[2]])] + ([Field(Name(ks[3]), o[ks[3]])] + [])))
  {
    InOrderIsListing(ks, o, InOrder(ks, o));
    InOrderFour(ks, o);
  }

  lemma PingObject(m: ClientMessage, o: Object, ks: seq<Key>)
    requires m.Ping? && o == CanonicalObject(m) && ks == [KPubkey, KSignature, KTimestamp, KType]
    ensures (forall k :: k in o <==> k in ks) && o[KPubkey] == JStr(m.pubkey) && o[KSignature] == JStr("")
    ensures o[KTimestamp] == JInt(m.timestamp) && o[KType] == JStr("ping")
  {
  }

  lemma PingAscends(ks: seq<Key>)
    requires ks == [KPubkey, KSignature, KTimestamp, KType]
    ensures Ascends(ks)
  {
    AlphabeticalAscends(ALPHABETICAL);
    forall i, j | 0 <= i < j < |ks| ensures Less(Name(ks[i]), Name(ks[j])) {
      EveryKeyHasItsPlace(ks[i]);
      EveryKeyHasItsPlace(ks[j]);
    }
  }

  /** What is signed for a ping, to the letter. */
  lemma PingText(m: ClientMessage)
    requires m.Ping?
    ensures CanonicalBytes(m) == Utf8.Encode(
      "{" + Member("pubkey", PrintString(m.pubkey)) + ("," + Member("signature", PrintString("")) + (","
      + Member("timestamp", PrintInt(m.timestamp)) + ("," + Member("type", PrintString("ping")) + "}"))))
  {
    PingObject(m, CanonicalObject(m), [KPubkey, KSignature, KTimestamp, KType]);
    PingFields(m.pubkey, m.timestamp, CanonicalObject(m));
    PingParts(m);
  }

  lemma PingFields(pubkey: string, timestamp: int, o: Object)
    requires forall k :: k in o <==> k in [KPubkey, KSignature, KTimestamp, KType]
    requires o[KPubkey] == JStr(pubkey) && o[KSignature] == JStr("")
    requires o[KTimestamp] == JInt(timestamp) && o[KType] == JStr("ping")
    ensures Listing(Named(o)) == [Field("pubkey", JStr(pubkey))] + ([Field("signature", JStr(""))]
      + ([Field("timestamp", JInt(timestamp))] + ([Field("type", JStr("ping"))] + [])))
  {
    var ks := [KPubkey, KSignature, KTimestamp, KType];
    PingAscends(ks);
    ListingOfFour(ks, o);
    Spelling();
  }

  lemma PingParts(m: ClientMessage)
    ensures Print(JObj([Field("pubkey", JStr(m.pubkey))] + ([Field("signature", JStr(""))]
              + ([Field("timestamp", JInt(m.timestamp))] + ([Field("type", JStr("ping"))] + []))))) ==
      "{" + Member("pubkey", PrintString(m.pubkey)) + ("," + Member("signature", PrintString("")) + (","
      + Member("timestamp", PrintInt(m.timestamp)) + ("," + Member("type", PrintString("ping")) + "}")))
  {
    var a, b := Field("pubkey", JStr(m.pubkey)), Field("signature", JStr(""));
    var c, d := Field("timestamp", JInt(m.timestamp)), Field("type", JStr("ping"));
    PlainNames();
    PlainMember(a);
    PlainMember(b);
    PlainMember(c);
    PlainMember(d);
    FourFields(a, b, c, d, [b] + ([c] + ([d] + [])), [c] + ([d] + []), [d] + []);
  }
}
