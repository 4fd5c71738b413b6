/** Client and broker together: what the SDK sends is what the broker accepts, and what was signed is what is
    handled. */
module EndToEnd {
  import opened Common
  import opened JsonText
  import opened Tree
  import opened Protocol
  import opened Broker
  import opened Sign

  /** The last member of that name, as a JSON object keeps it. */
  function LastMember(fs: seq<Field>, name: string): Option<Json> {
    if fs == [] then None
    else if fs[|fs| - 1].key == name then Some(fs[|fs| - 1].value)
    else LastMember(fs[..|fs| - 1], name)
  }

  /** `parse_request_id`: the request id of any JSON object that has one, whatever else it is. */
  function RequestIdIn(text: string): Option<string> {
    var j :- Parse(text);
    var id :- if j.JObj? then LastMember(j.fs, "request_id") else None;
    if id.JStr? then Some(id.s) else None
  }

  lemma {:induction false} LastMemberIs(fs: seq<Field>, i: nat)
    requires Distinct(fs) && i < |fs|
    ensures LastMember(fs, fs[i].key) == Some(fs[i].value)
    decreases |fs|
  {
    if i < |fs| - 1 {
      assert fs[i].key != fs[|fs| - 1].key;
      LastMemberIs(fs[..|fs| - 1], i);
    }
  }

  /** An error about a call of the SDK carries the call's own request id, so that it finds its way back to the call. */
  lemma ErrorsFindTheirCall(env: Env, call: Call, pubkey: string, now: I64, rid: string, addr: Json, order: seq<Key>,
      sig: string)
    requires Standard(env) && Awaits(call)
    requires Enumerates(order, Draft(call, pubkey, now, rid, addr)[KSignature := JStr(sig)])
    ensures env.requestIdOf(SentText(order, Draft(call, pubkey, now, rid, addr), sig)) == Some(rid)
  {
    var o := Draft(call, pubkey, now, rid, addr)[KSignature := JStr(sig)];
    DraftHasId(call, pubkey, now, rid, addr, sig, o);
    SentIdIs(order, o, rid);
  }

  lemma DraftHasId(call: Call, pubkey: string, now: I64, rid: string, addr: Json, sig: string, o: Object)
    requires Awaits(call) && o == Draft(call, pubkey, now, rid, addr)[KSignature := JStr(sig)]
    ensures KRequestId in o && o[KRequestId] == JStr(rid)
  {
  }

  lemma SentIdIs(order: seq<Key>, o: Object, rid: string)
    requires Enumerates(order, o) && KRequestId in o && o[KRequestId] == JStr(rid)
    ensures RequestIdIn(Print(JObj(Arranged(order, o)))) == Some(rid)
  {
    var fs := Arranged(order, o);
    ParsePrint(JObj(fs));
    NamesInjective();
    assert Distinct(fs);
    var i :| 0 <= i < |order| && order[i] == KRequestId;
    assert fs[i] == Field("request_id", JStr(rid));
    LastMemberIs(fs, i);
  }

  /** The broker reads messages and recomputes signed bytes as the protocol says. */
  ghost predicate Standard(env: Env) {
    && (forall text: string :: env.parse(text) == Decode(text))
    && (forall m: ClientMessage :: env.canonical(m) == CanonicalBytes(m))
    && (forall text: string :: env.requestIdOf(text) == RequestIdIn(text))
  }

  /** The broker's other checks: a key and a signature that decode, and a fresh timestamp. */
  predicate WellFormed(env: Env, m: ClientMessage, utc: int) {
    env.keyOk(m.pubkey) && env.signatureOk(m.signature) && -MAX_DRIFT <= Drift(utc, m.timestamp) <= MAX_DRIFT
  }

  lemma VerifyIs(env: Env, m: ClientMessage, utc: int)
    requires WellFormed(env, m, utc)
    ensures Verify(env, m, utc).None? <==> env.verify(m.pubkey, env.canonical(m), m.signature)
  {
  }

  /** A frame the SDK signed over the bytes it computed is accepted as just the message the caller meant, exactly when
      the signature verifies over those bytes. */
  lemma SentIsAccepted(env: Env, call: Call, pubkey: string, now: I64, rid: string, addr: Json, order: seq<Key>,
      sig: string, utc: int)
    requires Standard(env) && AddressArgument(call, addr)
    requires Enumerates(order, Draft(call, pubkey, now, rid, addr)[KSignature := JStr(sig)])
    requires WellFormed(env, Intended(call, pubkey, now, rid, sig), utc)
    ensures
      var draft := Draft(call, pubkey, now, rid, addr);
      Accepted(env, pubkey, SentText(order, draft, sig), utc) == Ok(Intended(call, pubkey, now, rid, sig))
      <==> env.verify(pubkey, SigningBytes(order, draft), sig)
  {
    var m := Intended(call, pubkey, now, rid, sig);
    SignedBytesAgree(call, pubkey, now, rid, addr, order, sig);
    VerifyIs(env, m, utc);
    IntendedKey(call, pubkey, now, rid, sig);
  }

  lemma IntendedKey(call: Call, pubkey: string, now: I64, rid: string, sig: string)
    ensures Intended(call, pubkey, now, rid, sig).pubkey == pubkey &&
      Intended(call, pubkey, now, rid, sig).signature == sig
  {
  }

  lemma BytesAreMeant(call: Call, p: string, now: I64, rid: string, addr: Json, order: seq<Key>, m: ClientMessage,
      meant: ClientMessage)
    requires AddressArgument(call, addr) && meant == Intended(call, p, now, rid, "")
    requires Enumerates(order, Draft(call, p, now, rid, addr)[KSignature := JStr("")])
    requires CanonicalBytes(m) == SigningBytes(order, Draft(call, p, now, rid, addr))
    ensures Unsigned(m) == Unsigned(meant)
  {
    SignedBytesAgree(call, p, now, rid, addr, order, "");
    CanonicalBytesInjective(m, meant);
  }

  /** A message accepted because its bytes are bytes the SDK signed is, but for the signature, the message the caller
      meant, whatever text carried it. */
  lemma AcceptedIsMeant(env: Env, call: Call, now: I64, rid: string, addr: Json, order: seq<Key>, p: string,
      text: string, utc: int, m: ClientMessage)
    requires Standard(env) && AddressArgument(call, addr) && Accepted(env, p, text, utc) == Ok(m)
    requires Enumerates(order, Draft(call, p, now, rid, addr)[KSignature := JStr("")])
    requires env.canonical(m) == SigningBytes(order, Draft(call, p, now, rid, addr))
    ensures Decode(text) == Some(m) && Unsigned(m) == Unsigned(Intended(call, p, now, rid, ""))
  {
    BytesAreMeant(call, p, now, rid, addr, order, m, Intended(call, p, now, rid, ""));
  }
}
