/** How a node proves its identity: it signs a challenge, and the client checks the signature
    against the pinned key, together with everything the proof says. */
module ResponderAuth {
  import opened Wrappers
  import opened Bytes
  import opened CanonicalJson
  import JsMaps
  import Base64

  const PROTOCOL := "consensus-node-responder-auth"
  const VERSION := Whole(1)
  const CLOCK_TOLERANCE := 5
  const MAX_AGE := 30

  /** The text of canonical JSON, as bytes. */
  datatype Printer = Printer(text: Json -> bytes)

  ghost predicate Injective(t: Printer) { forall v, w :: t.text(v) == t.text(w) ==> v == w }

  function CanonicalBytes(t: Printer, v: Json): bytes { t.text(DeepSort(v)) }

  /** One signature made with the pinned key. */
  datatype Signature = Signature(payload: bytes, sig: bytes)

  /** `createChallenge`: nonce and binding are base64 text. */
  datatype Challenge = Challenge(nodeId: string, clientNonce: string, timestamp: int, binding: string)

  function CreateChallenge(nodeId: string, now: int, clientNonce: bytes, binding: bytes): Challenge {
    Challenge(nodeId, Base64.Encode(clientNonce), now, Base64.Encode(binding))
  }

  function NonEmptyText(v: Option<Json>): Option<string> {
    match v
    case Some(Str(s)) => if s == "" then None else Some(s)
    case _ => None
  }

  /** A non-empty base64 text that stands for at least one byte. */
  function DecodeField(v: Option<Json>): Option<bytes> {
    match NonEmptyText(v)
    case None => None
    case Some(s) => if Base64.Decode(s) == [] then None else Some(Base64.Decode(s))
  }

  predicate GoodChallenge(c: Challenge) {
    && c.nodeId != "" && DecodeField(Some(Str(c.binding))).Some? && DecodeField(Some(Str(c.clientNonce))).Some?
  }

  // ---------- Signing ----------

  const PROOF_KEYS :=
    ["protocol", "version", "node_id", "client_nonce", "node_nonce", "timestamp", "channel_binding"]

  /** The fields of a proof, without its signature. */
  datatype ProofParts = ProofParts(
    nodeId: string, clientNonce: string, nodeNonce: string, timestamp: int, binding: string)

  function ProofValues(p: ProofParts): seq<Option<Json>> {
    [Some(Str(PROTOCOL)), Some(Num(VERSION)), Some(Str(p.nodeId)), Some(Str(p.clientNonce)), Some(Str(p.nodeNonce)),
     Some(Num(Whole(p.timestamp))), Some(Str(p.binding))]
  }

  function UnsignedProof(p: ProofParts): seq<Entry> { Build(PROOF_KEYS, ProofValues(p)) }

  function SigningPayload(t: Printer, es: seq<Entry>): bytes { CanonicalBytes(t, Obj(WithoutKey(es, "signature"))) }

  /** The object without one of its properties. */
  function WithoutKey(es: seq<Entry>, k: string): seq<Entry> {
    if es == [] then []
    else if es[0].key == k then WithoutKey(es[1..], k)
    else [es[0]] + WithoutKey(es[1..], k)
  }

  function SignedProof(p: ProofParts, sig: bytes): seq<Entry> {
    UnsignedProof(p) + [Entry("signature", Str(Base64.Encode(sig)))]
  }

  /** `signChallenge`; `None` when it throws. */
  function SignChallenge(c: Challenge, nodeId: string, now: int, nodeNonce: bytes): Option<ProofParts> {
    if !GoodChallenge(c) || c.nodeId != nodeId then None
    else Some(ProofParts(nodeId, c.clientNonce, Base64.Encode(nodeNonce), now, c.binding))
  }

  // ---------- Verifying ----------

  datatype AuthError =
    BadChallenge | BadProof | WrongNode | WrongNonce | WrongBinding | FromTheFuture | Stale | BadSignature

  /** The shape a proof must have. */
  predicate WellShaped(es: seq<Entry>) {
    && FieldOf(es, "protocol") == Some(Str(PROTOCOL)) && FieldOf(es, "version") == Some(Num(VERSION))
    && NonEmptyText(FieldOf(es, "node_id")).Some?
    && (FieldOf(es, "timestamp").Some? && FieldOf(es, "timestamp").value.Num?)
    && (FieldOf(es, "channel_binding").Some? ==> DecodeField(FieldOf(es, "channel_binding")).Some?)
    && DecodeField(FieldOf(es, "client_nonce")).Some? && DecodeField(FieldOf(es, "node_nonce")).Some?
    && NonEmptyText(FieldOf(es, "signature")).Some?
  }

  predicate Signs(t: Printer, s: Signature, es: seq<Entry>) {
    s.payload == SigningPayload(t, es) && NonEmptyText(FieldOf(es, "signature")).Some?
    && s.sig == Base64.Decode(NonEmptyText(FieldOf(es, "signature")).value)
  }

  /** `None` when the proof is accepted. `signed` is everything the pinned key has signed. */
  ghost function VerifyProof(
      t: Printer, signed: set<Signature>, es: seq<Entry>, c: Challenge, nodeId: string, now: int): Option<AuthError>
  {
    if !GoodChallenge(c) then Some(BadChallenge)
    else if !WellShaped(es) then Some(BadProof)
    else if FieldOf(es, "node_id") != Some(Str(nodeId)) || c.nodeId != nodeId then Some(WrongNode)
    else if FieldOf(es, "client_nonce") != Some(Str(c.clientNonce)) then Some(WrongNonce)
    else if FieldOf(es, "channel_binding") != Some(Str(c.binding)) then Some(WrongBinding)
    else if Above(FieldOf(es, "timestamp").value.n, now + CLOCK_TOLERANCE) then Some(FromTheFuture)
    else if Below(FieldOf(es, "timestamp").value.n, now - MAX_AGE - CLOCK_TOLERANCE) then Some(Stale)
    else if !exists s :: s in signed && Signs(t, s, es) then Some(BadSignature)
    else None
  }

  // ---------- What the signature covers ----------

  lemma {:induction false} WithoutKeyField(es: seq<Entry>, k: string, x: string)
    ensures FieldOf(WithoutKey(es, k), x) == if x == k then None else FieldOf(es, x)
  {
    if es != [] { WithoutKeyField(es[1..], k, x); }
  }

  lemma {:induction false} WithoutKeyDistinct(es: seq<Entry>, k: string)
    requires DistinctKeys(es)
    ensures DistinctKeys(WithoutKey(es, k))
  {
    if es != [] {
      WithoutKeyDistinct(es[1..], k);
      WithoutKeyField(es[1..], k, es[0].key);
      assert FieldOf(es[1..], es[0].key).None?;
    }
  }

  lemma ProofKeysDistinct()
    ensures JsMaps.NoDup(PROOF_KEYS) && "signature" !in PROOF_KEYS
  {
    JsMaps.NoDupIff(PROOF_KEYS);
  }

  lemma UnsignedFields(p: ProofParts)
    ensures var es := UnsignedProof(p);
            && DistinctKeys(es) && FieldOf(es, "signature").None?
            && forall i :: 0 <= i < |PROOF_KEYS| ==> FieldOf(es, PROOF_KEYS[i]) == ProofValues(p)[i]
  {
    ProofKeysDistinct();
    BuiltFields(PROOF_KEYS, ProofValues(p));
    if HasKey(UnsignedProof(p), "signature") { BuiltKeys(PROOF_KEYS, ProofValues(p), "signature"); }
  }

  lemma {:induction false} AppendField(es: seq<Entry>, e: Entry, x: string)
    ensures FieldOf(es + [e], x) ==
            if FieldOf(es, x).Some? then FieldOf(es, x) else if x == e.key then Some(e.value) else None
  {
    if es == [] {
      assert es + [e] == [e] && [e][1..] == [];
    } else {
      assert (es + [e])[1..] == es[1..] + [e];
      AppendField(es[1..], e, x);
    }
  }

  lemma {:induction false} WithoutAppended(es: seq<Entry>, e: Entry)
    requires FieldOf(es, e.key).None?
    ensures WithoutKey(es + [e], e.key) == es
  {
    if es == [] {
      assert es + [e] == [e] && [e][1..] == [];
    } else {
      assert (es + [e])[1..] == es[1..] + [e];
      assert FieldOf(es[1..], e.key).None?;
      WithoutAppended(es[1..], e);
    }
  }

  /** Signing a signed proof's payload is signing the unsigned one. */
  lemma PayloadOfSigned(t: Printer, p: ProofParts, sig: bytes)
    ensures SigningPayload(t, SignedProof(p, sig)) == CanonicalBytes(t, Obj(UnsignedProof(p)))
  {
    UnsignedFields(p);
    WithoutAppended(UnsignedProof(p), Entry("signature", Str(Base64.Encode(sig))));
  }

  /** A payload that was signed determines every field, whatever else the object holds. */
  lemma PayloadDeterminesFields(t: Printer, es: seq<Entry>, p: ProofParts, i: nat)
    requires Injective(t) && DistinctKeys(es) && i < |PROOF_KEYS|
    requires SigningPayload(t, es) == CanonicalBytes(t, Obj(UnsignedProof(p)))
    ensures FieldOf(es, PROOF_KEYS[i]) == ProofValues(p)[i]
  {
    var k := PROOF_KEYS[i];
    UnsignedFields(p);
    WithoutKeyDistinct(es, "signature");
    SameSortedKey(WithoutKey(es, "signature"), UnsignedProof(p), k);
    WithoutKeyField(es, "signature", k);
    FlatValue(FieldOf(es, k), ProofValues(p)[i]);
  }

  lemma FlatValue(v: Option<Json>, w: Option<Json>)
    requires v.Some? && w.Some? && DeepSort(v.value) == DeepSort(w.value) && (w.value.Str? || w.value.Num?)
    ensures v == w
  {
  }

  /** A verified proof was signed: with this node id, nonces, binding and time. */
  lemma VerifiedWasSigned(
      t: Printer, signed: set<Signature>, parts: set<ProofParts>, es: seq<Entry>,
      c: Challenge, nodeId: string, now: int)
    returns (p: ProofParts)
    requires Injective(t) && DistinctKeys(es)
    requires forall s :: s in signed ==> exists q :: q in parts && s.payload == CanonicalBytes(t, Obj(UnsignedProof(q)))
    requires VerifyProof(t, signed, es, c, nodeId, now).None?
    ensures p in parts && p.nodeId == nodeId && p.clientNonce == c.clientNonce && p.binding == c.binding
    ensures FieldOf(es, "node_nonce") == Some(Str(p.nodeNonce))
    ensures FieldOf(es, "timestamp") == Some(Num(Whole(p.timestamp)))
    ensures now - MAX_AGE - CLOCK_TOLERANCE <= p.timestamp <= now + CLOCK_TOLERANCE
  {
    var s :| s in signed && Signs(t, s, es);
    p :| p in parts && s.payload == CanonicalBytes(t, Obj(UnsignedProof(p)));
    PayloadDeterminesFields(t, es, p, 2);
    PayloadDeterminesFields(t, es, p, 3);
    PayloadDeterminesFields(t, es, p, 4);
    PayloadDeterminesFields(t, es, p, 5);
    PayloadDeterminesFields(t, es, p, 6);
  }

  lemma SignedFields(p: ProofParts, sig: bytes)
    ensures var es := SignedProof(p, sig);
            && DistinctKeys(es) && FieldOf(es, "signature") == Some(Str(Base64.Encode(sig)))
            && forall i :: 0 <= i < |PROOF_KEYS| ==> FieldOf(es, PROOF_KEYS[i]) == ProofValues(p)[i]
  {
    var es, e := UnsignedProof(p), Entry("signature", Str(Base64.Encode(sig)));
    UnsignedFields(p);
    AppendField(es, e, "signature");
    forall i | 0 <= i < |PROOF_KEYS| ensures FieldOf(es + [e], PROOF_KEYS[i]) == ProofValues(p)[i] {
      AppendField(es, e, PROOF_KEYS[i]);
    }
    AppendDistinct(es, e);
  }

  lemma {:induction false} AppendDistinct(es: seq<Entry>, e: Entry)
    requires DistinctKeys(es) && FieldOf(es, e.key).None?
    ensures DistinctKeys(es + [e])
  {
    if es == [] {
      assert es + [e] == [e] && [e][1..] == [];
    } else {
      assert (es + [e])[1..] == es[1..] + [e];
      assert FieldOf(es[1..], e.key).None?;
      AppendDistinct(es[1..], e);
      AppendField(es[1..], e, es[0].key);
      assert FieldOf(es[1..], es[0].key).None?;
    }
  }

  lemma EncodedIsGood(b: bytes)
    requires b != []
    ensures Base64.Encode(b) != "" && DecodeField(Some(Str(Base64.Encode(b)))) == Some(b)
  {
    Base64.DecodeEncode(b);
    Base64.PrintHasNoDot(Base64.ToSextets(b), false);
    Base64.EncodedLength(b);
  }

  /** The proof a node signs for a challenge is accepted for that challenge, in its window. */
  lemma SignedVerifies(
      t: Printer, signed: set<Signature>, c: Challenge, nodeId: string, signedAt: int,
      nodeNonce: bytes, sig: bytes, now: int)
    requires SignChallenge(c, nodeId, signedAt, nodeNonce).Some? && nodeNonce != [] && sig != []
    requires var p := SignChallenge(c, nodeId, signedAt, nodeNonce).value;
             Signature(CanonicalBytes(t, Obj(UnsignedProof(p))), sig) in signed
    requires now - MAX_AGE - CLOCK_TOLERANCE <= signedAt <= now + CLOCK_TOLERANCE
    ensures var p := SignChallenge(c, nodeId, signedAt, nodeNonce).value;
            VerifyProof(t, signed, SignedProof(p, sig), c, nodeId, now).None?
  {
    var p := SignChallenge(c, nodeId, signedAt, nodeNonce).value;
    var es := SignedProof(p, sig);
    var values := ProofValues(p);
    SignedFields(p, sig);
    EncodedIsGood(nodeNonce);
    EncodedIsGood(sig);
    Base64.DecodeEncode(sig);
    PayloadOfSigned(t, p, sig);
    assert FieldOf(es, PROOF_KEYS[0]) == values[0] && FieldOf(es, PROOF_KEYS[1]) == values[1];
    assert FieldOf(es, PROOF_KEYS[2]) == values[2] && FieldOf(es, PROOF_KEYS[3]) == values[3];
    assert FieldOf(es, PROOF_KEYS[4]) == values[4] && FieldOf(es, PROOF_KEYS[5]) == values[5];
    assert FieldOf(es, PROOF_KEYS[6]) == values[6];
    assert Signs(t, Signature(CanonicalBytes(t, Obj(UnsignedProof(p))), sig), es);
  }

  // ---------- Exactly what is accepted ----------

  /** A text that stands for at least one byte. */
  predicate ByteText(v: Option<Json>) { v.Some? && v.value.Str? && v.value.s != "" && Base64.Decode(v.value.s) != [] }

  /** A number of the window around `now`. */
  predicate InWindow(v: Option<Json>, now: int) {
    && v.Some? && v.value.Num?
    && !Above(v.value.n, now + CLOCK_TOLERANCE) && !Below(v.value.n, now - MAX_AGE - CLOCK_TOLERANCE)
  }

  /** A proof is accepted exactly when the challenge is this node's and stands for bytes, the proof
      names protocol, version, node, client nonce and binding of the challenge, has a node nonce
      and a time inside the window, and carries a signature that was made of the rest of it. */
  lemma VerifiesIff(t: Printer, signed: set<Signature>, es: seq<Entry>, c: Challenge, nodeId: string, now: int)
    ensures VerifyProof(t, signed, es, c, nodeId, now).None? <==>
            && nodeId != "" && c.nodeId == nodeId
            && ByteText(Some(Str(c.binding))) && ByteText(Some(Str(c.clientNonce)))
            && FieldOf(es, "protocol") == Some(Str(PROTOCOL)) && FieldOf(es, "version") == Some(Num(VERSION))
            && FieldOf(es, "node_id") == Some(Str(nodeId))
            && FieldOf(es, "client_nonce") == Some(Str(c.clientNonce))
            && FieldOf(es, "channel_binding") == Some(Str(c.binding))
            && ByteText(FieldOf(es, "node_nonce")) && InWindow(FieldOf(es, "timestamp"), now)
            && exists s :: s in signed && s.payload == CanonicalBytes(t, Obj(WithoutKey(es, "signature")))
                 && exists text ::
                      text != "" && FieldOf(es, "signature") == Some(Str(text)) && s.sig == Base64.Decode(text)
  {
    if s :| s in signed && Signs(t, s, es) {
      var text := NonEmptyText(FieldOf(es, "signature")).value;
      assert text != "" && FieldOf(es, "signature") == Some(Str(text)) && s.sig == Base64.Decode(text);
    }
    forall s, text
      | s in signed && s.payload == CanonicalBytes(t, Obj(WithoutKey(es, "signature")))
        && text != "" && FieldOf(es, "signature") == Some(Str(text)) && s.sig == Base64.Decode(text)
      ensures Signs(t, s, es) {}
  }
}
