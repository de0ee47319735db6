/** What the handshake guarantees against a network that delivers whatever it likes. */
module HandshakeAgreement {
  import opened Wrappers
  import opened Bytes
  import opened CanonicalJson
  import JsMaps
  import opened ResponderAuth
  import opened DataHandshake
  import Base64

  /** `r` is the node's end of the client's handshake. */
  ghost predicate Matches(k: Crypto, c: Client, accept: seq<Entry>, r: Run) {
    && Completed(k, r) && r.nodeId == c.nodeId
    && RunTranscript(k, r) == ClientTranscript(k, c, accept)
  }

  function PartsIn(k: Crypto, runs: set<Run>): set<ProofParts> {
    set r | r in runs && Completed(k, r) && RunProof(k, r).Some? :: RunProof(k, r).value
  }

  lemma SignedAreParts(k: Crypto, runs: set<Run>)
    ensures forall s :: s in SignedIn(k, runs) ==>
              exists q :: q in PartsIn(k, runs) && s.payload == CanonicalBytes(k.t, Obj(UnsignedProof(q)))
  {
    forall s | s in SignedIn(k, runs)
      ensures exists q :: q in PartsIn(k, runs) && s.payload == CanonicalBytes(k.t, Obj(UnsignedProof(q)))
    {
      var r :| r in runs && Completed(k, r) && s == SignatureOf(k, r);
      assert RunProof(k, r).value in PartsIn(k, runs);
    }
  }

  /** An accepted proof comes from a completed run with the client's own transcript. */
  lemma ProofHasRun(k: Crypto, runs: set<Run>, c: Client, accept: seq<Entry>, now: int) returns (r: Run)
    requires InjectiveDigest(k) && DistinctKeys(ProofOf(accept))
    requires var binding := ChannelBinding(k, ClientTranscript(k, c, accept));
             var challenge := CreateChallenge(c.nodeId, now, c.nonce, binding);
             VerifyProof(k.t, SignedIn(k, runs), ProofOf(accept), challenge, c.nodeId, now).None?
    ensures r in runs && Matches(k, c, accept, r)
    ensures now - MAX_AGE - CLOCK_TOLERANCE <= r.now <= now + CLOCK_TOLERANCE
  {
    var binding := ChannelBinding(k, ClientTranscript(k, c, accept));
    SignedAreParts(k, runs);
    var p := VerifiedWasSigned(k.t, SignedIn(k, runs), PartsIn(k, runs), ProofOf(accept),
                               CreateChallenge(c.nodeId, now, c.nonce, binding), c.nodeId, now);
    r :| r in runs && Completed(k, r) && RunProof(k, r) == Some(p);
    Base64.DecodeEncode(binding);
    Base64.DecodeEncode(ChannelBinding(k, RunTranscript(k, r)));
    BindingIsInjective(k, RunTranscript(k, r), ClientTranscript(k, c, accept));
  }

  /** Matching ends derive the two sides of one session. */
  lemma MatchingSessions(k: Crypto, c: Client, accept: seq<Entry>, r: Run)
    requires Commutes(k) && Matches(k, c, accept, r) && ClientSession(k, c, accept).Some?
    ensures RunSession(k, r).Some? && Crossed(ClientSession(k, c, accept).value, RunSession(k, r).value)
  {
    Base64.DecodeEncode(k.pub(c.privateKey));
    Base64.DecodeEncode(k.pub(r.privateKey));
    Base64.DecodeEncode(c.nonce);
    Base64.DecodeEncode(r.nodeNonce);
    SessionsCross(k, c.privateKey, r.privateKey, c.nonce, r.nodeNonce, ChannelBinding(k, RunTranscript(k, r)));
  }

  /** Main result, agreement: when the client completes, the node with the pinned key ran
      `acceptDataInit` on exactly this client key and nonce; both hold the same transcript,
      the same session id and crossed keys; and the run is recent. */
  lemma Agreement(k: Crypto, runs: set<Run>, c: Client, accept: Json, now: int) returns (r: Run)
    requires InjectiveDigest(k) && Commutes(k) && DistinctKeys(ProofOf(Properties(accept)))
    requires DeriveClientSession(k, SignedIn(k, runs), c, accept, now).Ok?
    ensures r in runs && Matches(k, c, Properties(accept), r)
    ensures Text(Properties(r.init), "client_public_key") == Base64.Encode(k.pub(c.privateKey))
    ensures Text(Properties(r.init), "client_nonce") == Base64.Encode(c.nonce)
    ensures Crossed(DeriveClientSession(k, SignedIn(k, runs), c, accept, now).value, AcceptDataInit(k, r).value.session)
    ensures now - MAX_AGE - CLOCK_TOLERANCE <= r.now <= now + CLOCK_TOLERANCE
  {
    var es := Properties(accept);
    r := ProofHasRun(k, runs, c, es, now);
    MatchingSessions(k, c, es, r);
  }

  lemma EncodeInjective(a: bytes, b: bytes)
    requires Base64.Encode(a) == Base64.Encode(b)
    ensures a == b
  {
    Base64.DecodeEncode(a);
    Base64.DecodeEncode(b);
  }

  /** Main result, injectivity: no two clients with fresh keys or nonces share a run of the
      node, and no two runs with fresh keys or nonces serve one completion. */
  lemma OneRunPerClient(k: Crypto, c: Client, accept: seq<Entry>, d: Client, accept': seq<Entry>, r: Run)
    requires Commutes(k) && Matches(k, c, accept, r) && Matches(k, d, accept', r)
    ensures c.privateKey == d.privateKey && c.nonce == d.nonce && c.nodeId == d.nodeId
  {
    EncodeInjective(k.pub(c.privateKey), k.pub(d.privateKey));
    EncodeInjective(c.nonce, d.nonce);
  }

  lemma OneClientPerRun(k: Crypto, c: Client, accept: seq<Entry>, r: Run, q: Run)
    requires Commutes(k) && Matches(k, c, accept, r) && Matches(k, c, accept, q)
    ensures r.privateKey == q.privateKey && r.nodeNonce == q.nodeNonce && r.nodeId == q.nodeId
  {
    EncodeInjective(k.pub(r.privateKey), k.pub(q.privateKey));
    EncodeInjective(r.nodeNonce, q.nodeNonce);
  }

  // ---------- Keys ----------

  lemma DirectionsDiffer()
    ensures UP != DOWN
  {
    assert UP[|CHANNEL_INFO| + 1] != DOWN[|CHANNEL_INFO| + 1];
  }

  /** The two directions of a session use different keys, so nothing a peer sealed opens as
      if the other had sealed it. */
  lemma KeysDiffer(k: Crypto, client: bool, a: nat, peer: bytes, cn: bytes, sn: bytes, transcript: bytes)
    requires InjectiveKdf(k) && DeriveSession(k, client, a, peer, cn, sn, transcript).Some?
    ensures var s := DeriveSession(k, client, a, peer, cn, sn, transcript).value; s.sendKey != s.receiveKey
  {
    DirectionsDiffer();
  }

  /** The node's receiving key; its sending key is derived from the same secret and salt. */
  lemma RunKeys(k: Crypto, r: Run) returns (secret: bytes, salt: bytes)
    requires RunSession(k, r).Some?
    ensures RunSession(k, r).value.receiveKey == k.hkdf(secret, salt, UP)
    ensures RunSession(k, r).value.sendKey == k.hkdf(secret, salt, DOWN)
    ensures salt == k.sha256(RunClientNonce(r) + r.nodeNonce + ChannelBinding(k, RunTranscript(k, r)))
  {
    var peer := Base64.Decode(Text(Properties(r.init), "client_public_key"));
    secret := k.dh(r.privateKey, peer).value;
    salt := k.sha256(RunClientNonce(r) + r.nodeNonce + ChannelBinding(k, RunTranscript(k, r)));
  }

  predicate ShareKey(s: Session, t: Session) {
    s.receiveKey == t.receiveKey || s.sendKey == t.sendKey || s.receiveKey == t.sendKey || s.sendKey == t.receiveKey
  }

  lemma SharedKeySharesSalt(k: Crypto, s: Session, secret: bytes, salt: bytes, t: Session, secret': bytes, salt': bytes)
    requires InjectiveKdf(k) && ShareKey(s, t)
    requires s.receiveKey == k.hkdf(secret, salt, UP) && s.sendKey == k.hkdf(secret, salt, DOWN)
    requires t.receiveKey == k.hkdf(secret', salt', UP) && t.sendKey == k.hkdf(secret', salt', DOWN)
    ensures salt == salt'
  {
  }

  lemma SaltEndsInBinding(k: Crypto, a: bytes, b: bytes, x: Transcript, y: Transcript)
    requires InjectiveDigest(k) && InjectiveKdf(k)
    requires k.sha256(a + ChannelBinding(k, x)) == k.sha256(b + ChannelBinding(k, y))
    ensures x == y
  {
    assert a + ChannelBinding(k, x) == b + ChannelBinding(k, y);
    BindingIsInjective(k, x, y);
  }

  /** No key serves two transcripts: runs that share a key in any direction agree on the node,
      on both public keys and on both nonces. */
  lemma KeyDeterminesTranscript(k: Crypto, r: Run, q: Run)
    requires InjectiveDigest(k) && InjectiveKdf(k) && RunSession(k, r).Some? && RunSession(k, q).Some?
    requires ShareKey(RunSession(k, r).value, RunSession(k, q).value)
    ensures RunTranscript(k, r) == RunTranscript(k, q)
  {
    var secret, salt := RunKeys(k, r);
    var secret', salt' := RunKeys(k, q);
    SharedKeySharesSalt(k, RunSession(k, r).value, secret, salt, RunSession(k, q).value, secret', salt');
    SaltEndsInBinding(k, RunClientNonce(r) + r.nodeNonce, RunClientNonce(q) + q.nodeNonce,
                      RunTranscript(k, r), RunTranscript(k, q));
  }

  // ---------- Honest exchanges complete ----------

  lemma InitFields(k: Crypto, c: Client)
    ensures var es := Properties(CreateDataInit(k, c));
            forall i :: 0 <= i < |INIT_KEYS| ==> FieldOf(es, INIT_KEYS[i]) == InitValues(k, c)[i]
  {
    JsMaps.NoDupIff(INIT_KEYS);
    BuiltFields(INIT_KEYS, InitValues(k, c));
  }

  lemma GoodOwnInit(k: Crypto, c: Client)
    requires Commutes(k) && c.nodeId != "" && c.nonce != []
    ensures var es := Properties(CreateDataInit(k, c));
            && GoodInit(es) && FieldOf(es, "node_id") == Some(Str(c.nodeId))
            && Text(es, "client_public_key") == ClientKeyText(k, c) && Text(es, "client_nonce") == ClientNonceText(c)
  {
    var es, values := Properties(CreateDataInit(k, c)), InitValues(k, c);
    InitFields(k, c);
    EncodedIsGood(k.pub(c.privateKey));
    EncodedIsGood(c.nonce);
    assert FieldOf(es, INIT_KEYS[0]) == values[0] && FieldOf(es, INIT_KEYS[1]) == values[1];
    assert FieldOf(es, INIT_KEYS[2]) == values[2] && FieldOf(es, INIT_KEYS[3]) == values[3];
    assert FieldOf(es, INIT_KEYS[4]) == values[4] && FieldOf(es, INIT_KEYS[5]) == values[5];
    assert FieldOf(es, INIT_KEYS[6]) == values[6];
  }

  lemma HonestRunSession(k: Crypto, c: Client, r: Run)
    requires Commutes(k) && c.nodeId != "" && |c.nonce| >= MIN_NONCE
    requires r.init == CreateDataInit(k, c) && |r.nodeNonce| == 32
    ensures RunClientNonce(r) == c.nonce && RunSession(k, r).Some?
  {
    var es := Properties(r.init);
    GoodOwnInit(k, c);
    Base64.DecodeEncode(k.pub(c.privateKey));
    Base64.DecodeEncode(c.nonce);
    assert Text(es, "client_public_key") == ClientKeyText(k, c);
    assert RunClientNonce(r) == c.nonce;
    SessionsCross(k, c.privateKey, r.privateKey, c.nonce, r.nodeNonce, ChannelBinding(k, RunTranscript(k, r)));
  }

  lemma HonestRunProof(k: Crypto, r: Run)
    requires InjectiveDigest(k) && r.nodeId != "" && RunClientNonce(r) != []
    ensures RunProof(k, r).Some?
  {
    EncodedIsGood(RunClientNonce(r));
    EncodedIsGood(ChannelBinding(k, RunTranscript(k, r)));
  }

  /** An object of this protocol, of this type. */
  predicate IsMessage(es: seq<Entry>, kind: string) {
    && FieldOf(es, "type") == Some(Str(kind)) && FieldOf(es, "protocol") == Some(Str("consensus-data-plane"))
    && FieldOf(es, "version") == Some(Num(Whole(1)))
  }

  lemma RunSessionIff(k: Crypto, r: Run)
    ensures RunSession(k, r).Some? <==>
            && |RunClientNonce(r)| >= MIN_NONCE && |r.nodeNonce| >= MIN_NONCE
            && k.dh(r.privateKey, Base64.Decode(Text(Properties(r.init), "client_public_key"))).Some?
  {
  }

  lemma RunProofIff(k: Crypto, r: Run)
    ensures RunProof(k, r).Some? <==>
            r.nodeId != "" && RunClientNonce(r) != [] && ChannelBinding(k, RunTranscript(k, r)) != []
  {
    Base64.DecodeEncode(RunClientNonce(r));
    Base64.DecodeEncode(ChannelBinding(k, RunTranscript(k, r)));
    if RunClientNonce(r) != [] { EncodedIsGood(RunClientNonce(r)); }
    if ChannelBinding(k, RunTranscript(k, r)) != [] { EncodedIsGood(ChannelBinding(k, RunTranscript(k, r))); }
  }

  /** The node answers an init exactly when it is one of this protocol for this very node, with a
      key and a nonce that stand for bytes and a time, the nonce is long enough and the key agrees
      with the node's own. */
  lemma AcceptedIff(k: Crypto, r: Run)
    requires InjectiveDigest(k) && |r.nodeNonce| >= MIN_NONCE
    ensures var es := Properties(r.init);
            AcceptDataInit(k, r).Some? <==>
            && IsMessage(es, "data_init") && r.nodeId != "" && FieldOf(es, "node_id") == Some(Str(r.nodeId))
            && ByteText(FieldOf(es, "client_public_key")) && ByteText(FieldOf(es, "client_nonce"))
            && FieldOf(es, "timestamp").Some? && FieldOf(es, "timestamp").value.Num?
            && |Base64.Decode(FieldOf(es, "client_nonce").value.s)| >= MIN_NONCE
            && k.dh(r.privateKey, Base64.Decode(FieldOf(es, "client_public_key").value.s)).Some?
  {
    RunSessionIff(k, r);
    RunProofIff(k, r);
  }

  /** The client completes exactly when the accept is one of this protocol with a key that stands for
      bytes, a session id and a proof, the proof verifies for this client's challenge and
      transcript, both ends' keys agree, and the session id is the derived one; and then the
      session is the derived one. */
  lemma CompletedIff(k: Crypto, signed: set<Signature>, c: Client, accept: Json, now: int)
    ensures var es := Properties(accept);
            var session := ClientSession(k, c, es);
            var challenge := CreateChallenge(c.nodeId, now, c.nonce, ChannelBinding(k, ClientTranscript(k, c, es)));
            && (DeriveClientSession(k, signed, c, accept, now).Ok? <==>
                  && IsMessage(es, "data_accept") && ByteText(FieldOf(es, "node_public_key"))
                  && FieldOf(es, "proof").Some?
                  && (FieldOf(es, "proof").value.Obj? || FieldOf(es, "proof").value.Arr?)
                  && VerifyProof(k.t, signed, ProofOf(es), challenge, c.nodeId, now).None?
                  && session.Some? && session.value.id != ""
                  && FieldOf(es, "session_id") == Some(Str(session.value.id)))
            && (DeriveClientSession(k, signed, c, accept, now).Ok? ==>
                  DeriveClientSession(k, signed, c, accept, now).value == session.value)
  {
  }

  /** A node accepts the init of a client that wants to reach it. */
  lemma HonestInitIsAccepted(k: Crypto, c: Client, r: Run)
    requires InjectiveDigest(k) && Commutes(k) && c.nodeId != "" && |c.nonce| >= MIN_NONCE
    requires r.init == CreateDataInit(k, c) && r.nodeId == c.nodeId && |r.nodeNonce| == 32 && r.sig != []
    ensures Completed(k, r)
  {
    GoodOwnInit(k, c);
    HonestRunSession(k, c, r);
    HonestRunProof(k, r);
  }

  lemma AcceptKeysDistinct()
    ensures JsMaps.NoDup(ACCEPT_KEYS)
  {
    JsMaps.NoDupIff(ACCEPT_KEYS);
  }

  lemma AcceptFields(k: Crypto, r: Run, s: Session, p: ProofParts)
    ensures var es := Build(ACCEPT_KEYS, AcceptValues(k, r, s, p));
            && HasType(es, "data_accept")
            && FieldOf(es, "node_public_key") == Some(Str(Base64.Encode(k.pub(r.privateKey))))
            && FieldOf(es, "session_id") == Some(Str(s.id))
            && FieldOf(es, "proof") == Some(Obj(SignedProof(p, r.sig)))
  {
    var values := AcceptValues(k, r, s, p);
    var es := Build(ACCEPT_KEYS, values);
    AcceptKeysDistinct();
    BuiltFields(ACCEPT_KEYS, values);
    assert FieldOf(es, ACCEPT_KEYS[0]) == values[0] && FieldOf(es, ACCEPT_KEYS[1]) == values[1];
    assert FieldOf(es, ACCEPT_KEYS[2]) == values[2] && FieldOf(es, ACCEPT_KEYS[3]) == values[3];
    assert FieldOf(es, ACCEPT_KEYS[4]) == values[4] && FieldOf(es, ACCEPT_KEYS[5]) == values[5];
  }

  /** What the client reads in the accept of a run. */
  lemma AcceptReads(k: Crypto, r: Run)
    requires Ideal(k) && Completed(k, r)
    ensures var a := AcceptDataInit(k, r).value;
            var es := Properties(a.message);
            && GoodAccept(es) && ProofOf(es) == SignedProof(a.parts, r.sig)
            && Text(es, "node_public_key") == Base64.Encode(k.pub(r.privateKey))
            && Text(es, "session_id") == a.session.id
            && Text(ProofOf(es), "node_nonce") == Base64.Encode(r.nodeNonce)
  {
    var a := AcceptDataInit(k, r).value;
    AcceptFields(k, r, a.session, a.parts);
    EncodedIsGood(k.pub(r.privateKey));
    DerivedIdIsText(k, false, r.privateKey, Base64.Decode(Text(Properties(r.init), "client_public_key")),
                    RunClientNonce(r), r.nodeNonce, ChannelBinding(k, RunTranscript(k, r)));
    SignedFields(a.parts, r.sig);
    EncodedIsGood(r.nodeNonce);
    assert FieldOf(SignedProof(a.parts, r.sig), PROOF_KEYS[4]) == ProofValues(a.parts)[4];
  }

  lemma ProofIsDistinct(k: Crypto, r: Run)
    requires Ideal(k) && Completed(k, r)
    ensures DistinctKeys(ProofOf(Properties(AcceptDataInit(k, r).value.message)))
  {
    AcceptReads(k, r);
    SignedFields(AcceptDataInit(k, r).value.parts, r.sig);
  }

  /** The other direction: on an honest network, inside the time window, the client completes. */
  lemma HonestExchangeCompletes(k: Crypto, runs: set<Run>, c: Client, r: Run, now: int)
    requires Ideal(k) && c.nodeId != "" && |c.nonce| >= MIN_NONCE
    requires r in runs && Completed(k, r) && r.init == CreateDataInit(k, c) && r.nodeId == c.nodeId
    requires now - MAX_AGE - CLOCK_TOLERANCE <= r.now <= now + CLOCK_TOLERANCE
    ensures var a := AcceptDataInit(k, r).value;
            var s := DeriveClientSession(k, SignedIn(k, runs), c, a.message, now);
            s.Ok? && Crossed(s.value, a.session)
  {
    var a := AcceptDataInit(k, r).value;
    var es := Properties(a.message);
    GoodOwnInit(k, c);
    AcceptReads(k, r);
    assert RunTranscript(k, r) == ClientTranscript(k, c, es);
    var binding := ChannelBinding(k, RunTranscript(k, r));
    Base64.DecodeEncode(c.nonce);
    ChallengeTimeIsFree(k, c, r, binding, now);
    assert SignatureOf(k, r) in SignedIn(k, runs);
    var challenge := CreateChallenge(c.nodeId, now, c.nonce, binding);
    SignedVerifies(k.t, SignedIn(k, runs), challenge, c.nodeId, r.now, r.nodeNonce, r.sig, now);
    HonestSession(k, c, es, r);
  }

  lemma HonestSession(k: Crypto, c: Client, accept: seq<Entry>, r: Run)
    requires Commutes(k) && Matches(k, c, accept, r) && |c.nonce| >= MIN_NONCE
    ensures ClientSession(k, c, accept).Some?
    ensures RunSession(k, r).Some? && Crossed(ClientSession(k, c, accept).value, RunSession(k, r).value)
  {
    Base64.DecodeEncode(k.pub(r.privateKey));
    Base64.DecodeEncode(r.nodeNonce);
    assert k.dh(c.privateKey, k.pub(r.privateKey)).Some?;
    MatchingSessions(k, c, accept, r);
  }

  /** The challenge's own time is not signed: the node's and the client's give one proof. */
  lemma ChallengeTimeIsFree(k: Crypto, c: Client, r: Run, binding: bytes, now: int)
    requires Completed(k, r) && r.nodeId == c.nodeId && RunClientNonce(r) == c.nonce
    requires binding == ChannelBinding(k, RunTranscript(k, r))
    ensures var challenge := CreateChallenge(c.nodeId, now, c.nonce, binding);
            SignChallenge(challenge, c.nodeId, r.now, r.nodeNonce) == RunProof(k, r)
  {
  }
}
