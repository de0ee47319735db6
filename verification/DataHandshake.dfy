/** The data-plane handshake: a client and a node agree on a session, and the client knows
    which node it talks to. Cryptography is symbolic. */
module DataHandshake {
  import opened Wrappers
  import opened Bytes
  import opened CanonicalJson
  import JsMaps
  import opened ResponderAuth
  import Base64

  const HANDSHAKE_PROTOCOL := "consensus-data-plane"
  const HANDSHAKE_VERSION := Whole(1)
  const CHANNEL_INFO := "consensus-node-tunnel-v1"
  const UP := CHANNEL_INFO + ":client-to-server"
  const DOWN := CHANNEL_INFO + ":server-to-client"
  const SESSION_ID := CHANNEL_INFO + ":session-id"
  const MIN_NONCE := 16

  /** Private keys are numbers; `dh` is `None` for a public key that does not import. */
  datatype Crypto = Crypto(
    t: Printer,
    sha256: bytes -> bytes,
    pub: nat -> bytes,
    dh: (nat, bytes) -> Option<bytes>,
    hkdf: (bytes, bytes, string) -> bytes,
    hex: bytes -> string)

  ghost predicate InjectiveDigest(k: Crypto) {
    && Injective(k.t)
    && (forall a, b :: k.sha256(a) == k.sha256(b) ==> a == b)
    && (forall a :: k.sha256(a) != [])
  }

  ghost predicate Commutes(k: Crypto) {
    && (forall a, b :: k.pub(a) == k.pub(b) ==> a == b)
    && (forall a :: k.pub(a) != [])
    && (forall a, b :: k.dh(a, k.pub(b)).Some? && k.dh(a, k.pub(b)) == k.dh(b, k.pub(a)))
  }

  /** Derived keys differ unless everything they derive from agrees, and no digest ends in
      another. */
  ghost predicate InjectiveKdf(k: Crypto) {
    && (forall s, salt, info, s', salt', info' :: k.hkdf(s, salt, info) == k.hkdf(s', salt', info') ==>
          s == s' && salt == salt' && info == info')
    && (forall a, b, x, y :: a + k.sha256(x) == b + k.sha256(y) ==> k.sha256(x) == k.sha256(y))
    && (forall x :: k.hex(x) != "")
  }

  /** Only the holders of the two private keys can compute a shared secret. */
  ghost predicate OnlyEnds(k: Crypto) {
    forall a, b, x, p :: k.dh(x, p).Some? && k.dh(x, p) == k.dh(a, k.pub(b)) ==> x == a || x == b
  }

  ghost predicate Ideal(k: Crypto) { InjectiveDigest(k) && Commutes(k) && InjectiveKdf(k) }

  // ---------- The transcript ----------

  datatype Transcript = Transcript(
    nodeId: string, clientPublicKey: string, clientNonce: string, nodePublicKey: string, nodeNonce: string)

  const TRANSCRIPT_KEYS :=
    ["protocol", "version", "node_id", "client_public_key", "client_nonce", "node_public_key", "node_nonce"]

  function TranscriptValues(x: Transcript): seq<Option<Json>> {
    [Some(Str(HANDSHAKE_PROTOCOL)), Some(Num(HANDSHAKE_VERSION)), Some(Str(x.nodeId)), Some(Str(x.clientPublicKey)),
     Some(Str(x.clientNonce)), Some(Str(x.nodePublicKey)), Some(Str(x.nodeNonce))]
  }

  function TranscriptJson(x: Transcript): Json { Obj(Build(TRANSCRIPT_KEYS, TranscriptValues(x))) }

  function ChannelBinding(k: Crypto, x: Transcript): bytes { k.sha256(CanonicalBytes(k.t, TranscriptJson(x))) }

  lemma TranscriptKeysDistinct()
    ensures JsMaps.NoDup(TRANSCRIPT_KEYS)
  {
    JsMaps.NoDupIff(TRANSCRIPT_KEYS);
  }

  lemma TranscriptFields(x: Transcript)
    ensures var es := TranscriptJson(x).entries;
            && DistinctKeys(es)
            && forall i :: 0 <= i < |TRANSCRIPT_KEYS| ==> FieldOf(es, TRANSCRIPT_KEYS[i]) == TranscriptValues(x)[i]
  {
    TranscriptKeysDistinct();
    BuiltFields(TRANSCRIPT_KEYS, TranscriptValues(x));
  }

  lemma SameTranscriptField(x: Transcript, y: Transcript, i: nat)
    requires i < |TRANSCRIPT_KEYS| && DeepSort(TranscriptJson(x)) == DeepSort(TranscriptJson(y))
    ensures TranscriptValues(x)[i] == TranscriptValues(y)[i]
  {
    TranscriptFields(x);
    TranscriptFields(y);
    SameSortedKey(TranscriptJson(x).entries, TranscriptJson(y).entries, TRANSCRIPT_KEYS[i]);
    FlatValue(TranscriptValues(x)[i], TranscriptValues(y)[i]);
  }

  /** The binding commits to both public keys, both nonces and the node. */
  lemma BindingIsInjective(k: Crypto, x: Transcript, y: Transcript)
    requires InjectiveDigest(k) && ChannelBinding(k, x) == ChannelBinding(k, y)
    ensures x == y
  {
    SameTranscriptField(x, y, 2);
    SameTranscriptField(x, y, 3);
    SameTranscriptField(x, y, 4);
    SameTranscriptField(x, y, 5);
    SameTranscriptField(x, y, 6);
  }

  // ---------- Sessions ----------

  datatype Session = Session(id: string, sendKey: bytes, receiveKey: bytes)

  /** `deriveSecureSession`; `None` when it throws. */
  function DeriveSession(
      k: Crypto, client: bool, privateKey: nat, peer: bytes, clientNonce: bytes, serverNonce: bytes, transcript: bytes)
    : Option<Session>
  {
    if |clientNonce| < MIN_NONCE || |serverNonce| < MIN_NONCE then None
    else
      match k.dh(privateKey, peer)
      case None => None
      case Some(secret) =>
        var salt := k.sha256(clientNonce + serverNonce + transcript);
        var up := k.hkdf(secret, salt, UP);
        var down := k.hkdf(secret, salt, DOWN);
        var id := k.hex(k.hkdf(secret, salt, SESSION_ID));
        Some(if client then Session(id, up, down) else Session(id, down, up))
  }

  /** The same channel, seen from its two ends. */
  predicate Crossed(a: Session, b: Session) { a.id == b.id && a.sendKey == b.receiveKey && a.receiveKey == b.sendKey }

  lemma SessionsCross(k: Crypto, a: nat, b: nat, clientNonce: bytes, serverNonce: bytes, transcript: bytes)
    requires Commutes(k) && |clientNonce| >= MIN_NONCE && |serverNonce| >= MIN_NONCE
    ensures var x := DeriveSession(k, true, a, k.pub(b), clientNonce, serverNonce, transcript);
            var y := DeriveSession(k, false, b, k.pub(a), clientNonce, serverNonce, transcript);
            x.Some? && y.Some? && Crossed(x.value, y.value)
  {
    assert k.dh(a, k.pub(b)) == k.dh(b, k.pub(a));
  }

  lemma DerivedIdIsText(
      k: Crypto, client: bool, privateKey: nat, peer: bytes, clientNonce: bytes, serverNonce: bytes, transcript: bytes)
    requires InjectiveKdf(k)
    ensures var s := DeriveSession(k, client, privateKey, peer, clientNonce, serverNonce, transcript);
            s.Some? ==> s.value.id != ""
  {
  }

  // ---------- The client's init ----------

  datatype Client = Client(nodeId: string, privateKey: nat, nonce: bytes, timestamp: int)

  function ClientKeyText(k: Crypto, c: Client): string { Base64.Encode(k.pub(c.privateKey)) }

  function ClientNonceText(c: Client): string { Base64.Encode(c.nonce) }

  const INIT_KEYS := ["type", "protocol", "version", "node_id", "client_public_key", "client_nonce", "timestamp"]

  function InitValues(k: Crypto, c: Client): seq<Option<Json>> {
    [Some(Str("data_init")), Some(Str(HANDSHAKE_PROTOCOL)), Some(Num(HANDSHAKE_VERSION)), Some(Str(c.nodeId)),
     Some(Str(ClientKeyText(k, c))), Some(Str(ClientNonceText(c))), Some(Num(Whole(c.timestamp)))]
  }

  function CreateDataInit(k: Crypto, c: Client): Json { Obj(Build(INIT_KEYS, InitValues(k, c))) }

  /** The properties of an object; any other value has none. */
  function Properties(v: Json): seq<Entry> { if v.Obj? then v.entries else [] }

  function Text(es: seq<Entry>, k: string): string {
    match NonEmptyText(FieldOf(es, k)) case None => "" case Some(s) => s
  }

  predicate HasType(es: seq<Entry>, kind: string) {
    && FieldOf(es, "type") == Some(Str(kind)) && FieldOf(es, "protocol") == Some(Str(HANDSHAKE_PROTOCOL))
    && FieldOf(es, "version") == Some(Num(HANDSHAKE_VERSION))
  }

  predicate GoodInit(es: seq<Entry>) {
    && HasType(es, "data_init") && NonEmptyText(FieldOf(es, "node_id")).Some?
    && DecodeField(FieldOf(es, "client_public_key")).Some? && DecodeField(FieldOf(es, "client_nonce")).Some?
    && FieldOf(es, "timestamp").Some? && FieldOf(es, "timestamp").value.Num?
  }

  // ---------- The node's accept ----------

  /** One call of `acceptDataInit`: what came in, and what was drawn at random. */
  datatype Run = Run(init: Json, nodeId: string, privateKey: nat, nodeNonce: bytes, now: int, sig: bytes)

  function RunTranscript(k: Crypto, r: Run): Transcript {
    var es := Properties(r.init);
    Transcript(r.nodeId, Text(es, "client_public_key"), Text(es, "client_nonce"),
               Base64.Encode(k.pub(r.privateKey)), Base64.Encode(r.nodeNonce))
  }

  function RunClientNonce(r: Run): bytes { Base64.Decode(Text(Properties(r.init), "client_nonce")) }

  function RunSession(k: Crypto, r: Run): Option<Session> {
    DeriveSession(k, false, r.privateKey, Base64.Decode(Text(Properties(r.init), "client_public_key")),
                  RunClientNonce(r), r.nodeNonce, ChannelBinding(k, RunTranscript(k, r)))
  }

  function RunProof(k: Crypto, r: Run): Option<ProofParts> {
    SignChallenge(CreateChallenge(r.nodeId, r.now, RunClientNonce(r), ChannelBinding(k, RunTranscript(k, r))),
                  r.nodeId, r.now, r.nodeNonce)
  }

  const ACCEPT_KEYS := ["type", "protocol", "version", "node_public_key", "session_id", "proof"]

  function AcceptValues(k: Crypto, r: Run, s: Session, p: ProofParts): seq<Option<Json>> {
    [Some(Str("data_accept")), Some(Str(HANDSHAKE_PROTOCOL)), Some(Num(HANDSHAKE_VERSION)),
     Some(Str(Base64.Encode(k.pub(r.privateKey)))), Some(Str(s.id)), Some(Obj(SignedProof(p, r.sig)))]
  }

  datatype Accepted = Accepted(message: Json, session: Session, parts: ProofParts)

  /** `None` when it throws. */
  function AcceptDataInit(k: Crypto, r: Run): Option<Accepted> {
    if !GoodInit(Properties(r.init)) || FieldOf(Properties(r.init), "node_id") != Some(Str(r.nodeId)) then None
    else
      match RunSession(k, r)
      case None => None
      case Some(s) =>
        match RunProof(k, r)
        case None => None
        case Some(p) => Some(Accepted(Obj(Build(ACCEPT_KEYS, AcceptValues(k, r, s, p))), s, p))
  }

  /** A run that went through, with random values of the right size. */
  predicate Completed(k: Crypto, r: Run) {
    AcceptDataInit(k, r).Some? && |r.nodeNonce| == 32 && r.sig != []
  }

  /** The pinned key signs only in completed runs. */
  function SignedIn(k: Crypto, runs: set<Run>): set<Signature> {
    set r | r in runs && Completed(k, r) :: SignatureOf(k, r)
  }

  function SignatureOf(k: Crypto, r: Run): Signature {
    match RunProof(k, r)
    case None => Signature([], [])
    case Some(p) => Signature(CanonicalBytes(k.t, Obj(UnsignedProof(p))), r.sig)
  }

  // ---------- The client's completion ----------

  datatype HandshakeError = BadAccept | BadAuth(error: AuthError) | NoSession | SessionMismatch

  predicate GoodAccept(es: seq<Entry>) {
    && HasType(es, "data_accept") && DecodeField(FieldOf(es, "node_public_key")).Some?
    && NonEmptyText(FieldOf(es, "session_id")).Some?
    && FieldOf(es, "proof").Some? && (FieldOf(es, "proof").value.Obj? || FieldOf(es, "proof").value.Arr?)
  }

  function ProofOf(es: seq<Entry>): seq<Entry> {
    match FieldOf(es, "proof") case None => [] case Some(v) => Properties(v)
  }

  function ClientTranscript(k: Crypto, c: Client, accept: seq<Entry>): Transcript {
    Transcript(c.nodeId, ClientKeyText(k, c), ClientNonceText(c), Text(accept, "node_public_key"),
               Text(ProofOf(accept), "node_nonce"))
  }

  function ClientSession(k: Crypto, c: Client, accept: seq<Entry>): Option<Session> {
    DeriveSession(k, true, c.privateKey, Base64.Decode(Text(accept, "node_public_key")), c.nonce,
                  Base64.Decode(Text(ProofOf(accept), "node_nonce")), ChannelBinding(k, ClientTranscript(k, c, accept)))
  }

  /** `accept` is whatever the network delivered. */
  ghost function DeriveClientSession(k: Crypto, signed: set<Signature>, c: Client, accept: Json, now: int)
    : Result<Session, HandshakeError>
  {
    var es := Properties(accept);
    if !GoodAccept(es) then Err(BadAccept)
    else
      var binding := ChannelBinding(k, ClientTranscript(k, c, es));
      match VerifyProof(k.t, signed, ProofOf(es), CreateChallenge(c.nodeId, now, c.nonce, binding), c.nodeId, now)
      case Some(x) => Err(BadAuth(x))
      case None =>
        match ClientSession(k, c, es)
        case None => Err(NoSession)
        case Some(s) => if s.id != Text(es, "session_id") then Err(SessionMismatch) else Ok(s)
  }
}
