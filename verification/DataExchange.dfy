/** One request and one response over a handshake: `runDataRequest` at the client, one data
    connection at the node, and outsiders that seal whatever they can. */
module DataExchange {
  import opened Wrappers
  import opened Bytes
  import opened CanonicalJson
  import opened ResponderAuth
  import opened DataHandshake
  import opened HandshakeAgreement
  import Frames
  import SecureChannel
  import Base64

  /** A client that completed the handshake, with the accept it received and when. */
  datatype Completion = Completion(client: Client, accept: Json, now: int)

  /** Everything that happened: runs of the node, completions, the private keys of outsiders,
      and all seals. `request` and `response` are the one frame that each end sealed. */
  datatype History = History(
    runs: set<Run>,
    completions: set<Completion>,
    outsiders: set<nat>,
    seals: set<SecureChannel.Seal>,
    request: Completion -> SecureChannel.Seal,
    response: Run -> Option<SecureChannel.Seal>)

  /** What the handshake returned to the client. */
  ghost function SessionOf(k: Crypto, h: History, d: Completion): Result<Session, HandshakeError> {
    DeriveClientSession(k, SignedIn(k, h.runs), d.client, d.accept, d.now)
  }

  function Accept(d: Completion): seq<Entry> { Properties(d.accept) }

  /** Completions are handshakes that succeeded, against the runs there were; each client
      drew its own key, and seals under its sending key. */
  ghost predicate CompletionsAreReal(k: Crypto, h: History) {
    && (forall d :: d in h.completions ==>
          && SessionOf(k, h, d).Ok? && DistinctKeys(ProofOf(Accept(d)))
          && h.request(d).key == SessionOf(k, h, d).value.sendKey)
    && (forall c, d ::
          c in h.completions && d in h.completions && c.client.privateKey == d.client.privateKey ==> c == d)
  }

  /** Each run drew its own key, and seals under its sending key. */
  ghost predicate RunsAreReal(k: Crypto, h: History) {
    && (forall r :: r in h.runs && h.response(r).Some? ==>
          RunSession(k, r).Some? && h.response(r).value.key == RunSession(k, r).value.sendKey)
    && (forall r, q :: r in h.runs && q in h.runs && r.privateKey == q.privateKey ==> r == q)
  }

  ghost predicate KeysAreKept(h: History) {
    && (forall d :: d in h.completions ==> d.client.privateKey !in h.outsiders)
    && (forall r :: r in h.runs ==> r.privateKey !in h.outsiders)
  }

  predicate IsRequest(h: History, c: Completion, s: SecureChannel.Seal) { c in h.completions && s == h.request(c) }

  predicate IsResponse(h: History, r: Run, s: SecureChannel.Seal) { r in h.runs && h.response(r) == Some(s) }

  ghost predicate FromAnEnd(h: History, s: SecureChannel.Seal) {
    (exists c :: IsRequest(h, c, s)) || (exists r :: IsResponse(h, r, s))
  }

  /** An outsider has this secret: from one of its private keys and some public key. */
  ghost predicate Reaches(k: Crypto, h: History, secret: bytes) {
    exists x, p :: x in h.outsiders && k.dh(x, p) == Some(secret)
  }

  /** Sealed by an outsider: if the key is derived at all, then from a secret it has. */
  ghost predicate FromOutside(k: Crypto, h: History, s: SecureChannel.Seal) {
    forall secret, salt, info :: s.key == k.hkdf(secret, salt, info) ==> Reaches(k, h, secret)
  }

  ghost predicate RealHistory(k: Crypto, h: History) {
    && SecureChannel.Ideal(h.seals) && CompletionsAreReal(k, h) && RunsAreReal(k, h) && KeysAreKept(h)
    && forall s :: s in h.seals ==> FromAnEnd(h, s) || FromOutside(k, h, s)
  }

  ghost predicate Sound(k: Crypto, h: History) {
    DataHandshake.Ideal(k) && OnlyEnds(k) && RealHistory(k, h)
  }

  // ---------- Keys ----------

  /** The client's two keys, derived from the secret it shares with `peer`. */
  ghost predicate DerivedFrom(k: Crypto, s: Session, secret: bytes, salt: bytes) {
    s.sendKey == k.hkdf(secret, salt, UP) && s.receiveKey == k.hkdf(secret, salt, DOWN)
  }

  lemma ClientKeys(k: Crypto, c: Client, accept: seq<Entry>) returns (secret: bytes, salt: bytes, nonces: bytes)
    requires ClientSession(k, c, accept).Some?
    ensures DerivedFrom(k, ClientSession(k, c, accept).value, secret, salt)
    ensures k.dh(c.privateKey, Base64.Decode(Text(accept, "node_public_key"))) == Some(secret)
    ensures salt == k.sha256(nonces + ChannelBinding(k, ClientTranscript(k, c, accept)))
  {
    secret := k.dh(c.privateKey, Base64.Decode(Text(accept, "node_public_key"))).value;
    nonces := c.nonce + Base64.Decode(Text(ProofOf(accept), "node_nonce"));
    salt := k.sha256(nonces + ChannelBinding(k, ClientTranscript(k, c, accept)));
  }

  lemma CompletionIsOwn(k: Crypto, h: History, d: Completion)
    requires SessionOf(k, h, d).Ok?
    ensures ClientSession(k, d.client, Accept(d)) == Some(SessionOf(k, h, d).value)
  {
  }

  /** The run a completed handshake ended with. */
  lemma EndsWith(k: Crypto, h: History, d: Completion) returns (r: Run)
    requires DataHandshake.Ideal(k) && CompletionsAreReal(k, h) && d in h.completions
    ensures r in h.runs && Matches(k, d.client, Accept(d), r)
    ensures RunSession(k, r).Some? && Crossed(SessionOf(k, h, d).value, RunSession(k, r).value)
  {
    r := Agreement(k, h.runs, d.client, d.accept, d.now);
    CompletionIsOwn(k, h, d);
    MatchingSessions(k, d.client, Accept(d), r);
  }

  /** The secret of a matching pair is the one of their two private keys. */
  lemma SecretOfMatch(k: Crypto, c: Client, accept: seq<Entry>, r: Run)
    requires Matches(k, c, accept, r)
    ensures Base64.Decode(Text(accept, "node_public_key")) == k.pub(r.privateKey)
  {
    Base64.DecodeEncode(k.pub(r.privateKey));
  }

  /** Derived, not assumed: no outsider seals under a key of a completed client. */
  lemma KeysAreSecret(k: Crypto, h: History, d: Completion, s: SecureChannel.Seal)
    requires Sound(k, h) && d in h.completions && s in h.seals
    requires s.key == SessionOf(k, h, d).value.sendKey || s.key == SessionOf(k, h, d).value.receiveKey
    ensures FromAnEnd(h, s)
  {
    var r := EndsWith(k, h, d);
    CompletionIsOwn(k, h, d);
    SecretOfMatch(k, d.client, Accept(d), r);
    var secret, salt, n := ClientKeys(k, d.client, Accept(d));
    NotReached(k, h, d.client.privateKey, r.privateKey, secret);
    if FromOutside(k, h, s) { assert s.key == k.hkdf(secret, salt, UP) || s.key == k.hkdf(secret, salt, DOWN); }
  }

  lemma NotReached(k: Crypto, h: History, a: nat, b: nat, secret: bytes)
    requires OnlyEnds(k) && a !in h.outsiders && b !in h.outsiders && k.dh(a, k.pub(b)) == Some(secret)
    ensures !Reaches(k, h, secret)
  {
  }

  lemma UpIsNotDown(k: Crypto, secret: bytes, salt: bytes, secret': bytes, salt': bytes)
    requires InjectiveKdf(k)
    ensures k.hkdf(secret, salt, UP) != k.hkdf(secret', salt', DOWN)
  {
    DirectionsDiffer();
  }

  /** A run and a client that share a key share the transcript. */
  lemma SharedKey(k: Crypto, c: Client, accept: seq<Entry>, r: Run)
    requires InjectiveDigest(k) && InjectiveKdf(k) && ClientSession(k, c, accept).Some? && RunSession(k, r).Some?
    requires ClientSession(k, c, accept).value.receiveKey == RunSession(k, r).value.sendKey
             || ClientSession(k, c, accept).value.sendKey == RunSession(k, r).value.receiveKey
    ensures RunTranscript(k, r) == ClientTranscript(k, c, accept)
  {
    var secret, salt, n := ClientKeys(k, c, accept);
    var secret', salt' := RunKeys(k, r);
    assert salt == salt';
    SaltEndsInBinding(k, n, RunClientNonce(r) + r.nodeNonce, ClientTranscript(k, c, accept), RunTranscript(k, r));
  }

  lemma SameRun(k: Crypto, h: History, r: Run, q: Run)
    requires Commutes(k) && RunsAreReal(k, h) && r in h.runs && q in h.runs
    requires RunTranscript(k, r) == RunTranscript(k, q)
    ensures r == q
  {
    EncodeInjective(k.pub(r.privateKey), k.pub(q.privateKey));
  }

  lemma SameCompletion(k: Crypto, h: History, c: Completion, d: Completion)
    requires Commutes(k) && CompletionsAreReal(k, h) && c in h.completions && d in h.completions
    requires ClientTranscript(k, c.client, Accept(c)) == ClientTranscript(k, d.client, Accept(d))
    ensures c == d
  {
    EncodeInjective(k.pub(c.client.privateKey), k.pub(d.client.privateKey));
  }

  // ---------- The response ----------

  /** No client seals under a key that a client receives under. */
  lemma NotARequest(k: Crypto, h: History, d: Completion, c: Completion)
    requires Sound(k, h) && d in h.completions && c in h.completions
    ensures h.request(c).key != SessionOf(k, h, d).value.receiveKey
  {
    CompletionIsOwn(k, h, d);
    CompletionIsOwn(k, h, c);
    var secret, salt, n := ClientKeys(k, d.client, Accept(d));
    var secret', salt', n' := ClientKeys(k, c.client, Accept(c));
    UpIsNotDown(k, secret', salt', secret, salt);
  }

  lemma SealedByRun(k: Crypto, h: History, d: Completion, s: SecureChannel.Seal) returns (r: Run)
    requires Sound(k, h) && d in h.completions && s in h.seals && s.key == SessionOf(k, h, d).value.receiveKey
    ensures IsResponse(h, r, s)
  {
    KeysAreSecret(k, h, d, s);
    forall c | c in h.completions ensures !IsRequest(h, c, s) { NotARequest(k, h, d, c); }
    r :| IsResponse(h, r, s);
  }

  /** The response of `r` was sealed under the key that `d` receives under: `r` is the run its
      handshake ended with. */
  lemma ResponderIsPeer(k: Crypto, h: History, d: Completion, r: Run, s: SecureChannel.Seal)
    requires Sound(k, h) && d in h.completions && IsResponse(h, r, s) && s.key == SessionOf(k, h, d).value.receiveKey
    ensures Matches(k, d.client, Accept(d), r) && RunSession(k, r).Some?
    ensures Crossed(SessionOf(k, h, d).value, RunSession(k, r).value)
  {
    var q := EndsWith(k, h, d);
    CompletionIsOwn(k, h, d);
    SharedKey(k, d.client, Accept(d), r);
    SameRun(k, h, r, q);
  }

  /** Main result, response: a frame the client opens is, byte for byte, the response of the
      one run of the node that its handshake ended with. */
  lemma ResponseIsFromPeer(k: Crypto, h: History, d: Completion, raw: bytes) returns (r: Run, s: SecureChannel.Seal)
    requires Sound(k, h) && d in h.completions
    requires SecureChannel.OpenFrame(h.seals, SessionOf(k, h, d).value.receiveKey, raw).Ok?
    ensures r in h.runs && Matches(k, d.client, Accept(d), r)
    ensures forall q :: q in h.runs && Matches(k, d.client, Accept(d), q) ==> q == r
    ensures h.response(r) == Some(s) && s in h.seals && SecureChannel.Wire(s) == raw
    ensures SecureChannel.OpenFrame(h.seals, SessionOf(k, h, d).value.receiveKey, raw).value.plaintext == s.plaintext
  {
    s := SecureChannel.OpenedWasSealed(h.seals, SessionOf(k, h, d).value.receiveKey, raw);
    r := SealedByRun(k, h, d, s);
    ResponderIsPeer(k, h, d, r, s);
    forall q | q in h.runs && Matches(k, d.client, Accept(d), q) ensures q == r { SameRun(k, h, q, r); }
  }

  // ---------- The request ----------

  lemma NotAResponse(k: Crypto, h: History, r: Run, q: Run)
    requires Sound(k, h) && r in h.runs && q in h.runs && RunSession(k, r).Some? && h.response(q).Some?
    ensures h.response(q).value.key != RunSession(k, r).value.receiveKey
  {
    var secret, salt := RunKeys(k, r);
    var secret', salt' := RunKeys(k, q);
    UpIsNotDown(k, secret, salt, secret', salt');
  }

  lemma SealedByClient(k: Crypto, h: History, d: Completion, r: Run, s: SecureChannel.Seal) returns (c: Completion)
    requires Sound(k, h) && d in h.completions && r in h.runs && RunSession(k, r).Some? && s in h.seals
    requires s.key == RunSession(k, r).value.receiveKey == SessionOf(k, h, d).value.sendKey
    ensures IsRequest(h, c, s)
  {
    KeysAreSecret(k, h, d, s);
    forall q | q in h.runs ensures !IsResponse(h, q, s) {
      if h.response(q).Some? { NotAResponse(k, h, r, q); }
    }
    c :| IsRequest(h, c, s);
  }

  /** A sealing client shares the transcript of the run, as the completed one does. */
  lemma SealerIsPeer(k: Crypto, h: History, d: Completion, r: Run, c: Completion, s: SecureChannel.Seal)
    requires Sound(k, h) && d in h.completions && Matches(k, d.client, Accept(d), r) && RunSession(k, r).Some?
    requires IsRequest(h, c, s) && s.key == RunSession(k, r).value.receiveKey
    ensures c == d
  {
    CompletionIsOwn(k, h, c);
    SharedKey(k, c.client, Accept(c), r);
    SameCompletion(k, h, c, d);
  }

  /** Main result, request: a frame that the run of a completed client's handshake opens is,
      byte for byte, the request of that client. */
  lemma RequestIsFromPeer(k: Crypto, h: History, d: Completion, r: Run, raw: bytes)
    requires Sound(k, h) && d in h.completions && r in h.runs && Matches(k, d.client, Accept(d), r)
    requires RunSession(k, r).Some? && SecureChannel.OpenFrame(h.seals, RunSession(k, r).value.receiveKey, raw).Ok?
    ensures h.request(d) in h.seals && SecureChannel.WellFormed(h.request(d)) && SecureChannel.Wire(h.request(d)) == raw
    ensures var key := RunSession(k, r).value.receiveKey;
            SecureChannel.OpenFrame(h.seals, key, raw).value.plaintext == h.request(d).plaintext
  {
    var s := SecureChannel.OpenedWasSealed(h.seals, RunSession(k, r).value.receiveKey, raw);
    CompletionIsOwn(k, h, d);
    MatchingSessions(k, d.client, Accept(d), r);
    var c := SealedByClient(k, h, d, r, s);
    SealerIsPeer(k, h, d, r, c, s);
  }
}
