/** Sealing and opening frames under an ideal AEAD (section 2.8 of RFC 8439): opening
    succeeds only on what was sealed under the same key, nonce and associated data. */
module SecureChannel {
  import opened Wrappers
  import opened Bytes
  import opened Frames

  /** One call of `sealFrame`; nonce, ciphertext and tag are what the cipher produced. */
  datatype Seal = Seal(
    key: bytes,
    kind: byte,
    sequence: nat,
    plaintext: bytes,
    nonce: bytes,
    ciphertext: bytes,
    tag: bytes)

  function PartsOf(s: Seal): Parts {
    Parts(FRAME_VERSION, s.kind, s.sequence, s.nonce, s.ciphertext, s.tag)
  }

  /** What `sealFrame` needs to return, and the shape of the cipher's output. */
  predicate WellFormed(s: Seal) {
    ValidParts(PartsOf(s)) && |s.ciphertext| == |s.plaintext|
  }

  function Wire(s: Seal): (r: bytes)
    requires WellFormed(s)
  {
    Encode(PartsOf(s)).value
  }

  /** The cipher's memory: every seal made so far. Two seals that share key, nonce,
      associated data, ciphertext and tag seal the same plaintext. */
  ghost predicate Ideal(seals: set<Seal>) {
    && (forall s :: s in seals ==> WellFormed(s))
    && (forall s, t :: s in seals && t in seals && s.key == t.key && PartsOf(s) == PartsOf(t) ==> s == t)
  }

  /** `seal` used exactly this key, nonce and associated data to make this output. */
  predicate Produced(s: Seal, key: bytes, nonce: bytes, ciphertext: bytes, tag: bytes, aad: bytes) {
    && s.key == key && s.nonce == nonce && s.ciphertext == ciphertext && s.tag == tag
    && Aad(FRAME_VERSION, s.kind, s.sequence, |s.plaintext|) == Ok(aad)
  }

  datatype OpenError = Malformed(error: FrameError) | Forged

  datatype Opened = Opened(frame: Parts, plaintext: bytes)

  ghost function Decrypt(
      seals: set<Seal>, key: bytes, nonce: bytes, ciphertext: bytes, tag: bytes, aad: bytes)
    : Option<bytes>
  {
    if exists s :: s in seals && Produced(s, key, nonce, ciphertext, tag, aad) then
      var s :| s in seals && Produced(s, key, nonce, ciphertext, tag, aad);
      Some(s.plaintext)
    else None
  }

  ghost function OpenFrame(seals: set<Seal>, key: bytes, raw: bytes): Result<Opened, OpenError> {
    match Decode(raw)
    case Err(e) => Err(Malformed(e))
    case Ok(p) =>
      match Aad(p.version, p.kind, p.sequence, |p.ciphertext|)
      case Err(e) => Err(Malformed(e))
      case Ok(aad) =>
        match Decrypt(seals, key, p.nonce, p.ciphertext, p.tag, aad)
        case None => Err(Forged)
        case Some(plaintext) => Ok(Opened(p, plaintext))
  }

  /** A frame that opens is, byte for byte, one that was sealed under this key. */
  lemma OpenedWasSealed(seals: set<Seal>, key: bytes, raw: bytes) returns (s: Seal)
    requires Ideal(seals) && OpenFrame(seals, key, raw).Ok?
    ensures s in seals && s.key == key && Wire(s) == raw
    ensures OpenFrame(seals, key, raw) == Ok(Opened(PartsOf(s), s.plaintext))
  {
    EncodeOfDecode(raw);
    var p := Decode(raw).value;
    var aad := Aad(p.version, p.kind, p.sequence, |p.ciphertext|).value;
    s :| s in seals && Produced(s, key, p.nonce, p.ciphertext, p.tag, aad)
         && Decrypt(seals, key, p.nonce, p.ciphertext, p.tag, aad) == Some(s.plaintext);
    AadIsInjective(FRAME_VERSION, s.kind, s.sequence, |s.plaintext|, p.version, p.kind, p.sequence, |p.ciphertext|);
  }

  lemma SealedOpens(seals: set<Seal>, s: Seal)
    requires Ideal(seals) && s in seals
    ensures OpenFrame(seals, s.key, Wire(s)) == Ok(Opened(PartsOf(s), s.plaintext))
  {
    DecodeOfEncode(PartsOf(s));
    var aad := Aad(FRAME_VERSION, s.kind, s.sequence, |s.plaintext|).value;
    assert Produced(s, s.key, s.nonce, s.ciphertext, s.tag, aad);
    var t := OpenedWasSealed(seals, s.key, Wire(s));
    EncodeIsInjective(PartsOf(s), PartsOf(t));
  }

  /** Both directions: exactly the sealed byte strings open, each to its own plaintext. */
  lemma OpensIffSealed(seals: set<Seal>, key: bytes, raw: bytes, plaintext: bytes)
    requires Ideal(seals)
    ensures (exists frame :: OpenFrame(seals, key, raw) == Ok(Opened(frame, plaintext))) <==>
            (exists s :: s in seals && s.key == key && Wire(s) == raw && s.plaintext == plaintext)
  {
    if frame :| OpenFrame(seals, key, raw) == Ok(Opened(frame, plaintext)) {
      var s := OpenedWasSealed(seals, key, raw);
    }
    if s :| s in seals && s.key == key && Wire(s) == raw && s.plaintext == plaintext {
      SealedOpens(seals, s);
      assert OpenFrame(seals, key, raw) == Ok(Opened(PartsOf(s), plaintext));
    }
  }
}
