/** The binary frame of the sealed channel: version, type, 64-bit sequence, nonce,
    32-bit ciphertext length, ciphertext, tag. */
module Frames {
  import opened Wrappers
  import opened Bytes

  const FRAME_VERSION: byte := 1
  const HANDSHAKE: byte := 0x01
  const DATA: byte := 0x10
  const PING: byte := 0x20
  const PONG: byte := 0x21
  const CLOSE: byte := 0x30
  const ERROR: byte := 0x31

  const HEADER_SIZE := 26
  const NONCE_SIZE := 12
  const TAG_SIZE := 16

  predicate ValidType(kind: byte) { kind in {HANDSHAKE, DATA, PING, PONG, CLOSE, ERROR} }

  datatype Parts = Parts(
    version: byte,
    kind: byte,
    sequence: int,
    nonce: bytes,
    ciphertext: bytes,
    tag: bytes)

  datatype FrameError =
    TooShort | BadVersion | BadType | BadSequence | BadNonce | BadTag | TooLarge | BadLength

  function Validate(p: Parts): Option<FrameError> {
    if p.version != FRAME_VERSION then Some(BadVersion)
    else if !ValidType(p.kind) then Some(BadType)
    else if p.sequence < 0 || p.sequence > U64_MAX then Some(BadSequence)
    else if |p.nonce| != NONCE_SIZE then Some(BadNonce)
    else if |p.tag| != TAG_SIZE then Some(BadTag)
    else if |p.ciphertext| > U32_MAX then Some(TooLarge)
    else None
  }

  predicate ValidParts(p: Parts) { Validate(p).None? }

  function Header(p: Parts): (r: bytes)
    requires ValidParts(p)
    ensures |r| == HEADER_SIZE
  {
    [p.version, p.kind] + BigEndian(p.sequence, 8) + p.nonce + BigEndian(|p.ciphertext|, 4)
  }

  function Encode(p: Parts): Result<bytes, FrameError> {
    match Validate(p)
    case Some(e) => Err(e)
    case None => Ok(Header(p) + p.ciphertext + p.tag)
  }

  function Decode(raw: bytes): Result<Parts, FrameError> {
    if |raw| < HEADER_SIZE + TAG_SIZE then Err(TooShort)
    else if raw[0] != FRAME_VERSION then Err(BadVersion)
    else if !ValidType(raw[1]) then Err(BadType)
    else
      var length := ReadBigEndian(raw[22..26]);
      if |raw| != HEADER_SIZE + length + TAG_SIZE then Err(BadLength)
      else Ok(Parts(FRAME_VERSION, raw[1], ReadBigEndian(raw[2..10]), raw[10..22],
                    raw[HEADER_SIZE..HEADER_SIZE + length], raw[HEADER_SIZE + length..]))
  }

  function PeekSequence(raw: bytes): Result<nat, FrameError> {
    if |raw| < HEADER_SIZE + TAG_SIZE then Err(TooShort) else Ok(ReadBigEndian(raw[2..10]))
  }

  /** The associated data: the header without its nonce. */
  function Aad(version: byte, kind: byte, sequence: int, length: nat): Result<bytes, FrameError> {
    if sequence < 0 || sequence > U64_MAX then Err(BadSequence)
    else if !ValidType(kind) then Err(BadType)
    else if length > U32_MAX then Err(TooLarge)
    else Ok([version, kind] + BigEndian(sequence, 8) + BigEndian(length, 4))
  }

  // ---------- The codec is a bijection ----------

  lemma HeaderFields(p: Parts)
    requires ValidParts(p)
    ensures var raw := Encode(p).value;
            && |raw| == HEADER_SIZE + |p.ciphertext| + TAG_SIZE
            && raw[0] == p.version && raw[1] == p.kind
            && raw[2..10] == BigEndian(p.sequence, 8)
            && raw[10..22] == p.nonce
            && raw[22..26] == BigEndian(|p.ciphertext|, 4)
            && raw[26..26 + |p.ciphertext|] == p.ciphertext
            && raw[26 + |p.ciphertext|..] == p.tag
  {
    var raw := Encode(p).value;
    var h := Header(p);
    assert raw[..26] == h;
    assert h[2..10] == BigEndian(p.sequence, 8) && h[10..22] == p.nonce;
    assert raw[2..10] == h[2..10] && raw[10..22] == h[10..22] && raw[22..26] == h[22..26];
  }

  lemma DecodeOfEncode(p: Parts)
    requires ValidParts(p)
    ensures Decode(Encode(p).value) == Ok(p)
  {
    HeaderFields(p);
    FixedWidths();
    WriteThenRead(p.sequence, 8);
    WriteThenRead(|p.ciphertext|, 4);
  }

  lemma EncodeOfDecode(raw: bytes)
    requires Decode(raw).Ok?
    ensures ValidParts(Decode(raw).value)
    ensures Encode(Decode(raw).value) == Ok(raw)
  {
    FixedWidths();
    ReadThenWrite(raw[2..10]);
    ReadThenWrite(raw[22..26]);
    var p := Decode(raw).value;
    assert |p.ciphertext| == ReadBigEndian(raw[22..26]);
    assert raw[..26] == [raw[0], raw[1]] + raw[2..10] + raw[10..22] + raw[22..26];
    assert raw == raw[..26] + p.ciphertext + p.tag;
  }

  /** The accepted byte strings are exactly the encodings of valid parts. */
  lemma AcceptedIffEncoded(raw: bytes)
    ensures Decode(raw).Ok? <==> exists p :: ValidParts(p) && Encode(p) == Ok(raw)
  {
    if Decode(raw).Ok? { EncodeOfDecode(raw); }
    if p :| ValidParts(p) && Encode(p) == Ok(raw) { DecodeOfEncode(p); }
  }

  lemma EncodeIsInjective(p: Parts, q: Parts)
    requires ValidParts(p) && ValidParts(q) && Encode(p) == Encode(q)
    ensures p == q
  {
    DecodeOfEncode(p);
    DecodeOfEncode(q);
  }

  lemma PeekAgreesWithDecode(raw: bytes)
    requires Decode(raw).Ok?
    ensures PeekSequence(raw) == Ok(Decode(raw).value.sequence)
  {
  }

  /** The associated data of a frame is its header bytes 0-9 and 22-25. */
  lemma AadIsHeaderBytes(raw: bytes)
    requires Decode(raw).Ok?
    ensures var p := Decode(raw).value;
            Aad(p.version, p.kind, p.sequence, |p.ciphertext|) == Ok(raw[..10] + raw[22..26])
  {
    EncodeOfDecode(raw);
    var p := Decode(raw).value;
    HeaderFields(p);
    assert raw[..10] == [raw[0], raw[1]] + raw[2..10];
  }

  lemma AadIsInjective(v1: byte, k1: byte, s1: int, n1: nat, v2: byte, k2: byte, s2: int, n2: nat)
    requires Aad(v1, k1, s1, n1).Ok? && Aad(v1, k1, s1, n1) == Aad(v2, k2, s2, n2)
    ensures v1 == v2 && k1 == k2 && s1 == s2 && n1 == n2
  {
    FixedWidths();
    WriteThenRead(s1, 8);
    WriteThenRead(s2, 8);
    WriteThenRead(n1, 4);
    WriteThenRead(n2, 4);
    var a, b := Aad(v1, k1, s1, n1).value, Aad(v2, k2, s2, n2).value;
    assert a[0] == v1 && a[1] == k1 && a[2..10] == BigEndian(s1, 8) && a[10..] == BigEndian(n1, 4);
    assert b[0] == v2 && b[1] == k2 && b[2..10] == BigEndian(s2, 8) && b[10..] == BigEndian(n2, 4);
  }

  // ---------- Writing into an allocated buffer ----------

  /** `buffer.writeUIntBE` of the given width at an offset. */
  method WriteBigEndian(buffer: array<byte>, n: nat, width: nat, offset: nat)
    requires offset + width <= buffer.Length
    modifies buffer
    ensures buffer[offset..offset + width] == BigEndian(n, width)
    ensures buffer[..offset] == old(buffer[..offset]) && buffer[offset + width..] == old(buffer[offset + width..])
    ensures forall i :: 0 <= i < buffer.Length && !(offset <= i < offset + width) ==> buffer[i] == old(buffer[i])
  {
    var left, w := n, width;
    while w > 0
      invariant 0 <= w <= width
      invariant BigEndian(n, width) == BigEndian(left, w) + buffer[offset + w..offset + width]
      invariant forall i ::
                  0 <= i < buffer.Length && !(offset + w <= i < offset + width) ==> buffer[i] == old(buffer[i])
    {
      ghost var tail := buffer[offset + w..offset + width];
      w := w - 1;
      buffer[offset + w] := (left % 256) as byte;
      left := left / 256;
      assert buffer[offset + w..offset + width] == [buffer[offset + w]] + tail;
    }
  }

  method EncodeFrame(p: Parts) returns (r: Result<bytes, FrameError>)
    ensures r == Encode(p)
  {
    var bad := Validate(p);
    if bad.Some? { return Err(bad.value); }
    var header := new byte[HEADER_SIZE];
    header[0] := p.version;
    header[1] := p.kind;
    WriteBigEndian(header, p.sequence, 8, 2);
    label sequenced:
    var i := 0;
    while i < NONCE_SIZE
      invariant 0 <= i <= NONCE_SIZE
      invariant header[..10] == old@sequenced(header[..10])
      invariant header[0] == p.version && header[1] == p.kind && header[2..10] == BigEndian(p.sequence, 8)
      invariant header[10..10 + i] == p.nonce[..i]
    {
      header[10 + i] := p.nonce[i];
      i := i + 1;
    }
    ghost var before := header[..22];
    assert before[..10] == header[..10] && before[10..] == header[10..22] && p.nonce[..12] == p.nonce;
    assert before[..2] == [p.version, p.kind];
    assert before[2..10] == header[..10][2..] == BigEndian(p.sequence, 8);
    WriteBigEndian(header, |p.ciphertext|, 4, 22);
    assert header[..22] == before;
    assert header[..] == before + header[22..26];
    assert before == before[..2] + before[2..10] + before[10..];
    r := Ok(header[..] + p.ciphertext + p.tag);
  }

  method FrameAad(version: byte, kind: byte, sequence: int, length: nat) returns (r: Result<bytes, FrameError>)
    ensures r == Aad(version, kind, sequence, length)
  {
    if sequence < 0 || sequence > U64_MAX { return Err(BadSequence); }
    if !ValidType(kind) { return Err(BadType); }
    if length > U32_MAX { return Err(TooLarge); }
    var aad := new byte[14];
    aad[0] := version;
    aad[1] := kind;
    WriteBigEndian(aad, sequence, 8, 2);
    label sequenced:
    WriteBigEndian(aad, length, 4, 10);
    assert aad[..10] == old@sequenced(aad[..10]);
    assert aad[..10] == [version, kind] + aad[2..10];
    assert aad[..] == aad[..10] + aad[10..14];
    r := Ok(aad[..]);
  }
}
