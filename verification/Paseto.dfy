/** PASETO v4.public: the pre-authentication encoding, and signing and verifying under an
    ideal signature scheme. */
module Paseto {
  import opened Wrappers
  import opened Bytes
  import opened Strings
  import Base64

  const TWO_63: nat := 0x8000_0000_0000_0000

  predicate Short(b: bytes) { |b| < TWO_63 }

  // ---------- Pre-authentication encoding ----------

  function LittleEndian(n: nat, width: nat): (r: bytes)
    ensures |r| == width
  {
    if width == 0 then [] else [(n % 256) as byte] + LittleEndian(n / 256, width - 1)
  }

  function ReadLittleEndian(b: bytes): nat {
    if b == [] then 0 else b[0] as nat + 256 * ReadLittleEndian(b[1..])
  }

  /** Clear the high bit of a byte. */
  function Low7(b: byte): byte { b % 128 }

  /** A length as eight bytes, least significant first. Clearing the topmost bit makes it a
      63-bit number. */
  function Le64(n: nat): (r: bytes)
    ensures |r| == 8
  {
    LittleEndian(n % TWO_63, 8)
  }

  function Pieces(ps: seq<bytes>): bytes {
    if ps == [] then [] else Le64(|ps[0]|) + (ps[0] + Pieces(ps[1..]))
  }

  function Pae(ps: seq<bytes>): bytes { Le64(|ps|) + Pieces(ps) }

  lemma {:induction false} ReadAppend(b: bytes, k: byte)
    ensures ReadLittleEndian(b + [k]) == ReadLittleEndian(b) + k as nat * Pow256(|b|)
  {
    if b == [] {
      assert b + [k] == [k] && [k][1..] == [];
    } else {
      ReadAppend(b[1..], k);
      assert (b + [k])[1..] == b[1..] + [k];
    }
  }

  lemma DivideStep(n: nat, read: nat, value: nat, power: nat)
    requires n == read + value * power
    ensures n == read + value % 256 * power + value / 256 * (256 * power)
  {
    assert value == value % 256 + 256 * (value / 256);
    assert value * power == value % 256 * power + value / 256 * (256 * power);
  }

  /** The loop keeps `n` as the bytes written so far plus what is left of `value`. */
  method WriteLe64(n: nat) returns (r: bytes)
    ensures r == Le64(n)
  {
    var buf := new byte[8](_ => 0);
    var value: nat, i := n, 0;
    assert Pow256(0) == 1;
    while i < 8
      invariant 0 <= i <= 8
      invariant n == ReadLittleEndian(buf[..i]) + value * Pow256(i)
    {
      ghost var done := buf[..i];
      DivideStep(n, ReadLittleEndian(done), value, Pow256(i));
      buf[i] := (value % 256) as byte;
      assert buf[..i + 1] == done + [buf[i]];
      ReadAppend(done, buf[i]);
      value := value / 256;
      i := i + 1;
    }
    ghost var all := buf[..8];
    buf[7] := Low7(buf[7]);
    r := buf[..];
    MaskedIsMod(n, all, value, r);
  }

  lemma Pow7()
    ensures Pow256(7) == 0x100_0000_0000_0000
  {
    FixedWidths();
    assert Pow256(7) == 256 * (256 * (256 * Pow256(4)));
  }

  lemma Remainder(n: nat, r: nat, k: nat)
    requires r < TWO_63 && n == r + TWO_63 * k
    ensures n % TWO_63 == r
  {
  }

  lemma ClearTopBit(n: nat, low: nat, top: nat, value: nat)
    requires low < 0x100_0000_0000_0000 && top < 256
    requires n == low + top * 0x100_0000_0000_0000 + value * (U64_MAX + 1)
    ensures n % TWO_63 == low + top % 128 * 0x100_0000_0000_0000
  {
    var bit, rest := top / 128, top % 128;
    assert top == 128 * bit + rest && rest < 128;
    var r := low + rest * 0x100_0000_0000_0000;
    Remainder(n, r, bit + 2 * value);
  }

  lemma MaskedIsMod(n: nat, all: bytes, value: nat, r: bytes)
    requires |all| == 8 && |r| == 8 && r[..7] == all[..7] && r[7] == Low7(all[7])
    requires n == ReadLittleEndian(all) + value * Pow256(8)
    ensures r == Le64(n)
  {
    FixedWidths();
    Pow7();
    assert all == all[..7] + [all[7]] && r == r[..7] + [r[7]];
    ReadAppend(all[..7], all[7]);
    ReadAppend(r[..7], r[7]);
    ReadBelow(r[..7]);
    ClearTopBit(n, ReadLittleEndian(all[..7]), all[7] as nat, value);
    Le64Reads(n);
    ReadIsInjective(r, Le64(n));
  }

  method WritePae(ps: seq<bytes>) returns (r: bytes)
    ensures r == Pae(ps)
  {
    r := WriteLe64(|ps|);
    var i := 0;
    while i < |ps|
      invariant 0 <= i <= |ps|
      invariant Pae(ps) == r + Pieces(ps[i..])
    {
      var length := WriteLe64(|ps[i]|);
      assert ps[i..][0] == ps[i] && ps[i..][1..] == ps[i + 1..];
      ghost var before, rest := r, Pieces(ps[i + 1..]);
      r := r + length + ps[i];
      assert r + rest == before + (length + (ps[i] + rest));
      i := i + 1;
    }
  }

  lemma {:induction false} ReadBelow(b: bytes)
    ensures ReadLittleEndian(b) < Pow256(|b|)
  {
    if b != [] { ReadBelow(b[1..]); }
  }

  lemma {:induction false} ReadLittleOfWritten(n: nat, width: nat)
    requires n < Pow256(width)
    ensures ReadLittleEndian(LittleEndian(n, width)) == n
  {
    if width > 0 {
      ReadLittleOfWritten(n / 256, width - 1);
      assert LittleEndian(n, width)[1..] == LittleEndian(n / 256, width - 1);
    }
  }

  lemma Le64Reads(n: nat)
    ensures ReadLittleEndian(Le64(n)) == n % TWO_63
  {
    FixedWidths();
    ReadLittleOfWritten(n % TWO_63, 8);
  }

  /** Exactly what the cleared bit costs: lengths that agree modulo 2^63 look the same. */
  lemma Le64EqualIffSameMod(a: nat, b: nat)
    ensures Le64(a) == Le64(b) <==> a % TWO_63 == b % TWO_63
  {
    Le64Reads(a);
    Le64Reads(b);
  }

  lemma Le64Injective(a: nat, b: nat)
    requires a < TWO_63 && b < TWO_63 && Le64(a) == Le64(b)
    ensures a == b
  {
    Le64EqualIffSameMod(a, b);
  }

  lemma {:induction false} ReadIsInjective(a: bytes, b: bytes)
    requires |a| == |b| && ReadLittleEndian(a) == ReadLittleEndian(b)
    ensures a == b
  {
    if a != [] {
      ReadIsInjective(a[1..], b[1..]);
      assert a == [a[0]] + a[1..] && b == [b[0]] + b[1..];
    }
  }

  lemma SameConcat(a: bytes, b: bytes, c: bytes, d: bytes)
    requires |a| == |c| && a + b == c + d
    ensures a == c && b == d
  {
    assert (a + b)[..|a|] == a && (c + d)[..|a|] == c;
    assert (a + b)[|a|..] == b && (c + d)[|a|..] == d;
  }

  lemma {:induction false} PiecesInjective(ps: seq<bytes>, qs: seq<bytes>)
    requires |ps| == |qs|
    requires forall i :: 0 <= i < |ps| ==> Short(ps[i]) && Short(qs[i])
    requires Pieces(ps) == Pieces(qs)
    ensures ps == qs
  {
    if ps != [] {
      SameConcat(Le64(|ps[0]|), ps[0] + Pieces(ps[1..]), Le64(|qs[0]|), qs[0] + Pieces(qs[1..]));
      Le64Injective(|ps[0]|, |qs[0]|);
      SameConcat(ps[0], Pieces(ps[1..]), qs[0], Pieces(qs[1..]));
      PiecesInjective(ps[1..], qs[1..]);
      assert ps == [ps[0]] + ps[1..] && qs == [qs[0]] + qs[1..];
    }
  }

  /** The encoding is injective on lists and byte strings shorter than 2^63. */
  lemma PaeInjective(ps: seq<bytes>, qs: seq<bytes>)
    requires |ps| < TWO_63 && |qs| < TWO_63
    requires forall i :: 0 <= i < |ps| ==> Short(ps[i])
    requires forall i :: 0 <= i < |qs| ==> Short(qs[i])
    requires Pae(ps) == Pae(qs)
    ensures ps == qs
  {
    SameConcat(Le64(|ps|), Pieces(ps), Le64(|qs|), Pieces(qs));
    Le64Injective(|ps|, |qs|);
    PiecesInjective(ps, qs);
  }

  // ---------- Tokens ----------

  const HEADER: string := "v4.public."
  const HEADER_BYTES: bytes := [118, 52, 46, 112, 117, 98, 108, 105, 99, 46]
  const SIG_LEN: nat := 64

  /** One call of `signV4Public` with the secret key; `sig` is the signature it made. */
  datatype Signed = Signed(message: bytes, footer: bytes, implicit: bytes, sig: bytes)

  predicate WellSigned(s: Signed) {
    |s.sig| == SIG_LEN && Short(s.message) && Short(s.footer) && Short(s.implicit)
  }

  function Payload(message: bytes, footer: bytes, implicit: bytes): bytes {
    Pae([HEADER_BYTES, message, footer, implicit])
  }

  /** The signature scheme accepts exactly what the key holder signed. */
  ghost predicate SignatureValid(calls: set<Signed>, payload: bytes, sig: bytes) {
    exists s :: s in calls && Payload(s.message, s.footer, s.implicit) == payload && s.sig == sig
  }

  function SignToken(s: Signed): string {
    var token := HEADER + Base64.EncodeUrl(s.message + s.sig);
    if s.footer != [] then token + "." + Base64.EncodeUrl(s.footer) else token
  }

  datatype Verified = Verified(message: bytes, footer: bytes)
  datatype TokenError = BadHeader | BadShape | TooShort | BadSignature

  ghost function VerifyToken(calls: set<Signed>, token: string, implicit: bytes): Result<Verified, TokenError> {
    if !StartsWith(token, HEADER) then Err(BadHeader)
    else
      var parts := Split(token, '.');
      if |parts| != 3 && |parts| != 4 then Err(BadShape)
      else
        var body := Base64.Decode(parts[2]);
        if |body| < SIG_LEN then Err(TooShort)
        else
          var m, sig := body[..|body| - SIG_LEN], body[|body| - SIG_LEN..];
          var f := if |parts| == 4 then Base64.Decode(parts[3]) else [];
          if SignatureValid(calls, Payload(m, f, implicit), sig) then Ok(Verified(m, f)) else Err(BadSignature)
  }

  lemma {:induction false} PiecesAreShorter(s: string, c: char)
    ensures forall i :: 0 <= i < |Split(s, c)| ==> |Split(s, c)[i]| <= |s|
  {
    if s != "" { PiecesAreShorter(s[1..], c); }
  }

  /** Only a signed triple verifies: message, footer and implicit assertion all agree. */
  lemma VerifiedWasSigned(calls: set<Signed>, token: string, implicit: bytes) returns (s: Signed)
    requires forall c :: c in calls ==> WellSigned(c)
    requires |token| < TWO_63 && Short(implicit)
    requires VerifyToken(calls, token, implicit).Ok?
    ensures s in calls && s.implicit == implicit
    ensures VerifyToken(calls, token, implicit) == Ok(Verified(s.message, s.footer))
  {
    var v := VerifyToken(calls, token, implicit).value;
    var parts := Split(token, '.');
    PiecesAreShorter(token, '.');
    Base64.DecodeIsShorter(parts[2]);
    if |parts| == 4 { Base64.DecodeIsShorter(parts[3]); }
    s :| s in calls && Payload(s.message, s.footer, s.implicit) == Payload(v.message, v.footer, implicit);
    var ps, qs := [HEADER_BYTES, s.message, s.footer, s.implicit], [HEADER_BYTES, v.message, v.footer, implicit];
    PaeInjective(ps, qs);
    assert ps[1] == qs[1] && ps[2] == qs[2] && ps[3] == qs[3];
  }

  lemma SplitHeader(rest: string)
    ensures Split(HEADER + rest, '.') == ["v4", "public"] + Split(rest, '.')
  {
    var token := HEADER + rest;
    assert token == "v4" + ['.'] + ("public" + ['.'] + rest);
    SplitAt("v4", '.', "public" + ['.'] + rest);
    SplitAt("public", '.', rest);
  }

  lemma SplitBody(body: string)
    requires '.' !in body
    ensures Split(HEADER + body, '.') == ["v4", "public", body]
  {
    SplitPlain(body, '.');
    SplitHeader(body);
  }

  lemma SplitBodyAndFooter(body: string, foot: string)
    requires '.' !in body && '.' !in foot
    ensures Split(HEADER + (body + ['.'] + foot), '.') == ["v4", "public", body, foot]
  {
    SplitPlain(foot, '.');
    SplitHeader(body + ['.'] + foot);
    SplitAt(body, '.', foot);
  }

  lemma SplitToken(s: Signed)
    ensures var body := Base64.EncodeUrl(s.message + s.sig);
            Split(SignToken(s), '.') ==
            if s.footer == [] then ["v4", "public", body] else ["v4", "public", body, Base64.EncodeUrl(s.footer)]
  {
    var body, foot := Base64.EncodeUrl(s.message + s.sig), Base64.EncodeUrl(s.footer);
    Base64.PrintHasNoDot(Base64.ToSextets(s.message + s.sig), true);
    Base64.PrintHasNoDot(Base64.ToSextets(s.footer), true);
    if s.footer == [] {
      SplitBody(body);
    } else {
      assert SignToken(s) == HEADER + (body + ['.'] + foot);
      SplitBodyAndFooter(body, foot);
    }
  }

  /** Round trip: a signed token verifies under its implicit assertion, to exactly the
      message and footer that were signed. */
  lemma SignedVerifies(calls: set<Signed>, s: Signed)
    requires s in calls && WellSigned(s)
    ensures VerifyToken(calls, SignToken(s), s.implicit) == Ok(Verified(s.message, s.footer))
  {
    var token := SignToken(s);
    assert HEADER <= token;
    SplitToken(s);
    var parts := Split(token, '.');
    Base64.DecodeEncodeUrl(s.message + s.sig);
    Base64.DecodeEncodeUrl(s.footer);
    var body := Base64.Decode(parts[2]);
    assert body[..|body| - SIG_LEN] == s.message && body[|body| - SIG_LEN..] == s.sig;
    assert SignatureValid(calls, Payload(s.message, s.footer, s.implicit), s.sig);
  }

  /** A token is refused under any other implicit assertion, unless its message and footer
      were signed with that one too. */
  lemma OtherImplicitIsRefused(calls: set<Signed>, token: string, implicit: bytes)
    requires forall c :: c in calls ==> WellSigned(c)
    requires |token| < TWO_63 && Short(implicit)
    requires forall c :: c in calls ==> c.implicit != implicit
    ensures VerifyToken(calls, token, implicit).Err?
  {
    if VerifyToken(calls, token, implicit).Ok? {
      var s := VerifiedWasSigned(calls, token, implicit);
    }
  }

  // ---------- Exactly what verifies ----------

  /** The token spells what was signed: header, body and, if there is one, footer. */
  predicate Spells(token: string, s: Signed) {
    && HEADER <= token
    && var parts := Split(token, '.');
    && ((|parts| == 3 && s.footer == []) || (|parts| == 4 && Base64.Decode(parts[3]) == s.footer))
    && Base64.Decode(parts[2]) == s.message + s.sig
  }

  /** A token verifies exactly when it spells something that was signed under the same implicit
      assertion, and then to its message and footer. */
  lemma VerifiesIff(calls: set<Signed>, token: string, implicit: bytes)
    requires forall c :: c in calls ==> WellSigned(c)
    requires |token| < TWO_63 && Short(implicit)
    ensures VerifyToken(calls, token, implicit).Ok? <==>
            exists s :: s in calls && s.implicit == implicit && Spells(token, s)
    ensures forall s :: s in calls && s.implicit == implicit && Spells(token, s) ==>
              VerifyToken(calls, token, implicit) == Ok(Verified(s.message, s.footer))
  {
    if VerifyToken(calls, token, implicit).Ok? { var s := VerifiedIsSpelled(calls, token, implicit); }
    forall s | s in calls && s.implicit == implicit && Spells(token, s)
      ensures VerifyToken(calls, token, implicit) == Ok(Verified(s.message, s.footer))
    {
      SpelledVerifies(calls, token, s);
    }
  }

  lemma SpelledVerifies(calls: set<Signed>, token: string, s: Signed)
    requires s in calls && WellSigned(s) && Spells(token, s)
    ensures VerifyToken(calls, token, s.implicit) == Ok(Verified(s.message, s.footer))
  {
    var body := Base64.Decode(Split(token, '.')[2]);
    assert body[..|body| - SIG_LEN] == s.message && body[|body| - SIG_LEN..] == s.sig;
    assert SignatureValid(calls, Payload(s.message, s.footer, s.implicit), s.sig);
  }

  lemma VerifiedIsSpelled(calls: set<Signed>, token: string, implicit: bytes) returns (s: Signed)
    requires forall c :: c in calls ==> WellSigned(c)
    requires |token| < TWO_63 && Short(implicit) && VerifyToken(calls, token, implicit).Ok?
    ensures s in calls && s.implicit == implicit && Spells(token, s)
  {
    var v := VerifyToken(calls, token, implicit).value;
    var parts := Split(token, '.');
    var body := Base64.Decode(parts[2]);
    PiecesAreShorter(token, '.');
    Base64.DecodeIsShorter(parts[2]);
    if |parts| == 4 { Base64.DecodeIsShorter(parts[3]); }
    s :| s in calls && Payload(s.message, s.footer, s.implicit) == Payload(v.message, v.footer, implicit)
         && s.sig == body[|body| - SIG_LEN..];
    var ps, qs := [HEADER_BYTES, s.message, s.footer, s.implicit], [HEADER_BYTES, v.message, v.footer, implicit];
    PaeInjective(ps, qs);
    assert ps[1] == qs[1] && ps[2] == qs[2] && ps[3] == qs[3];
    assert body == body[..|body| - SIG_LEN] + body[|body| - SIG_LEN..];
  }
}
