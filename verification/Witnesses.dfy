/** The assumptions about the platform and about cryptography can all be met: for each of them,
    functions that meet it. */
module Witnesses {
  import opened Wrappers
  import opened Bytes
  import opened Strings
  import opened CanonicalJson
  import opened Codes
  import Dedupe
  import Profile
  import PathResolver
  import PathGate
  import ProfileNormal
  import ResponderAuth
  import DataHandshake
  import HandshakeAgreement
  import DataExchange
  import SecureChannel
  import Frames
  import Tickets

  // ---------- Digests and text ----------

  function Digest(b: bytes): string { "h" + Letters(b) }

  lemma DigestIsGood(a: bytes, b: bytes)
    ensures Digest(a) == Digest(b) ==> a == b
    ensures Digest(a) != "" && Digest(a) != Dedupe.NO_BODY && '\n' !in Digest(a)
  {
    assert Digest(a)[1..] == Letters(a) && Digest(b)[1..] == Letters(b);
    if Digest(a) == Digest(b) { LettersInjective(a, b); }
    LettersArePlain(a);
    assert Digest(a)[0] == 'h' && Dedupe.NO_BODY[0] == 'n';
  }

  // ---------- URLs ----------

  function PairsCode(ps: seq<Dedupe.Pair>): string {
    if ps == [] then "." else "," + (TextCode(ps[0].name) + (TextCode(ps[0].value) + PairsCode(ps[1..])))
  }

  lemma PairHeads(a: seq<Dedupe.Pair>, b: seq<Dedupe.Pair>, x: string, y: string)
    requires PairsCode(a) + x == PairsCode(b) + y
    ensures a == [] <==> b == []
    ensures a == [] ==> x == y
  {
    assert (PairsCode(a) + x)[0] == PairsCode(a)[0] && (PairsCode(b) + y)[0] == PairsCode(b)[0];
    if a == [] { assert (PairsCode(a) + x)[1..] == x && (PairsCode(b) + y)[1..] == y; }
  }

  lemma AfterFirst(c: char, a: string, x: string)
    ensures (([c] + a) + x)[1..] == a + x
  {
  }

  lemma PairSplit(ps: seq<Dedupe.Pair>, x: string)
    requires ps != []
    ensures (PairsCode(ps) + x)[1..] == TextCode(ps[0].name) + (TextCode(ps[0].value) + (PairsCode(ps[1..]) + x))
  {
    var k, v, r := TextCode(ps[0].name), TextCode(ps[0].value), PairsCode(ps[1..]);
    assert PairsCode(ps) == "," + (k + (v + r));
    AfterFirst(',', k + (v + r), x);
    Regroup(k, v + r, x);
    Regroup(v, r, x);
  }

  lemma {:induction false} PairsPrefix(a: seq<Dedupe.Pair>, b: seq<Dedupe.Pair>, x: string, y: string)
    requires PairsCode(a) + x == PairsCode(b) + y
    ensures a == b && x == y
  {
    PairHeads(a, b, x, y);
    if a != [] {
      var p, q := PairsCode(a[1..]), PairsCode(b[1..]);
      PairSplit(a, x);
      PairSplit(b, y);
      TextPrefix(a[0].name, b[0].name, TextCode(a[0].value) + (p + x), TextCode(b[0].value) + (q + y));
      TextPrefix(a[0].value, b[0].value, p + x, q + y);
      PairsPrefix(a[1..], b[1..], x, y);
      assert a == [a[0]] + a[1..] && b == [b[0]] + b[1..];
    }
  }

  function UrlTail(u: Dedupe.Url): string {
    TextCode(u.port) + (TextCode(u.pathname) + (TextCode(u.hash) + PairsCode(u.query)))
  }

  function UrlCode(u: Dedupe.Url): string {
    TextCode(u.protocol) + (TextCode(u.username) + (TextCode(u.password) + (TextCode(u.hostname) + UrlTail(u))))
  }

  lemma UrlTailInjective(u: Dedupe.Url, v: Dedupe.Url)
    requires UrlTail(u) == UrlTail(v)
    ensures u.port == v.port && u.pathname == v.pathname && u.hash == v.hash && u.query == v.query
  {
    var a, b := PairsCode(u.query), PairsCode(v.query);
    TextPrefix(u.port, v.port, TextCode(u.pathname) + (TextCode(u.hash) + a),
               TextCode(v.pathname) + (TextCode(v.hash) + b));
    TextPrefix(u.pathname, v.pathname, TextCode(u.hash) + a, TextCode(v.hash) + b);
    TextPrefix(u.hash, v.hash, a, b);
    assert a + "" == a && b + "" == b;
    PairsPrefix(u.query, v.query, "", "");
  }

  lemma UrlInjective(u: Dedupe.Url, v: Dedupe.Url)
    requires UrlCode(u) == UrlCode(v)
    ensures u == v
  {
    var a, b := TextCode(u.hostname) + UrlTail(u), TextCode(v.hostname) + UrlTail(v);
    TextPrefix(u.protocol, v.protocol, TextCode(u.username) + (TextCode(u.password) + a),
               TextCode(v.username) + (TextCode(v.password) + b));
    TextPrefix(u.username, v.username, TextCode(u.password) + a, TextCode(v.password) + b);
    TextPrefix(u.password, v.password, a, b);
    TextPrefix(u.hostname, v.hostname, UrlTail(u), UrlTail(v));
    UrlTailInjective(u, v);
  }

  predicate Absolute(u: Dedupe.Url) { u.pathname != "" && u.pathname[0] == '/' }

  /** Exactly the codes of URLs with absolute paths parse. */
  ghost function ParseUrl(raw: string): Option<Dedupe.Url> {
    if exists u :: Absolute(u) && UrlCode(u) == raw then
      var u :| Absolute(u) && UrlCode(u) == raw;
      Some(u)
    else None
  }

  lemma ParsesCode(u: Dedupe.Url)
    requires Absolute(u)
    ensures ParseUrl(UrlCode(u)) == Some(u)
  {
    var v := ParseUrl(UrlCode(u)).value;
    UrlInjective(u, v);
  }

  ghost function ThePlatform(): Dedupe.Platform {
    Dedupe.Platform(b => Digest(b), s => Utf24(s), v => JsonCode(v), s => ParseUrl(s), u => UrlCode(u))
  }

  /** `Dedupe.Ideal` holds of a platform that parses URLs. */
  lemma PlatformExists()
    ensures Dedupe.Ideal(ThePlatform())
    ensures forall u :: Absolute(u) ==> ThePlatform().parseUrl(UrlCode(u)) == Some(u)
  {
    var p := ThePlatform();
    forall a, b ensures p.sha256Hex(a) == p.sha256Hex(b) ==> a == b { DigestIsGood(a, b); }
    forall a ensures p.sha256Hex(a) != "" && p.sha256Hex(a) != Dedupe.NO_BODY && '\n' !in p.sha256Hex(a) {
      DigestIsGood(a, a);
    }
    forall a, b | p.utf8(a) == p.utf8(b) ensures a == b { Utf24Injective(a, b); }
    forall v, w | p.stringify(v) == p.stringify(w) ensures v == w { JsonInjective(v, w); }
    forall raw | p.parseUrl(raw).Some?
      ensures var u := Dedupe.Canonical(p.parseUrl(raw).value); p.parseUrl(p.printUrl(u)) == Some(u)
    {
      ParsesCode(Dedupe.Canonical(p.parseUrl(raw).value));
    }
    forall u | Absolute(u) ensures p.parseUrl(UrlCode(u)) == Some(u) { ParsesCode(u); }
  }

  // ---------- The profile engine ----------

  function Locate(s: string): Option<Profile.Located> {
    if PathResolver.PlainPath(s) then Some(Profile.Located(Profile.ORIGIN, PathResolver.Resolve(s), "", "")) else None
  }

  predicate PlainText(s: string) { forall i :: 0 <= i < |s| ==> PathResolver.PlainChar(s[i]) }

  predicate PlainPieces(ps: seq<string>) { forall i :: 0 <= i < |ps| ==> PlainText(ps[i]) }

  lemma {:induction false} SplitKeepsPlain(s: string)
    requires PlainText(s)
    ensures PlainPieces(Split(s, '/'))
  {
    if s != "" { SplitKeepsPlain(s[1..]); }
  }

  lemma {:induction false} WalkKeepsPlain(segments: seq<string>, out: seq<string>)
    requires PlainPieces(segments) && PlainPieces(out)
    ensures PlainPieces(PathResolver.Walk(segments, out))
  {
    if segments != [] {
      WalkKeepsPlain(segments[1..], PathResolver.Shorten(out));
      WalkKeepsPlain(segments[1..], out);
      WalkKeepsPlain(segments[1..], out + [segments[0]]);
    }
  }

  lemma {:induction false} JoinKeepsPlain(ps: seq<string>)
    requires PlainPieces(ps)
    ensures PlainText(Join(ps, '/'))
  {
    if |ps| > 1 { JoinKeepsPlain(ps[1..]); }
  }

  lemma ResolveKeepsPlain(s: string)
    requires PathResolver.PlainPath(s)
    ensures var path := PathResolver.Resolve(s);
            && path != "" && path[0] == '/' && '\\' !in path
            && (!StartsWith(path, "//") ==> PathResolver.PlainPath(path) && PathResolver.Resolve(path) == path)
  {
    assert forall i :: 0 <= i < |s| ==> s[i] in s;
    assert PlainText(s[1..]);
    SplitKeepsPlain(s[1..]);
    WalkKeepsPlain(Split(s[1..], '/'), []);
    var joined := Join(PathResolver.Walk(Split(s[1..], '/'), []), '/');
    JoinKeepsPlain(PathResolver.Walk(Split(s[1..], '/'), []));
    var path := PathResolver.Resolve(s);
    forall c | c in path ensures PathResolver.PlainChar(c) {
      var i :| 0 <= i < |path| && path[i] == c;
      if i > 0 { assert path[i] == joined[i - 1]; }
    }
    assert |path| >= 2 && path[1] == '/' ==> path[..2] == "//";
    PathResolver.ResolveTwice(s);
  }

  ghost function TheEngine(): Profile.Engine {
    Profile.Engine(
      ThePlatform(), (v: Json) => if v.Str? then v.s else "",
      (v: Json) => if v.Num? then Some(v.n) else None, s => Locate(s))
  }

  lemma EngineParsesBases()
    ensures Profile.ParsesBases(TheEngine())
  {
    var e := TheEngine();
    forall raw | e.p.parseUrl(raw).Some? && Profile.Web(e.p.parseUrl(raw).value)
      ensures var u := e.p.parseUrl(raw).value;
              && u.pathname != "" && u.pathname[0] == '/'
              && e.p.parseUrl(e.p.printUrl(u.(pathname := Profile.TrimPath(u.pathname)))) ==
                 Some(u.(pathname := Profile.TrimPath(u.pathname)))
    {
      var u := e.p.parseUrl(raw).value;
      ProfileNormal.TrimPathShape(u.pathname);
      ParsesCode(u.(pathname := Profile.TrimPath(u.pathname)));
    }
  }

  /** `Profile.Sane` holds together with `Dedupe.Ideal`. */
  lemma EngineExists()
    ensures Profile.Sane(TheEngine()) && Dedupe.Ideal(TheEngine().p)
  {
    var e := TheEngine();
    PlatformExists();
    EngineParsesBases();
    forall s | e.locate(s).Some? && e.locate(s).value.origin == Profile.ORIGIN
      ensures var path := e.locate(s).value.pathname;
              && path != "" && path[0] == '/' && '\\' !in path
              && (!StartsWith(path, "//") ==> e.locate(path) == Some(Profile.Located(Profile.ORIGIN, path, "", "")))
    {
      ResolveKeepsPlain(s);
    }
  }

  // ---------- Tickets ----------

  function ClaimsCode(c: Tickets.Claims): string {
    TextCode(c.iss) + (TextCode(c.aud) + (TextCode(c.sub) + (TextCode(c.scope)
    + (TextCode(c.jti) + (IntCode(c.iat) + IntCode(c.exp))))))
  }

  lemma ClaimsInjective(c: Tickets.Claims, d: Tickets.Claims)
    requires ClaimsCode(c) == ClaimsCode(d)
    ensures c == d
  {
    var x, y := IntCode(c.iat) + IntCode(c.exp), IntCode(d.iat) + IntCode(d.exp);
    var a, b := TextCode(c.scope) + (TextCode(c.jti) + x), TextCode(d.scope) + (TextCode(d.jti) + y);
    TextPrefix(c.iss, d.iss, TextCode(c.aud) + (TextCode(c.sub) + a), TextCode(d.aud) + (TextCode(d.sub) + b));
    TextPrefix(c.aud, d.aud, TextCode(c.sub) + a, TextCode(d.sub) + b);
    TextPrefix(c.sub, d.sub, a, b);
    TextPrefix(c.scope, d.scope, TextCode(c.jti) + x, TextCode(d.jti) + y);
    TextPrefix(c.jti, d.jti, x, y);
    IntPrefix(c.iat, d.iat, IntCode(c.exp), IntCode(d.exp));
    assert IntCode(c.exp) + "" == IntCode(c.exp) && IntCode(d.exp) + "" == IntCode(d.exp);
    IntPrefix(c.exp, d.exp, "", "");
  }

  ghost function ParseClaims(b: bytes): Option<Tickets.RawClaims> {
    if exists c :: Utf24(ClaimsCode(c)) == b then
      var c :| Utf24(ClaimsCode(c)) == b;
      Some(Tickets.Raw(c))
    else None
  }

  ghost function ParseKid(b: bytes): Option<string> {
    if exists kid :: Utf24("k" + kid) == b then
      var kid :| Utf24("k" + kid) == b;
      Some(kid)
    else None
  }

  ghost function TheCodec(): Tickets.Codec {
    Tickets.Codec(
      s => Utf24(s), c => Utf24(ClaimsCode(c)), b => ParseClaims(b), kid => Utf24("k" + kid), b => ParseKid(b))
  }

  lemma CodecExists()
    ensures Tickets.RoundTrips(TheCodec())
  {
    var k := TheCodec();
    forall a, b | k.utf8(a) == k.utf8(b) ensures a == b { Utf24Injective(a, b); }
    forall c ensures k.parseClaims(k.printClaims(c)) == Some(Tickets.Raw(c)) {
      var b := Utf24(ClaimsCode(c));
      var d :| Utf24(ClaimsCode(d)) == b && ParseClaims(b) == Some(Tickets.Raw(d));
      Utf24Injective(ClaimsCode(c), ClaimsCode(d));
      ClaimsInjective(c, d);
    }
    forall kid ensures k.parseKid(k.printKid(kid)) == Some(kid) && k.printKid(kid) != [] {
      var other := ParseKid(Utf24("k" + kid)).value;
      Utf24Injective("k" + kid, "k" + other);
      assert ("k" + kid)[1..] == kid && ("k" + other)[1..] == other;
    }
  }

  // ---------- Cryptography ----------

  function Pub(a: nat): bytes { Utf24(NatCode(a)) }

  lemma PubInjective(a: nat, b: nat)
    requires Pub(a) == Pub(b)
    ensures a == b
  {
    Utf24Injective(NatCode(a), NatCode(b));
    assert NatCode(a) + "" == NatCode(a) && NatCode(b) + "" == NatCode(b);
    NatPrefix(a, b, "", "");
  }

  /** The unordered pair of two private keys. */
  function Shared(a: nat, b: nat): bytes {
    if a <= b then Utf24(NatCode(a) + NatCode(b)) else Utf24(NatCode(b) + NatCode(a))
  }

  lemma SharedInjective(a: nat, b: nat, x: nat, y: nat)
    requires Shared(a, b) == Shared(x, y)
    ensures (a == x && b == y) || (a == y && b == x)
  {
    var p, q := if a <= b then a else b, if a <= b then b else a;
    var r, s := if x <= y then x else y, if x <= y then y else x;
    Utf24Injective(NatCode(p) + NatCode(q), NatCode(r) + NatCode(s));
    NatPrefix(p, r, NatCode(q), NatCode(s));
    assert NatCode(q) + "" == NatCode(q) && NatCode(s) + "" == NatCode(s);
    NatPrefix(q, s, "", "");
  }

  ghost function Dh(a: nat, peer: bytes): Option<bytes> {
    if exists b :: Pub(b) == peer then
      var b :| Pub(b) == peer;
      Some(Shared(a, b))
    else None
  }

  lemma DhOfPub(a: nat, b: nat)
    ensures Dh(a, Pub(b)) == Some(Shared(a, b))
  {
    var c :| Pub(c) == Pub(b) && Dh(a, Pub(b)) == Some(Shared(a, c));
    PubInjective(b, c);
  }

  function Kdf(secret: bytes, salt: bytes, info: string): bytes {
    Utf24(TextCode(Letters(secret)) + (TextCode(Letters(salt)) + TextCode(info)))
  }

  lemma KdfInjective(s: bytes, salt: bytes, info: string, s': bytes, salt': bytes, info': string)
    requires Kdf(s, salt, info) == Kdf(s', salt', info')
    ensures s == s' && salt == salt' && info == info'
  {
    var a, b := TextCode(Letters(salt)) + TextCode(info), TextCode(Letters(salt')) + TextCode(info');
    Utf24Injective(TextCode(Letters(s)) + a, TextCode(Letters(s')) + b);
    TextPrefix(Letters(s), Letters(s'), a, b);
    TextPrefix(Letters(salt), Letters(salt'), TextCode(info), TextCode(info'));
    assert TextCode(info) + "" == TextCode(info) && TextCode(info') + "" == TextCode(info');
    TextPrefix(info, info', "", "");
    LettersInjective(s, s');
    LettersInjective(salt, salt');
  }

  ghost function TheCrypto(): DataHandshake.Crypto {
    DataHandshake.Crypto(
      ResponderAuth.Printer(v => Utf24(JsonCode(v))), b => EndCode(b), (a: nat) => Pub(a),
      (a: nat, p: bytes) => Dh(a, p), (s, salt, info) => Kdf(s, salt, info), b => Digest(b))
  }

  lemma DigestsExist()
    ensures DataHandshake.InjectiveDigest(TheCrypto())
  {
    var k := TheCrypto();
    forall v, w | k.t.text(v) == k.t.text(w) ensures v == w {
      Utf24Injective(JsonCode(v), JsonCode(w));
      JsonInjective(v, w);
    }
    forall a, b | k.sha256(a) == k.sha256(b) ensures a == b {
      assert [] + EndCode(a) == [] + EndCode(b);
      EndPrefix(a, b, [], []);
    }
  }

  lemma SecretsExist()
    ensures DataHandshake.Commutes(TheCrypto()) && DataHandshake.OnlyEnds(TheCrypto())
  {
    var k := TheCrypto();
    forall a, b | k.pub(a) == k.pub(b) ensures a == b { PubInjective(a, b); }
    forall a ensures k.pub(a) != [] { assert NatCode(a) != ""; }
    forall a, b ensures k.dh(a, k.pub(b)).Some? && k.dh(a, k.pub(b)) == k.dh(b, k.pub(a)) {
      DhOfPub(a, b);
      DhOfPub(b, a);
    }
    forall a, b, x, p | k.dh(x, p).Some? && k.dh(x, p) == k.dh(a, k.pub(b)) ensures x == a || x == b {
      var y :| Pub(y) == p && Dh(x, p) == Some(Shared(x, y));
      DhOfPub(a, b);
      SharedInjective(a, b, x, y);
    }
  }

  lemma KdfExists()
    ensures DataHandshake.InjectiveKdf(TheCrypto())
  {
    var k := TheCrypto();
    forall s, salt, info, s', salt', info' | k.hkdf(s, salt, info) == k.hkdf(s', salt', info')
      ensures s == s' && salt == salt' && info == info'
    {
      KdfInjective(s, salt, info, s', salt', info');
    }
    forall a, b, x, y | a + k.sha256(x) == b + k.sha256(y) ensures k.sha256(x) == k.sha256(y) { EndPrefix(x, y, a, b); }
    forall x ensures k.hex(x) != "" { assert Digest(x)[0] == 'h'; }
  }

  /** All cryptographic assumptions hold together. */
  lemma CryptoExists()
    ensures DataHandshake.Ideal(TheCrypto()) && DataHandshake.OnlyEnds(TheCrypto())
  {
    DigestsExist();
    SecretsExist();
    KdfExists();
  }

  /** One honest handshake completes. */
  lemma HonestCompletion(k: DataHandshake.Crypto, c: DataHandshake.Client, r: DataHandshake.Run)
    returns (d: DataExchange.Completion)
    requires DataHandshake.Ideal(k) && c.nodeId != "" && |c.nonce| >= DataHandshake.MIN_NONCE
    requires r.init == DataHandshake.CreateDataInit(k, c) && r.nodeId == c.nodeId
    requires |r.nodeNonce| == 32 && r.sig != [] && r.now == 0
    ensures d.client == c
    ensures DataHandshake.DeriveClientSession(k, DataHandshake.SignedIn(k, {r}), c, d.accept, d.now).Ok?
    ensures DistinctKeys(DataHandshake.ProofOf(DataExchange.Accept(d)))
  {
    HandshakeAgreement.HonestInitIsAccepted(k, c, r);
    HandshakeAgreement.HonestExchangeCompletes(k, {r}, c, r, 0);
    HandshakeAgreement.ProofIsDistinct(k, r);
    d := DataExchange.Completion(c, DataHandshake.AcceptDataInit(k, r).value.message, 0);
  }

  /** A frame as `sealFrame` makes it, with nothing in it. */
  function EmptySeal(key: bytes, random: byte): SecureChannel.Seal {
    SecureChannel.Seal(key, Frames.DATA, 0, [], seq(12, _ => random), [], seq(16, _ => random))
  }

  /** One client and one run of the node: both sealed, and an outsider is around. */
  function PairHistory(r: DataHandshake.Run, d: DataExchange.Completion, up: bytes, down: bytes)
    : DataExchange.History
  {
    var request, response := EmptySeal(up, 1), EmptySeal(down, 2);
    DataExchange.History({r}, {d}, {3}, {request, response}, _ => request, _ => Some(response))
  }

  lemma SealsAreIdeal(up: bytes, down: bytes)
    ensures SecureChannel.Ideal({EmptySeal(up, 1), EmptySeal(down, 2)})
  {
    var request, response := EmptySeal(up, 1), EmptySeal(down, 2);
    assert request.nonce[0] == 1 && response.nonce[0] == 2;
    assert SecureChannel.WellFormed(request) && SecureChannel.WellFormed(response);
  }

  lemma PairSeals(h: DataExchange.History, r: DataHandshake.Run, d: DataExchange.Completion)
    requires h.runs == {r} && h.completions == {d} && h.response(r).Some?
    requires h.seals == {h.request(d), h.response(r).value}
    ensures forall s :: s in h.seals ==> DataExchange.FromAnEnd(h, s)
  {
    assert DataExchange.IsRequest(h, d, h.request(d)) && DataExchange.IsResponse(h, r, h.response(r).value);
  }

  lemma PairIsReal(k: DataHandshake.Crypto, h: DataExchange.History, r: DataHandshake.Run, d: DataExchange.Completion)
    requires h.runs == {r} && h.completions == {d} && h.response(r).Some?
    requires DistinctKeys(DataHandshake.ProofOf(DataExchange.Accept(d)))
    requires DataExchange.SessionOf(k, h, d).Ok? && DataHandshake.RunSession(k, r).Some?
    requires h.request(d).key == DataExchange.SessionOf(k, h, d).value.sendKey
    requires h.response(r).value.key == DataHandshake.RunSession(k, r).value.sendKey
    ensures DataExchange.CompletionsAreReal(k, h) && DataExchange.RunsAreReal(k, h)
  {
    forall c | c in h.completions ensures c == d {}
    forall q | q in h.runs ensures q == r {}
  }

  lemma PairIsKept(h: DataExchange.History, r: DataHandshake.Run, d: DataExchange.Completion)
    requires h.runs == {r} && h.completions == {d} && h.outsiders == {3}
    requires d.client.privateKey != 3 && r.privateKey != 3
    ensures DataExchange.KeysAreKept(h)
  {
  }

  /** Nor do the assumptions about a history exclude that anything happens: over any ideal
      cryptography there is one with an outsider around, where a client and the node completed
      an honest handshake and each opens what the other sealed. */
  lemma HistoryExists(k: DataHandshake.Crypto)
    returns (h: DataExchange.History, r: DataHandshake.Run, d: DataExchange.Completion)
    requires DataHandshake.Ideal(k) && DataHandshake.OnlyEnds(k)
    ensures DataExchange.Sound(k, h) && h.outsiders != {} && d in h.completions && r in h.runs
    ensures HandshakeAgreement.Matches(k, d.client, DataExchange.Accept(d), r)
    ensures DataHandshake.RunSession(k, r).Some? && h.response(r).Some?
    ensures h.request(d) in h.seals && h.response(r).value in h.seals
    ensures SecureChannel.OpenFrame(h.seals, DataExchange.SessionOf(k, h, d).value.receiveKey,
                                    SecureChannel.Wire(h.response(r).value)).Ok?
    ensures SecureChannel.OpenFrame(h.seals, DataHandshake.RunSession(k, r).value.receiveKey,
                                    SecureChannel.Wire(h.request(d))).Ok?
  {
    var c := DataHandshake.Client("node", 1, seq(16, _ => 7), 0);
    r := DataHandshake.Run(DataHandshake.CreateDataInit(k, c), "node", 2, seq(32, _ => 9), 0, [5]);
    HandshakeAgreement.HonestRunSession(k, c, r);
    d := HonestCompletion(k, c, r);
    h := HonestHistory(k, r, d);
    BothOpen(k, h, r, d);
  }

  lemma HonestHistory(k: DataHandshake.Crypto, r: DataHandshake.Run, d: DataExchange.Completion)
    returns (h: DataExchange.History)
    requires DataHandshake.Ideal(k) && DataHandshake.OnlyEnds(k)
    requires d.client.privateKey != 3 && r.privateKey != 3
    requires DistinctKeys(DataHandshake.ProofOf(DataExchange.Accept(d)))
    requires DataHandshake.DeriveClientSession(k, DataHandshake.SignedIn(k, {r}), d.client, d.accept, d.now).Ok?
    requires DataHandshake.RunSession(k, r).Some?
    ensures h.runs == {r} && DataExchange.SessionOf(k, h, d).Ok? && DataExchange.Sound(k, h)
    ensures h == PairHistory(r, d, DataExchange.SessionOf(k, h, d).value.sendKey,
                             DataHandshake.RunSession(k, r).value.sendKey)
  {
    var signed := DataHandshake.SignedIn(k, {r});
    var session := DataHandshake.DeriveClientSession(k, signed, d.client, d.accept, d.now).value;
    h := PairHistory(r, d, session.sendKey, DataHandshake.RunSession(k, r).value.sendKey);
    SealsAreIdeal(h.request(d).key, h.response(r).value.key);
    PairIsReal(k, h, r, d);
    PairSeals(h, r, d);
    PairIsKept(h, r, d);
  }

  lemma BothOpen(k: DataHandshake.Crypto, h: DataExchange.History, r: DataHandshake.Run, d: DataExchange.Completion)
    requires DataExchange.Sound(k, h) && h.runs == {r} && h.completions == {d}
    requires DataExchange.SessionOf(k, h, d).Ok? && DataHandshake.RunSession(k, r).Some?
    requires h == PairHistory(r, d, DataExchange.SessionOf(k, h, d).value.sendKey,
                              DataHandshake.RunSession(k, r).value.sendKey)
    ensures HandshakeAgreement.Matches(k, d.client, DataExchange.Accept(d), r)
    ensures h.response(r).Some? && h.request(d) in h.seals && h.response(r).value in h.seals
    ensures SecureChannel.OpenFrame(h.seals, DataExchange.SessionOf(k, h, d).value.receiveKey,
                                    SecureChannel.Wire(h.response(r).value)).Ok?
    ensures SecureChannel.OpenFrame(h.seals, DataHandshake.RunSession(k, r).value.receiveKey,
                                    SecureChannel.Wire(h.request(d))).Ok?
  {
    var q := DataExchange.EndsWith(k, h, d);
    SecureChannel.SealedOpens(h.seals, h.request(d));
    SecureChannel.SealedOpens(h.seals, h.response(r).value);
  }
}
