/** The data plane of a node: connections that each carry one sealed, ticketed request, all
    sharing one replay cache. */
module DataPlane {
  import opened Wrappers
  import opened Bytes
  import opened Strings
  import opened CanonicalJson
  import opened Dedupe
  import opened Profile
  import opened ProfileNormal
  import opened ProfileRequests
  import opened ProxyServe
  import opened Tickets
  import opened RequestTickets
  import opened Replay
  import Base64
  import Frames
  import SecureChannel
  import Paseto

  // ---------- One request ----------

  /** A decoded request payload. */
  datatype Payload = Payload(
    token: string,
    targetUrl: string,
    verb: Option<string>,
    headers: seq<Pair>,
    body: Option<string>,
    base64: bool,
    profile: Option<Json>)

  /** What the node is and knows: its id, its engine, the seals and tickets that exist. */
  datatype Node = Node(
    id: string,
    e: Engine,
    k: Codec,
    parsePayload: bytes -> Option<Payload>,
    maxEntries: int)

  /** Tickets decode to what was printed, and no text is longer than 2^63. */
  ghost predicate SaneNode(n: Node) {
    && RoundTrips(n.k) && Paseto.Short(n.k.utf8(n.id))
    && forall b, q :: n.parsePayload(b) == Some(q) ==> |q.token| < Paseto.TWO_63
  }

  /** The frame opens under this connection's key, is a data frame, and parses. */
  ghost function ReadRequest(n: Node, seals: set<SecureChannel.Seal>, receiveKey: bytes, raw: bytes): Option<Payload> {
    match SecureChannel.OpenFrame(seals, receiveKey, raw)
    case Err(_) => None
    case Ok(o) => if o.frame.kind != Frames.DATA then None else n.parsePayload(o.plaintext)
  }

  function DecodeBody(n: Node, p: Payload): Body {
    match p.body
    case None => NoBody
    case Some(text) => if p.base64 then Raw(Base64.Decode(text)) else Raw(n.e.p.utf8(text))
  }

  /** A client sends its body as base64; the node reads the same bytes. */
  lemma BodyRoundTrip(n: Node, p: Payload, body: bytes)
    requires p.body == Some(Base64.Encode(body)) && p.base64
    ensures DecodeBody(n, p) == Raw(body)
  {
    Base64.DecodeEncode(body);
  }

  function VerbOf(p: Payload): string { ToUpper(match p.verb case None => "GET" case Some(v) => v) }

  /** What is served, and what the ticket is bound to. */
  datatype Bound = Bound(serve: ServeRequest, request: Request)

  function Bind(n: Node, p: Payload): Result<Bound, Error> {
    var body := DecodeBody(n, p);
    match p.profile
    case None =>
      Ok(Bound(ServeRequest(p.targetUrl, Some(VerbOf(p)), p.headers, body, None),
               Request(p.targetUrl, VerbOf(p), p.headers, body, None)))
    case Some(input) =>
      match Prepare(n.e, input, p.targetUrl, VerbOf(p), p.headers)
      case Err(x) => Err(x)
      case Ok(r) =>
        Ok(Bound(ServeRequest(p.targetUrl, Some(VerbOf(p)), r.headers, body, Some(ToJson(r.profile))),
                 Request(p.targetUrl, VerbOf(p), r.headers, body, Some(r.hash))))
  }

  // ---------- What a payload asks for ----------

  /** The bytes of the body: those that were printed as base64, or those of the text. */
  ghost predicate BodyOf(n: Node, p: Payload, body: Body) {
    match p.body
    case None => body == NoBody
    case Some(text) =>
      && (p.base64 ==> body == Raw(Base64.Decode(text)) && forall b :: text == Base64.Encode(b) ==> body == Raw(b))
      && (!p.base64 ==> body == Raw(n.e.p.utf8(text)))
  }

  /** `s` is the request that payload `p` asks for. */
  ghost predicate AsksFor(n: Node, p: Payload, s: ServeRequest) {
    && s.targetUrl == p.targetUrl
    && (p.verb.None? ==> s.verb == Some("GET")) && (p.verb.Some? ==> s.verb == Some(ToUpper(p.verb.value)))
    && BodyOf(n, p, s.body)
    && (p.profile.None? ==> s.profile.None? && s.headers == p.headers)
    && (p.profile.Some? ==>
          && Normalize(n.e, p.profile.value).Ok?
          && s.profile == Some(ToJson(Normalize(n.e, p.profile.value).value))
          && HeadersUnder(Normalize(n.e, p.profile.value).value, p.headers, s.headers))
  }

  /** What the ticket of a payload must be bound to, when `s` is served: the same request, and the
      digest of the normalised profile. */
  function BoundRequest(n: Node, p: Payload, s: ServeRequest): Request {
    var hash := match p.profile
      case None => None
      case Some(input) =>
        match Normalize(n.e, input)
        case Err(_) => None
        case Ok(q) => Some(HashProfile(n.e, q));
    Request(s.targetUrl, match s.verb case None => "GET" case Some(v) => v, s.headers, s.body, hash)
  }

  lemma DecodedBody(n: Node, p: Payload)
    ensures BodyOf(n, p, DecodeBody(n, p))
  {
    if p.body.Some? && p.base64 {
      forall b | p.body.value == Base64.Encode(b) ensures Base64.Decode(p.body.value) == b { Base64.DecodeEncode(b); }
    }
  }

  /** What a payload is bound to, in terms of the payload: its target, its method upper-cased and
      GET without one, its body's bytes, its headers or those its profile leaves, and the
      normalised profile. */
  lemma BindMeans(n: Node, p: Payload)
    requires Bind(n, p).Ok?
    ensures AsksFor(n, p, Bind(n, p).value.serve)
    ensures Bind(n, p).value.request == BoundRequest(n, p, Bind(n, p).value.serve)
  {
    UpperOfGet();
    DecodedBody(n, p);
    if p.profile.Some? { PreparedMeans(n.e, p.profile.value, p.targetUrl, VerbOf(p), p.headers); }
  }

  /** The request that payload `p` asks for may be made at all. */
  ghost predicate Admissible(n: Node, p: Payload) {
    p.profile.None?
    || (Normalize(n.e, p.profile.value).Ok?
        && Permitted(n.e, Normalize(n.e, p.profile.value).value, p.targetUrl,
                     if p.verb.None? then "GET" else p.verb.value))
  }

  /** A payload is bound exactly when it has no profile, or a valid one that permits it. */
  lemma BindIff(n: Node, p: Payload)
    requires Sane(n.e)
    ensures Bind(n, p).Ok? <==> Admissible(n, p)
  {
    UpperOfGet();
    UpperVerb(p);
    if p.profile.Some? { AssertIffPermitted(n.e, p.profile.value, p.targetUrl, VerbOf(p)); }
  }

  function SpendingOf(n: Node, p: Payload, r: Request, now: int, later: int): Spending {
    Spending(p.token, n.id, SCOPE_PROXY, CLOCK_TOLERANCE, GenerateDedupeKey(n.e.p, r), now, later)
  }

  datatype Decision =
    | BadRequest
    | Unauthorized(error: SpendError)
    | Serve(request: ServeRequest, ticket: VerifiedTicket)

  /** The node's decision on one request frame, and the replay cache afterwards. */
  ghost function Resolve(
      n: Node, seals: set<SecureChannel.Seal>, issues: set<Issue>, c: Cache, receiveKey: bytes, raw: bytes,
      now: int, later: int): (Decision, Cache)
  {
    match ReadRequest(n, seals, receiveKey, raw)
    case None => (BadRequest, c)
    case Some(p) =>
      match Bind(n, p)
      case Err(_) => (BadRequest, c)
      case Ok(b) => Decide(n, issues, c, p, b, now, later)
  }

  ghost function Decide(
      n: Node, issues: set<Issue>, c: Cache, p: Payload, b: Bound, now: int, later: int)
    : (Decision, Cache)
  {
    match VerifyRequestTicket(n.k, issues, SpendingOf(n, p, b.request, now, later), c, n.maxEntries)
    case (Err(x), next) => (Unauthorized(x), next)
    case (Ok(t), next) => (Serve(b.serve, t), next)
  }

  /** What serving a request proves: somebody with this connection's key sealed it, and the
      orchestrator issued its ticket for this node and for this very request. */
  lemma ServedWasIssued(
      n: Node, seals: set<SecureChannel.Seal>, issues: set<Issue>, c: Cache, receiveKey: bytes, raw: bytes,
      now: int, later: int)
    returns (s: SecureChannel.Seal, p: Payload, i: Issue)
    requires SaneNode(n) && Issued(n.k, issues) && SecureChannel.Ideal(seals)
    requires Resolve(n, seals, issues, c, receiveKey, raw, now, later).0.Serve?
    ensures s in seals && s.key == receiveKey && SecureChannel.Wire(s) == raw && s.kind == Frames.DATA
    ensures n.parsePayload(s.plaintext) == Some(p)
    ensures var served := Resolve(n, seals, issues, c, receiveKey, raw, now, later).0.request;
            && AsksFor(n, p, served)
            && Some(i.dedupeKey) == GenerateDedupeKey(n.e.p, BoundRequest(n, p, served))
    ensures i in issues && i.nodeId == n.id
    ensures i.now <= now + CLOCK_TOLERANCE && now <= ClaimsOf(i).exp + CLOCK_TOLERANCE
    ensures Consume(c, n.maxEntries, Call(i.jti, ClaimsOf(i).exp, later)).1
    ensures Resolve(n, seals, issues, c, receiveKey, raw, now, later).1 ==
            Consume(c, n.maxEntries, Call(i.jti, ClaimsOf(i).exp, later)).0
  {
    s := SecureChannel.OpenedWasSealed(seals, receiveKey, raw);
    p := ReadRequest(n, seals, receiveKey, raw).value;
    BindMeans(n, p);
    i := DecidedWasIssued(n, issues, c, p, Bind(n, p).value, now, later);
  }

  lemma DecidedWasIssued(n: Node, issues: set<Issue>, c: Cache, p: Payload, b: Bound, now: int, later: int)
    returns (i: Issue)
    requires RoundTrips(n.k) && Paseto.Short(n.k.utf8(n.id)) && Issued(n.k, issues) && |p.token| < Paseto.TWO_63
    requires Decide(n, issues, c, p, b, now, later).0.Serve?
    ensures i in issues && i.nodeId == n.id && Some(i.dedupeKey) == GenerateDedupeKey(n.e.p, b.request)
    ensures i.now <= now + CLOCK_TOLERANCE && now <= ClaimsOf(i).exp + CLOCK_TOLERANCE
    ensures Consume(c, n.maxEntries, Call(i.jti, ClaimsOf(i).exp, later)).1
    ensures Decide(n, issues, c, p, b, now, later).1 == Consume(c, n.maxEntries, Call(i.jti, ClaimsOf(i).exp, later)).0
  {
    var s := SpendingOf(n, p, b.request, now, later);
    i := AcceptedWasIssued(n.k, issues, s, c, n.maxEntries);
  }

  lemma SealedIsRead(n: Node, seals: set<SecureChannel.Seal>, s: SecureChannel.Seal)
    requires SecureChannel.Ideal(seals) && s in seals
    ensures ReadRequest(n, seals, s.key, SecureChannel.Wire(s)) ==
            if s.kind == Frames.DATA then n.parsePayload(s.plaintext) else None
  {
    SecureChannel.SealedOpens(seals, s);
  }

  /** Main result: a sealed request that carries an issued ticket is served exactly when it is
      admissible, the ticket is for this node and for what the payload asks, in time, and its id
      is new to the cache; and then it is served as asked. */
  lemma ServedIff(
      n: Node, seals: set<SecureChannel.Seal>, issues: set<Issue>, c: Cache, s: SecureChannel.Seal, p: Payload,
      i: Issue, now: int, later: int)
    returns (asked: ServeRequest)
    requires RoundTrips(n.k) && Sane(n.e) && Issued(n.k, issues) && SecureChannel.Ideal(seals)
    requires s in seals && s.kind == Frames.DATA && n.parsePayload(s.plaintext) == Some(p)
    requires i in issues && p.token == TokenOf(n.k, i)
    ensures Admissible(n, p) ==> AsksFor(n, p, asked)
    ensures var d := Resolve(n, seals, issues, c, s.key, SecureChannel.Wire(s), now, later).0;
            && (d.BadRequest? <==> !Admissible(n, p))
            && (d.Serve? <==>
                  && Admissible(n, p) && i.nodeId == n.id
                  && GenerateDedupeKey(n.e.p, BoundRequest(n, p, asked)) == Some(i.dedupeKey)
                  && i.jti != "" && i.dedupeKey != "" && ClaimsOf(i).scope == SCOPE_PROXY
                  && i.now <= now + CLOCK_TOLERANCE && now <= ClaimsOf(i).exp + CLOCK_TOLERANCE
                  && Consume(c, n.maxEntries, Call(i.jti, ClaimsOf(i).exp, later)).1)
            && (d.Serve? ==> d.request == asked)
  {
    BindIff(n, p);
    ResolveIsDecide(n, seals, issues, c, s, p, now, later);
    asked := ServeRequest(p.targetUrl, None, [], NoBody, None);
    if Bind(n, p).Ok? {
      BindMeans(n, p);
      asked := Bind(n, p).value.serve;
      DecidedIff(n, issues, c, p, Bind(n, p).value, i, now, later);
    }
  }

  lemma ResolveIsDecide(
      n: Node, seals: set<SecureChannel.Seal>, issues: set<Issue>, c: Cache, s: SecureChannel.Seal, p: Payload,
      now: int, later: int)
    requires SecureChannel.Ideal(seals) && s in seals && s.kind == Frames.DATA && n.parsePayload(s.plaintext) == Some(p)
    ensures Resolve(n, seals, issues, c, s.key, SecureChannel.Wire(s), now, later) ==
            if Bind(n, p).Ok? then Decide(n, issues, c, p, Bind(n, p).value, now, later) else (BadRequest, c)
  {
    SealedIsRead(n, seals, s);
  }

  lemma DecidedIff(
      n: Node, issues: set<Issue>, c: Cache, p: Payload, b: Bound, i: Issue, now: int, later: int)
    requires RoundTrips(n.k) && Issued(n.k, issues) && i in issues && p.token == TokenOf(n.k, i)
    ensures var d := Decide(n, issues, c, p, b, now, later).0;
            && !d.BadRequest?
            && (d.Serve? <==>
                  && i.nodeId == n.id && GenerateDedupeKey(n.e.p, b.request) == Some(i.dedupeKey)
                  && i.jti != "" && i.dedupeKey != "" && ClaimsOf(i).scope == SCOPE_PROXY
                  && i.now <= now + CLOCK_TOLERANCE && now <= ClaimsOf(i).exp + CLOCK_TOLERANCE
                  && Consume(c, n.maxEntries, Call(i.jti, ClaimsOf(i).exp, later)).1)
            && (d.Serve? ==> d.request == b.serve)
  {
    AcceptedIff(n.k, issues, i, SpendingOf(n, p, b.request, now, later), c, n.maxEntries);
  }

  // ---------- What is served is what was paid for ----------

  lemma UpperVerb(p: Payload)
    ensures ToUpper(VerbOf(p)) == VerbOf(p)
  {
    UpperTwice(match p.verb case None => "GET" case Some(v) => v);
  }

  /** The server prepares the request again. It plans exactly the request whose key the ticket
      carries, unless a resolved path begins with two slashes; then it serves nothing. */
  lemma ServesWhatWasBound(n: Node, p: Payload)
    requires Sane(n.e) && Bind(n, p).Ok? && GenerateDedupeKey(n.e.p, Bind(n, p).value.request).Some?
    ensures var b, plan := Bind(n, p).value, PlanFor(n.e, Bind(n, p).value.serve);
            if p.profile.Some?
               && SomeDoubled(Prepare(n.e, p.profile.value, p.targetUrl, VerbOf(p), p.headers).value.profile.paths)
            then plan == Err(BadPaths)
            else plan.Ok? && plan.value.request == BoundRequest(n, p, b.serve)
  {
    UpperVerb(p);
    BindMeans(n, p);
    if p.profile.Some? {
      var first := Prepare(n.e, p.profile.value, p.targetUrl, VerbOf(p), p.headers);
      PrepareTwice(n.e, p.profile.value, p.targetUrl, VerbOf(p), p.headers);
      PlanOfPrepared(n.e, first.value, p.targetUrl, VerbOf(p), DecodeBody(n, p));
    }
  }

  lemma PlanOfPrepared(e: Engine, r: Prepared, targetUrl: string, verb: string, body: Body)
    requires GenerateDedupeKey(e.p, Request(targetUrl, verb, r.headers, body, Some(r.hash))).Some?
    ensures PlanPrepared(e, r, targetUrl, verb, body).Ok?
    ensures PlanPrepared(e, r, targetUrl, verb, body).value.request
            == Request(targetUrl, verb, r.headers, body, Some(r.hash))
  {
  }
}
