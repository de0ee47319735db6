/** Routing tickets: the claims an orchestrator signs for one request at one node, and the
    checks the node makes before it believes them. */
module Tickets {
  import opened Wrappers
  import opened Bytes
  import opened Paseto

  const ISSUER := "consensus-orchestrator"
  const SCOPE_PROXY := "proxy"
  const DEFAULT_TTL := 60
  const CLOCK_TOLERANCE := 5

  datatype Claims = Claims(iss: string, aud: string, sub: string, scope: string, iat: int, exp: int, jti: string)

  /** Claims as they come out of JSON: each is there with the right type, or not. */
  datatype RawClaims = RawClaims(
    iss: Option<string>,
    aud: Option<string>,
    sub: Option<string>,
    scope: Option<string>,
    iat: Option<int>,
    exp: Option<int>,
    jti: Option<string>)

  function Raw(c: Claims): RawClaims {
    RawClaims(Some(c.iss), Some(c.aud), Some(c.sub), Some(c.scope), Some(c.iat), Some(c.exp), Some(c.jti))
  }

  /** Text and JSON encodings. */
  datatype Codec = Codec(
    utf8: string -> bytes,
    printClaims: Claims -> bytes,
    parseClaims: bytes -> Option<RawClaims>,
    printKid: string -> bytes,
    parseKid: bytes -> Option<string>)

  ghost predicate RoundTrips(k: Codec) {
    && (forall a, b :: k.utf8(a) == k.utf8(b) ==> a == b)
    && (forall c :: k.parseClaims(k.printClaims(c)) == Some(Raw(c)))
    && (forall kid :: k.parseKid(k.printKid(kid)) == Some(kid) && k.printKid(kid) != [])
  }

  /** One call of `issueTicket`, with the signature it made. */
  datatype Issue = Issue(
    nodeId: string,
    dedupeKey: string,
    jti: string,
    ttl: Option<int>,
    scope: Option<string>,
    now: int,
    kid: string,
    sig: bytes)

  function ClaimsOf(i: Issue): Claims {
    Claims(ISSUER, i.nodeId, i.dedupeKey, match i.scope case None => SCOPE_PROXY case Some(s) => s,
           i.now, i.now + match i.ttl case None => DEFAULT_TTL case Some(t) => t, i.jti)
  }

  /** The node is named twice: as the audience, and as the implicit assertion. */
  function CallOf(k: Codec, i: Issue): Signed {
    Signed(k.printClaims(ClaimsOf(i)), k.printKid(i.kid), k.utf8(i.nodeId), i.sig)
  }

  function TokenOf(k: Codec, i: Issue): string { SignToken(CallOf(k, i)) }

  function CallsOf(k: Codec, issues: set<Issue>): set<Signed> { set i | i in issues :: CallOf(k, i) }

  /** Every signature is 64 bytes and every message short. */
  predicate Issued(k: Codec, issues: set<Issue>) { forall i :: i in issues ==> WellSigned(CallOf(k, i)) }

  datatype TicketError =
    | BadToken(error: TokenError)
    | MalformedClaims | BadIssuer | AudienceMismatch | ScopeMismatch | Expired | FromTheFuture | NoJti | NoSubject

  datatype VerifiedTicket = VerifiedTicket(claims: Claims, kid: Option<string>)

  datatype Options = Options(nodeId: string, scope: string, now: int, skew: int)

  function CheckClaims(c: RawClaims, o: Options): Result<Claims, TicketError> {
    if c.iss != Some(ISSUER) then Err(BadIssuer)
    else if c.aud != Some(o.nodeId) then Err(AudienceMismatch)
    else if c.scope != Some(o.scope) then Err(ScopeMismatch)
    else if c.exp.None? || o.now > c.exp.value + o.skew then Err(Expired)
    else if c.iat.None? || c.iat.value > o.now + o.skew then Err(FromTheFuture)
    else if c.jti.None? || c.jti.value == "" then Err(NoJti)
    else if c.sub.None? || c.sub.value == "" then Err(NoSubject)
    else Ok(Claims(ISSUER, o.nodeId, c.sub.value, o.scope, c.iat.value, c.exp.value, c.jti.value))
  }

  /** `issues` is every ticket signed with the orchestrator's key so far. */
  ghost function VerifyTicket(
      k: Codec, issues: set<Issue>, token: string, o: Options)
    : Result<VerifiedTicket, TicketError>
  {
    match VerifyToken(CallsOf(k, issues), token, k.utf8(o.nodeId))
    case Err(x) => Err(BadToken(x))
    case Ok(v) =>
      match k.parseClaims(v.message)
      case None => Err(MalformedClaims)
      case Some(raw) =>
        match CheckClaims(raw, o)
        case Err(x) => Err(x)
        case Ok(claims) => Ok(VerifiedTicket(claims, if v.footer == [] then None else k.parseKid(v.footer)))
  }

  /** What a ticket must be to be good at this node now. */
  predicate Good(c: Claims, o: Options) {
    && c.iss == ISSUER && c.aud == o.nodeId && c.scope == o.scope
    && o.now <= c.exp + o.skew && c.iat <= o.now + o.skew
    && c.jti != "" && c.sub != ""
  }

  lemma CheckIffGood(c: Claims, o: Options)
    ensures CheckClaims(Raw(c), o).Ok? <==> Good(c, o)
    ensures Good(c, o) ==> CheckClaims(Raw(c), o) == Ok(c)
  {
  }

  /** A ticket that verifies was issued: with these very claims, for this node and scope, and
      inside its time window. */
  lemma VerifiedWasIssued(k: Codec, issues: set<Issue>, token: string, o: Options) returns (i: Issue)
    requires RoundTrips(k) && Issued(k, issues)
    requires |token| < TWO_63 && Short(k.utf8(o.nodeId))
    requires VerifyTicket(k, issues, token, o).Ok?
    ensures i in issues && Good(ClaimsOf(i), o)
    ensures VerifyTicket(k, issues, token, o) == Ok(VerifiedTicket(ClaimsOf(i), Some(i.kid)))
  {
    var s := VerifiedWasSigned(CallsOf(k, issues), token, k.utf8(o.nodeId));
    i :| i in issues && CallOf(k, i) == s;
    assert k.parseClaims(k.printClaims(ClaimsOf(i))) == Some(Raw(ClaimsOf(i)));
    assert k.parseKid(k.printKid(i.kid)) == Some(i.kid);
    CheckIffGood(ClaimsOf(i), o);
  }

  /** An issued ticket verifies exactly when it is good here and now. */
  lemma IssuedVerifiesIff(k: Codec, issues: set<Issue>, i: Issue, o: Options)
    requires RoundTrips(k) && Issued(k, issues) && i in issues
    ensures VerifyTicket(k, issues, TokenOf(k, i), o).Ok? ==> o.nodeId == i.nodeId
    ensures o.nodeId == i.nodeId ==> (VerifyTicket(k, issues, TokenOf(k, i), o).Ok? <==> Good(ClaimsOf(i), o))
  {
    var calls := CallsOf(k, issues);
    var call := CallOf(k, i);
    assert call in calls;
    assert k.parseClaims(call.message) == Some(Raw(ClaimsOf(i)));
    CheckIffGood(ClaimsOf(i), o);
    if o.nodeId == i.nodeId {
      SignedVerifies(calls, call);
    } else if VerifyToken(calls, TokenOf(k, i), k.utf8(o.nodeId)).Ok? {
      SameBody(calls, call, k.utf8(o.nodeId));
    }
  }

  /** What a token says does not depend on where it is checked. */
  lemma SameBody(calls: set<Signed>, s: Signed, implicit: bytes)
    requires s in calls && WellSigned(s) && VerifyToken(calls, SignToken(s), implicit).Ok?
    ensures VerifyToken(calls, SignToken(s), implicit) == Ok(Verified(s.message, s.footer))
  {
    SignedVerifies(calls, s);
  }

  /** A ticket verifies exactly when it spells one that was issued for this node and is good here and
      now; and then to its claims and key id. */
  lemma VerifiesIff(k: Codec, issues: set<Issue>, token: string, o: Options)
    requires RoundTrips(k) && Issued(k, issues)
    requires |token| < TWO_63 && Short(k.utf8(o.nodeId))
    ensures VerifyTicket(k, issues, token, o).Ok? <==>
            exists i :: i in issues && i.nodeId == o.nodeId && Spells(token, CallOf(k, i)) && Good(ClaimsOf(i), o)
    ensures forall i :: i in issues && i.nodeId == o.nodeId && Spells(token, CallOf(k, i)) && Good(ClaimsOf(i), o) ==>
              VerifyTicket(k, issues, token, o) == Ok(VerifiedTicket(ClaimsOf(i), Some(i.kid)))
  {
    if VerifyTicket(k, issues, token, o).Ok? { var i := VerifiedIsIssue(k, issues, token, o); }
    forall i | i in issues && i.nodeId == o.nodeId && Spells(token, CallOf(k, i)) && Good(ClaimsOf(i), o)
      ensures VerifyTicket(k, issues, token, o) == Ok(VerifiedTicket(ClaimsOf(i), Some(i.kid)))
    {
      var calls := CallsOf(k, issues);
      assert CallOf(k, i) in calls;
      SpelledVerifies(calls, token, CallOf(k, i));
      assert k.parseClaims(k.printClaims(ClaimsOf(i))) == Some(Raw(ClaimsOf(i)));
      assert k.parseKid(k.printKid(i.kid)) == Some(i.kid);
      CheckIffGood(ClaimsOf(i), o);
    }
  }

  lemma VerifiedIsIssue(k: Codec, issues: set<Issue>, token: string, o: Options) returns (i: Issue)
    requires RoundTrips(k) && Issued(k, issues)
    requires |token| < TWO_63 && Short(k.utf8(o.nodeId)) && VerifyTicket(k, issues, token, o).Ok?
    ensures i in issues && i.nodeId == o.nodeId && Spells(token, CallOf(k, i)) && Good(ClaimsOf(i), o)
  {
    var calls := CallsOf(k, issues);
    var s := VerifiedIsSpelled(calls, token, k.utf8(o.nodeId));
    SpelledVerifies(calls, token, s);
    i :| i in issues && CallOf(k, i) == s;
    assert k.parseClaims(k.printClaims(ClaimsOf(i))) == Some(Raw(ClaimsOf(i)));
    CheckIffGood(ClaimsOf(i), o);
  }

  /** A ticket is accepted until five seconds past its expiry. */
  lemma AcceptedAfterExpiry(k: Codec, issues: set<Issue>, i: Issue, now: int)
    requires RoundTrips(k) && Issued(k, issues) && i in issues
    requires ClaimsOf(i).scope == SCOPE_PROXY && i.jti != "" && i.dedupeKey != ""
    requires i.now <= ClaimsOf(i).exp <= now <= ClaimsOf(i).exp + CLOCK_TOLERANCE
    ensures VerifyTicket(k, issues, TokenOf(k, i), Options(i.nodeId, SCOPE_PROXY, now, CLOCK_TOLERANCE)).Ok?
  {
    IssuedVerifiesIff(k, issues, i, Options(i.nodeId, SCOPE_PROXY, now, CLOCK_TOLERANCE));
  }
}
