/** Spending a ticket on a request: the ticket's checks, the binding to this very request, and
    last of all the single-use id. */
module RequestTickets {
  import opened Wrappers
  import opened Bytes
  import opened Paseto
  import opened Tickets
  import opened Replay
  import opened ReplayRuns

  datatype SpendError = BadTicket(error: TicketError) | NoKey | OtherRequest | Replayed

  /** What one check of a request is made with. The clock is read once for the claims and
      once more for the replay cache. */
  datatype Spending = Spending(
    token: string,
    nodeId: string,
    scope: string,
    skew: int,
    dedupeKey: Option<string>,
    now: int,
    later: int)

  function OptionsOf(s: Spending): Options { Options(s.nodeId, s.scope, s.now, s.skew) }

  /** Everything but the replay cache. `dedupeKey` is `None` when the key cannot be computed. */
  ghost function CheckTicket(k: Codec, issues: set<Issue>, s: Spending): Result<VerifiedTicket, SpendError> {
    match VerifyTicket(k, issues, s.token, OptionsOf(s))
    case Err(x) => Err(BadTicket(x))
    case Ok(t) =>
      match s.dedupeKey
      case None => Err(NoKey)
      case Some(key) => if key != t.claims.sub then Err(OtherRequest) else Ok(t)
  }

  /** The result, and the cache afterwards. */
  ghost function VerifyRequestTicket(k: Codec, issues: set<Issue>, s: Spending, c: Cache, max: int)
    : (Result<VerifiedTicket, SpendError>, Cache)
  {
    match CheckTicket(k, issues, s)
    case Err(x) => (Err(x), c)
    case Ok(t) =>
      var (next, isNew) := Consume(c, max, Call(t.claims.jti, t.claims.exp, s.later));
      (if isNew then Ok(t) else Err(Replayed), next)
  }

  /** The source's order of steps on the cache object; without a cache nothing is recorded.
      `checked` is what the ticket and the request binding came to. */
  method SpendTicket(
      ghost k: Codec, ghost issues: set<Issue>, ghost s: Spending,
      checked: Result<VerifiedTicket, SpendError>, replay: JtiReplayCache?, later: int)
    returns (r: Result<VerifiedTicket, SpendError>)
    requires checked == CheckTicket(k, issues, s) && later == s.later
    requires replay != null ==> replay.seen.Valid()
    modifies replay
    ensures replay == null ==> r == checked
    ensures replay != null ==>
              replay.seen.Valid()
              && (r, replay.Current()) == VerifyRequestTicket(k, issues, s, old(replay.Current()), replay.maxEntries)
  {
    if checked.Err? { return checked; }
    if replay != null {
      var isNew := replay.ConsumeJti(checked.value.claims.jti, checked.value.claims.exp, later);
      if !isNew { return Err(Replayed); }
    }
    return checked;
  }

  /** What an accepted request proves. */
  lemma AcceptedWasIssued(k: Codec, issues: set<Issue>, s: Spending, c: Cache, max: int) returns (i: Issue)
    requires RoundTrips(k) && Issued(k, issues) && |s.token| < TWO_63 && Short(k.utf8(s.nodeId))
    requires VerifyRequestTicket(k, issues, s, c, max).0.Ok?
    ensures i in issues && VerifyRequestTicket(k, issues, s, c, max).0.value.claims == ClaimsOf(i)
    ensures i.nodeId == s.nodeId && Some(i.dedupeKey) == s.dedupeKey
    ensures i.now <= s.now + s.skew && s.now <= ClaimsOf(i).exp + s.skew
    ensures Consume(c, max, Call(i.jti, ClaimsOf(i).exp, s.later)).1
  {
    i := VerifiedWasIssued(k, issues, s.token, OptionsOf(s));
  }

  /** A ticket spent on its own request at its own node, in time and not yet spent, is
      accepted, and exactly then. */
  lemma AcceptedIff(k: Codec, issues: set<Issue>, i: Issue, s: Spending, c: Cache, max: int)
    requires RoundTrips(k) && Issued(k, issues) && i in issues && s.token == TokenOf(k, i)
    ensures VerifyRequestTicket(k, issues, s, c, max).0.Ok? <==>
            && i.nodeId == s.nodeId && Some(i.dedupeKey) == s.dedupeKey && i.jti != "" && i.dedupeKey != ""
            && ClaimsOf(i).scope == s.scope && i.now <= s.now + s.skew && s.now <= ClaimsOf(i).exp + s.skew
            && Consume(c, max, Call(i.jti, ClaimsOf(i).exp, s.later)).1
  {
    IssuedVerifiesIff(k, issues, i, OptionsOf(s));
    if VerifyTicket(k, issues, s.token, OptionsOf(s)).Ok? { OwnClaims(k, issues, i, OptionsOf(s)); }
  }

  lemma OwnClaims(k: Codec, issues: set<Issue>, i: Issue, o: Options)
    requires RoundTrips(k) && Issued(k, issues) && i in issues && VerifyTicket(k, issues, TokenOf(k, i), o).Ok?
    ensures VerifyTicket(k, issues, TokenOf(k, i), o).value.claims == ClaimsOf(i)
  {
    var calls := CallsOf(k, issues);
    assert CallOf(k, i) in calls;
    SameBody(calls, CallOf(k, i), k.utf8(o.nodeId));
    assert k.parseClaims(k.printClaims(ClaimsOf(i))) == Some(Raw(ClaimsOf(i)));
  }

  /** Good in every respect but, perhaps, the replay cache. */
  predicate Spendable(i: Issue, s: Spending) {
    && i.nodeId == s.nodeId && Some(i.dedupeKey) == s.dedupeKey && i.jti != "" && i.dedupeKey != ""
    && ClaimsOf(i).scope == s.scope && i.now <= s.now + s.skew && s.now <= ClaimsOf(i).exp + s.skew
  }

  lemma SpendableIsDecided(k: Codec, issues: set<Issue>, i: Issue, s: Spending, c: Cache, max: int)
    requires RoundTrips(k) && Issued(k, issues) && i in issues && s.token == TokenOf(k, i) && Spendable(i, s)
    ensures var (r, next) := VerifyRequestTicket(k, issues, s, c, max);
            var call := Call(i.jti, ClaimsOf(i).exp, s.later);
            next == Consume(c, max, call).0 && (if Consume(c, max, call).1 then r.Ok? else r == Err(Replayed))
  {
    IssuedVerifiesIff(k, issues, i, OptionsOf(s));
    OwnClaims(k, issues, i, OptionsOf(s));
  }

  /** Exactly when the second spending of a token is refused, in whatever order tickets expire:
      no sweep at or after its expiry, the sweep of the second spending included, and the ids
      accepted in between and not yet swept never filled the cache. */
  lemma SecondSpendingRefusedIff(
      k: Codec, issues: set<Issue>, i: Issue, s: Spending, t: Spending, c: Cache, max: int, between: seq<Call>)
    requires RoundTrips(k) && Issued(k, issues) && i in issues && s.token == TokenOf(k, i) == t.token
    requires Spendable(i, s) && Spendable(i, t) && c.seen.Valid()
    requires VerifyRequestTicket(k, issues, s, c, max).0.Ok?
    requires i.jti !in AcceptedIds(VerifyRequestTicket(k, issues, s, c, max).1, max, between)
    ensures var after, second := VerifyRequestTicket(k, issues, s, c, max).1, Call(i.jti, ClaimsOf(i).exp, t.later);
            VerifyRequestTicket(k, issues, t, Run(after, max, between), max).0 == Err(Replayed) <==>
            && !SweptAt(after.lastSweep, between + [second], ClaimsOf(i).exp)
            && NeverFull(after, max, between, map[])
  {
    var after := VerifyRequestTicket(k, issues, s, c, max).1;
    var e := ClaimsOf(i).exp;
    SpendableIsDecided(k, issues, i, s, c, max);
    SpendableIsDecided(k, issues, i, t, Run(after, max, between), max);
    SecondUseRefusedIff(c, max, Call(i.jti, e, s.later), between, Call(i.jti, e, t.later));
  }

  /** With fewer other ids in between than the cache holds, whatever their expiries: refused
      exactly when no sweep ran at or after the expiry. */
  lemma SecondSpendingRefusedIffNotSwept(
      k: Codec, issues: set<Issue>, i: Issue, s: Spending, t: Spending, c: Cache, max: int, between: seq<Call>)
    requires RoundTrips(k) && Issued(k, issues) && i in issues && s.token == TokenOf(k, i) == t.token
    requires Spendable(i, s) && Spendable(i, t) && c.seen.Valid()
    requires VerifyRequestTicket(k, issues, s, c, max).0.Ok?
    requires i.jti !in AcceptedIds(VerifyRequestTicket(k, issues, s, c, max).1, max, between)
    requires |AcceptedIds(VerifyRequestTicket(k, issues, s, c, max).1, max, between)| < Capacity(max)
    ensures var after, second := VerifyRequestTicket(k, issues, s, c, max).1, Call(i.jti, ClaimsOf(i).exp, t.later);
            VerifyRequestTicket(k, issues, t, Run(after, max, between), max).0 == Err(Replayed) <==>
            !SweptAt(after.lastSweep, between + [second], ClaimsOf(i).exp)
  {
    var after := VerifyRequestTicket(k, issues, s, c, max).1;
    var e := ClaimsOf(i).exp;
    SpendableIsDecided(k, issues, i, s, c, max);
    SpendableIsDecided(k, issues, i, t, Run(after, max, between), max);
    RefusedIffNotSwept(c, max, Call(i.jti, e, s.later), between, Call(i.jti, e, t.later));
  }

  /** The same token, accepted twice: a sweep at its expiry forgets the id while the ticket is
      still inside the clock tolerance. */
  lemma ReacceptedInTolerance(k: Codec, issues: set<Issue>, i: Issue, s: Spending, t: Spending, max: int)
    requires RoundTrips(k) && Issued(k, issues) && i in issues && max >= 1
    requires i.jti != "" && i.dedupeKey != "" && ClaimsOf(i).scope == SCOPE_PROXY
    requires i.now >= 0 && ClaimsOf(i).exp == i.now + 60
    requires var at := i.now + 30;
             s == Spending(TokenOf(k, i), i.nodeId, SCOPE_PROXY, CLOCK_TOLERANCE, Some(i.dedupeKey), at, at)
    requires t == s.(now := i.now + 62, later := i.now + 62)
    ensures var (first, after) := VerifyRequestTicket(k, issues, s, FRESH_CACHE, max);
            first.Ok? && VerifyRequestTicket(k, issues, t, after, max).0.Ok?
  {
    var e := ClaimsOf(i).exp;
    AcceptedIff(k, issues, i, s, FRESH_CACHE, max);
    OwnClaims(k, issues, i, OptionsOf(s));
    var after := Consume(FRESH_CACHE, max, Call(i.jti, e, s.later)).0;
    AcceptedIff(k, issues, i, t, after, max);
    assert Sweeps(after, t.later);
  }
}
