/** Serving a request under a profile: which headers go upstream, the key of the answer cache,
    and when a cached answer may stand in for the upstream. */
module ProxyServe {
  import opened Wrappers
  import opened Bytes
  import opened JsMaps
  import opened Strings
  import opened Sorting
  import opened CanonicalJson
  import opened Dedupe
  import opened Profile
  import opened ProfileNormal
  import opened ProfileRequests
  import opened ProfileCache

  const HOP_BY_HOP := {
    "host", "connection", "keep-alive", "proxy-connection", "transfer-encoding", "te", "trailer", "upgrade" }
  const CONSENSUS_CONTROL_HEADERS := {
    "host", "content-length", "transfer-encoding", "connection", "x-idempotency-key", "idempotency-key",
    "x-payment", "x-verbose", "x-api-key", "x-cache-ttl", "x-direct", "x-node-region", "x-node-domain",
    "x-node-exclude", "x-forwarded-for", "x-real-ip", "forwarded" }
  const CACHEABLE_METHODS := {"GET", "HEAD"}

  // ---------- Headers that go upstream ----------

  /** `h` is a Connection header, and one of its tokens names `name`. */
  predicate NamesToken(h: Pair, name: string) {
    ToLower(h.name) == "connection" && name != "" &&
    exists i :: 0 <= i < |Split(h.value, ',')| && ToLower(Trim(Split(h.value, ',')[i])) == name
  }

  /** Not to be forwarded: hop-by-hop, or named by some Connection header. */
  predicate HopByHop(headers: seq<Pair>, name: string) {
    name in HOP_BY_HOP || exists h :: h in headers && NamesToken(h, name)
  }

  /** The tokens of one Connection header, added one by one. */
  method AddTokens(tokens: seq<string>, deny: set<string>) returns (r: set<string>)
    ensures forall name :: name in r <==>
              name in deny || (name != "" && exists i :: 0 <= i < |tokens| && ToLower(Trim(tokens[i])) == name)
  {
    r := deny;
    var i := 0;
    while i < |tokens|
      invariant 0 <= i <= |tokens|
      invariant forall name :: name in r <==>
                  name in deny || (name != "" && exists j :: 0 <= j < i && ToLower(Trim(tokens[j])) == name)
    {
      var name := ToLower(Trim(tokens[i]));
      if name != "" { r := r + {name}; }
      i := i + 1;
    }
  }

  method BuildHopByHopDenySet(headers: seq<Pair>) returns (deny: set<string>)
    ensures forall name :: name in deny <==> HopByHop(headers, name)
  {
    deny := HOP_BY_HOP;
    var i := 0;
    while i < |headers|
      invariant 0 <= i <= |headers|
      invariant Denies(deny, headers[..i])
    {
      ghost var before := deny;
      if ToLower(headers[i].name) == "connection" {
        deny := AddTokens(Split(headers[i].value, ','), deny);
      }
      forall name ensures name in deny <==> name in before || NamesToken(headers[i], name) {}
      DenyOneMore(headers, i, before, deny);
      i := i + 1;
    }
    assert headers[..i] == headers;
  }

  ghost predicate Denies(deny: set<string>, headers: seq<Pair>) {
    forall name :: name in deny <==> HopByHop(headers, name)
  }

  lemma DenyOneMore(headers: seq<Pair>, i: nat, before: set<string>, deny: set<string>)
    requires i < |headers| && Denies(before, headers[..i])
    requires forall name :: name in deny <==> name in before || NamesToken(headers[i], name)
    ensures Denies(deny, headers[..i + 1])
  {
    var more := headers[..i + 1];
    assert more == headers[..i] + [headers[i]];
    forall name ensures name in deny <==> HopByHop(more, name) {
      if h :| h in more && NamesToken(h, name) { assert h in headers[..i] || h == headers[i]; }
      assert headers[i] in more;
      assert HopByHop(headers[..i], name) ==> HopByHop(more, name);
    }
  }

  predicate Dropped(headers: seq<Pair>, h: Pair) {
    HopByHop(headers, ToLower(h.name)) || ToLower(h.name) in CONSENSUS_CONTROL_HEADERS
  }

  function Passing(all: seq<Pair>, headers: seq<Pair>): seq<Pair> {
    if headers == [] then []
    else
      var h := headers[|headers| - 1];
      var rest := Passing(all, headers[..|headers| - 1]);
      if Dropped(all, h) then rest else rest + [Pair(ToLower(h.name), h.value)]
  }

  predicate NameLe(a: Pair, b: Pair) { Le(a.name, b.name) }

  /** Lower-cased, filtered, and sorted by name. */
  function Forwarded(headers: seq<Pair>): seq<Pair> { Sort(Passing(headers, headers), NameLe) }

  method ForwardedHeaderEntries(headers: seq<Pair>) returns (r: seq<Pair>)
    ensures r == Forwarded(headers)
  {
    var deny := BuildHopByHopDenySet(headers);
    var entries: seq<Pair> := [];
    var i := 0;
    while i < |headers|
      invariant 0 <= i <= |headers|
      invariant entries == Passing(headers, headers[..i])
    {
      assert headers[..i + 1][..i] == headers[..i];
      var lower := ToLower(headers[i].name);
      if !(lower in deny || lower in CONSENSUS_CONTROL_HEADERS) {
        entries := entries + [Pair(lower, headers[i].value)];
      }
      i := i + 1;
    }
    assert headers[..i] == headers;
    r := Sort(entries, NameLe);
  }

  lemma {:induction false} KeptMembers(all: seq<Pair>, headers: seq<Pair>, p: Pair)
    ensures p in Passing(all, headers) <==>
            exists i :: 0 <= i < |headers| && !Dropped(all, headers[i])
                        && p == Pair(ToLower(headers[i].name), headers[i].value)
  {
    if headers != [] {
      var n := |headers| - 1;
      KeptMembers(all, headers[..n], p);
      assert forall i :: 0 <= i < n ==> headers[..n][i] == headers[i];
    }
  }

  /** Exactly the caller's headers that are neither hop-by-hop, nor named by a Connection
      header, nor control headers go upstream, in name order. */
  lemma ForwardedExactly(headers: seq<Pair>, p: Pair)
    ensures p in Forwarded(headers) <==>
            exists i :: 0 <= i < |headers| && !Dropped(headers, headers[i])
                        && p == Pair(ToLower(headers[i].name), headers[i].value)
    ensures Sorted(Forwarded(headers), NameLe)
  {
    KeptMembers(headers, headers, p);
    SortMembers(Passing(headers, headers), NameLe);
    LeIsOrder();
    SortSorts(Passing(headers, headers), NameLe);
  }

  /** A Connection header names exactly the names in its list, whatever their case and the blanks
      around them. */
  lemma ListNames(h: Pair, pieces: seq<string>, name: string)
    requires pieces != [] && (forall i :: 0 <= i < |pieces| ==> ',' !in pieces[i]) && h.value == Join(pieces, ',')
    ensures NamesToken(h, name) <==>
            ToLower(h.name) == "connection" && name != ""
            && exists i :: 0 <= i < |pieces| && ToLower(Trim(pieces[i])) == name
  {
    SplitJoin(pieces, ',');
  }

  /** One of these headers goes upstream as `p`: it is neither hop-by-hop, nor named by a
      Connection header, nor a control header. */
  ghost predicate GoesUp(headers: seq<Pair>, p: Pair) {
    && p.name !in HOP_BY_HOP && p.name !in CONSENSUS_CONTROL_HEADERS
    && (forall g :: g in headers ==> !NamesToken(g, p.name))
    && exists i :: 0 <= i < |headers| && ToLower(headers[i].name) == p.name && headers[i].value == p.value
  }

  lemma ForwardedGoUp(headers: seq<Pair>, p: Pair)
    ensures p in Forwarded(headers) <==> GoesUp(headers, p)
  {
    ForwardedExactly(headers, p);
  }

  // ---------- A profile does not change what goes upstream ----------

  lemma ControlIsDropped(all: seq<Pair>, h: Pair)
    requires Control(h)
    ensures Dropped(all, h)
  {
    ControlNamesAreConsensus();
  }

  lemma ControlNamesAreConsensus()
    ensures forall name :: name in CONTROL_HEADERS ==> name in CONSENSUS_CONTROL_HEADERS && name != "connection"
  {
    forall i | 0 <= i < |CONTROL_HEADERS|
      ensures CONTROL_HEADERS[i] in CONSENSUS_CONTROL_HEADERS && CONTROL_HEADERS[i] != "connection" {}
  }

  lemma SameHopByHop(q: Profile, own: seq<Pair>, headers: seq<Pair>, name: string)
    requires HeadersUnder(q, own, headers)
    ensures HopByHop(headers, name) <==> HopByHop(own, name)
  {
    ControlNamesAreConsensus();
    forall h | NamesToken(h, name) ensures h in headers <==> h in own {}
  }

  lemma {:induction false} PassingConcat(all: seq<Pair>, a: seq<Pair>, b: seq<Pair>)
    ensures Passing(all, a + b) == Passing(all, a) + Passing(all, b)
  {
    if b == [] {
      assert a + b == a;
    } else {
      assert (a + b)[..|a + b| - 1] == a + b[..|b| - 1];
      PassingConcat(all, a, b[..|b| - 1]);
    }
  }

  lemma PassingOne(all: seq<Pair>, h: Pair)
    ensures Passing(all, [h]) == if Dropped(all, h) then [] else [Pair(ToLower(h.name), h.value)]
  {
    assert [h][..0] == [];
  }

  lemma {:induction false} PassingWithoutControl(all: seq<Pair>, headers: seq<Pair>)
    ensures Passing(all, DropControl(headers)) == Passing(all, headers)
  {
    if headers != [] {
      var h, rest := headers[0], headers[1..];
      PassingWithoutControl(all, rest);
      PassingConcat(all, [h], rest);
      PassingOne(all, h);
      assert headers == [h] + rest;
      if Control(h) {
        ControlIsDropped(all, h);
        assert DropControl(headers) == DropControl(rest);
        assert Passing(all, [h]) + Passing(all, rest) == Passing(all, rest);
      } else {
        assert DropControl(headers) == [h] + DropControl(rest);
        PassingConcat(all, [h], DropControl(rest));
      }
    }
  }

  lemma {:induction false} PassingControl(all: seq<Pair>, headers: seq<Pair>)
    requires forall h :: h in headers ==> Control(h)
    ensures Passing(all, headers) == []
  {
    if headers != [] {
      var n := |headers| - 1;
      PassingControl(all, headers[..n]);
      ControlIsDropped(all, headers[n]);
    }
  }

  lemma {:induction false} PassingAlike(a: seq<Pair>, b: seq<Pair>, headers: seq<Pair>)
    requires forall name :: HopByHop(a, name) <==> HopByHop(b, name)
    ensures Passing(a, headers) == Passing(b, headers)
  {
    if headers != [] { PassingAlike(a, b, headers[..|headers| - 1]); }
  }

  lemma PassingUnder(q: Profile, all: seq<Pair>, own: seq<Pair>)
    requires all == DropControl(own) + ControlHeaders(q) && forall name :: HopByHop(all, name) <==> HopByHop(own, name)
    ensures Passing(all, all) == Passing(own, own)
  {
    PassingConcat(all, DropControl(own), ControlHeaders(q));
    PassingWithoutControl(all, own);
    ControlHeadersAreControl(q);
    PassingControl(all, ControlHeaders(q));
    PassingAlike(all, own, own);
    assert Passing(own, own) + [] == Passing(own, own);
  }

  /** Preparing under a profile leaves what goes upstream as the caller's headers make it. */
  lemma ForwardedUnder(q: Profile, own: seq<Pair>)
    ensures Forwarded(DropControl(own) + ControlHeaders(q)) == Forwarded(own)
  {
    var all := DropControl(own) + ControlHeaders(q);
    PreparedHeaders(q, own);
    forall name ensures HopByHop(all, name) <==> HopByHop(own, name) { SameHopByHop(q, own, all, name); }
    PassingUnder(q, all, own);
  }

  // ---------- The cache key ----------

  datatype ServeRequest = ServeRequest(
    targetUrl: string,
    verb: Option<string>,
    headers: seq<Pair>,
    body: Body,
    profile: Option<Json>)

  /** What serving one request is about to do; no key means no cache. */
  datatype Plan = Plan(request: Request, forwarded: seq<Pair>, ttl: int, key: Option<string>)

  function PairsJson(ps: seq<Pair>): (r: seq<Json>)
    ensures |r| == |ps| && forall i :: 0 <= i < |ps| ==> r[i] == Arr([Str(ps[i].name), Str(ps[i].value)])
  {
    if ps == [] then [] else [Arr([Str(ps[0].name), Str(ps[0].value)])] + PairsJson(ps[1..])
  }

  function CacheKey(p: Platform, dedupeKey: string, forwarded: seq<Pair>): string {
    p.sha256Hex(p.utf8(dedupeKey + ['\n'] + StableStringify(p, Arr(PairsJson(forwarded)))))
  }

  /** The method is upper-cased; only a profile gives a time to live, and with it a key. */
  function PlanFor(e: Engine, r: ServeRequest): Result<Plan, Error> {
    var verb := ToUpper(match r.verb case None => "GET" case Some(v) => v);
    match r.profile
    case None => Ok(Plan(Request(r.targetUrl, verb, r.headers, r.body, None), Forwarded(r.headers), 0, None))
    case Some(profile) =>
      match Prepare(e, profile, r.targetUrl, verb, r.headers)
      case Err(x) => Err(x)
      case Ok(prepared) => PlanPrepared(e, prepared, r.targetUrl, verb, r.body)
  }

  function PlanPrepared(
      e: Engine, prepared: Prepared, targetUrl: string, verb: string, body: Body)
    : Result<Plan, Error>
  {
    var request := Request(targetUrl, verb, prepared.headers, body, Some(prepared.hash));
    var forwarded := Forwarded(prepared.headers);
    var ttl := prepared.profile.cacheTtl;
    if verb !in CACHEABLE_METHODS then Ok(Plan(request, forwarded, ttl, None))
    else
      match GenerateDedupeKey(e.p, request)
      case None => Err(BadTarget)
      case Some(k) => Ok(Plan(request, forwarded, ttl, Some(CacheKey(e.p, k, forwarded))))
  }

  lemma UpperOfGet()
    ensures ToUpper("GET") == "GET"
  {
  }

  /** What is planned, in terms of the request: the caller's target, method and body, the headers
      that its profile leaves, and upstream, with a profile and without one, the caller's own
      headers that go up. */
  ghost predicate PlansFor(e: Engine, r: ServeRequest, plan: Plan) {
    && plan.request.targetUrl == r.targetUrl && plan.request.body == r.body
    && plan.request.verb == (if r.verb.None? then "GET" else ToUpper(r.verb.value))
    && plan.forwarded == Forwarded(r.headers)
    && (forall p :: p in plan.forwarded <==> GoesUp(r.headers, p))
    && (r.profile.None? ==>
          && plan.request.headers == r.headers && plan.request.profileHash.None? && plan.key.None?)
    && (r.profile.Some? ==>
          && Normalize(e, r.profile.value).Ok?
          && var q := Normalize(e, r.profile.value).value;
          && HeadersUnder(q, r.headers, plan.request.headers)
          && plan.request.profileHash == Some(HashProfile(e, q)) && plan.ttl == q.cacheTtl)
  }

  lemma PlanMeans(e: Engine, r: ServeRequest)
    requires PlanFor(e, r).Ok?
    ensures PlansFor(e, r, PlanFor(e, r).value)
  {
    UpperOfGet();
    forall p ensures p in Forwarded(r.headers) <==> GoesUp(r.headers, p) { ForwardedGoUp(r.headers, p); }
    if r.profile.Some? {
      var verb := ToUpper(match r.verb case None => "GET" case Some(v) => v);
      PreparedMeans(e, r.profile.value, r.targetUrl, verb, r.headers);
      PlanOfPrepared(e, r, verb);
    }
  }

  lemma PlanOfPrepared(e: Engine, r: ServeRequest, verb: string)
    requires r.profile.Some? && Prepare(e, r.profile.value, r.targetUrl, verb, r.headers).Ok?
    requires verb == ToUpper(match r.verb case None => "GET" case Some(v) => v)
    ensures Normalize(e, r.profile.value).Ok?
    ensures Prepare(e, r.profile.value, r.targetUrl, verb, r.headers).value.headers
            == DropControl(r.headers) + ControlHeaders(Normalize(e, r.profile.value).value)
    ensures Forwarded(Prepare(e, r.profile.value, r.targetUrl, verb, r.headers).value.headers) == Forwarded(r.headers)
  {
    AssertedIsNormalized(e, Normalize(e, r.profile.value), r.targetUrl, verb);
    ForwardedUnder(Normalize(e, r.profile.value).value, r.headers);
  }

  lemma NewlineSplits(a: string, b: string, x: string, y: string)
    requires '\n' !in a && '\n' !in b && a + ['\n'] + x == b + ['\n'] + y
    ensures a == b && x == y
  {
    SplitAt(a, '\n', x);
    SplitAt(b, '\n', y);
    assert ([a] + Split(x, '\n'))[0] == a && ([b] + Split(y, '\n'))[0] == b;
    assert (a + ['\n'] + x)[|a| + 1..] == x && (b + ['\n'] + y)[|b| + 1..] == y;
  }

  lemma PairsJsonInjective(a: seq<Pair>, b: seq<Pair>)
    requires PairsJson(a) == PairsJson(b)
    ensures a == b
  {
    assert |a| == |b|;
    forall i | 0 <= i < |a| ensures a[i] == b[i] {
      assert PairsJson(a)[i] == PairsJson(b)[i];
      var x, y := PairsJson(a)[i].items, PairsJson(b)[i].items;
      assert x[0] == y[0] && x[1] == y[1];
    }
  }

  lemma PairsJsonSorted(ps: seq<Pair>)
    ensures DeepSort(Arr(PairsJson(ps))) == Arr(PairsJson(ps))
  {
    var items := PairsJson(ps);
    forall i | 0 <= i < |items| ensures DeepSort(items[i]) == items[i] {
      assert DeepSortItems(items[i].items) == items[i].items;
    }
    assert DeepSortItems(items) == items;
  }

  /** Cache keys agree exactly when the dedupe keys and all forwarded headers do. */
  lemma CacheKeyIff(p: Platform, k: string, k': string, a: seq<Pair>, b: seq<Pair>)
    requires InjectiveHash(p) && InjectiveText(p) && '\n' !in k && '\n' !in k'
    ensures CacheKey(p, k, a) == CacheKey(p, k', b) <==> k == k' && a == b
  {
    if CacheKey(p, k, a) == CacheKey(p, k', b) {
      NewlineSplits(k, k', StableStringify(p, Arr(PairsJson(a))), StableStringify(p, Arr(PairsJson(b))));
      PairsJsonSorted(a);
      PairsJsonSorted(b);
      PairsJsonInjective(a, b);
    }
  }

  // ---------- Serving ----------

  /** What a request asks of the upstream, up to spelling. */
  ghost predicate SameAsk(e: Engine, a: Plan, b: Plan) {
    && Interchangeable(e.p, a.request, b.request)
    && a.forwarded == b.forwarded
  }

  lemma PlanKey(e: Engine, r: ServeRequest)
    requires PlanFor(e, r).Ok?
    ensures var plan := PlanFor(e, r).value;
            && (plan.key.Some? <==> r.profile.Some? && plan.request.verb in CACHEABLE_METHODS)
            && (plan.key.Some? ==>
                  && GenerateDedupeKey(e.p, plan.request).Some?
                  && plan.key == Some(CacheKey(e.p, GenerateDedupeKey(e.p, plan.request).value, plan.forwarded)))
  {
  }

  lemma DedupeKeyIsPlain(p: Platform, r: Request)
    requires InjectiveHash(p) && GenerateDedupeKey(p, r).Some?
    ensures '\n' !in GenerateDedupeKey(p, r).value
  {
  }

  /** Two cacheable requests share a key exactly when they ask the same thing. */
  lemma SameKeyIffSameAsk(e: Engine, a: ServeRequest, b: ServeRequest)
    requires Ideal(e.p) && PlanFor(e, a).Ok? && PlanFor(e, b).Ok?
    requires PlanFor(e, a).value.key.Some? && PlanFor(e, b).value.key.Some?
    ensures PlanFor(e, a).value.key == PlanFor(e, b).value.key <==>
            SameAsk(e, PlanFor(e, a).value, PlanFor(e, b).value)
  {
    var x, y := PlanFor(e, a).value, PlanFor(e, b).value;
    PlanKey(e, a);
    PlanKey(e, b);
    PlansShareKey(e, x, y);
  }

  lemma PlansShareKey(e: Engine, x: Plan, y: Plan)
    requires Ideal(e.p)
    requires GenerateDedupeKey(e.p, x.request).Some? && GenerateDedupeKey(e.p, y.request).Some?
    ensures var k, k' := GenerateDedupeKey(e.p, x.request).value, GenerateDedupeKey(e.p, y.request).value;
            CacheKey(e.p, k, x.forwarded) == CacheKey(e.p, k', y.forwarded) <==> SameAsk(e, x, y)
  {
    DedupeKeyIsPlain(e.p, x.request);
    DedupeKeyIsPlain(e.p, y.request);
    CacheKeyIff(e.p, GenerateDedupeKey(e.p, x.request).value, GenerateDedupeKey(e.p, y.request).value,
                x.forwarded, y.forwarded);
    SameKeyIffInterchangeable(e.p, x.request, y.request);
  }

  // ---------- The same request of two callers ----------

  function VerbAsked(r: ServeRequest): string { if r.verb.None? then "GET" else ToUpper(r.verb.value) }

  /** Both ask the same of the upstream: method, target, body, normalised profile, the headers that
      count for the dedupe key, and every header that goes upstream. */
  ghost predicate SameRequest(e: Engine, a: ServeRequest, b: ServeRequest) {
    && VerbAsked(a) == VerbAsked(b)
    && e.p.parseUrl(a.targetUrl).Some? && e.p.parseUrl(b.targetUrl).Some?
    && SameTarget(e.p.parseUrl(a.targetUrl).value, e.p.parseUrl(b.targetUrl).value)
    && BodyBytes(e.p, a.body) == BodyBytes(e.p, b.body)
    && a.profile.Some? && b.profile.Some?
    && Normalize(e, a.profile.value).Ok? && Normalize(e, a.profile.value) == Normalize(e, b.profile.value)
    && CanonicalHeaders(e.p, a.headers) == CanonicalHeaders(e.p, b.headers)
    && Forwarded(a.headers) == Forwarded(b.headers)
  }

  lemma PlanCanonical(e: Engine, r: ServeRequest)
    requires PlanFor(e, r).Ok? && r.profile.Some?
    ensures CanonicalHeaders(e.p, PlanFor(e, r).value.request.headers) == CanonicalHeaders(e.p, r.headers)
  {
    var verb := ToUpper(match r.verb case None => "GET" case Some(v) => v);
    PlanOfPrepared(e, r, verb);
    CanonicalUnder(e.p, Normalize(e, r.profile.value).value, r.headers);
  }

  lemma UpperOfAsked(r: ServeRequest)
    ensures ToUpper(VerbAsked(r)) == VerbAsked(r)
  {
    UpperOfGet();
    if r.verb.Some? { UpperTwice(r.verb.value); }
  }

  /** What plans share is what requests share. */
  lemma SamePlansIff(e: Engine, a: ServeRequest, b: ServeRequest)
    requires Ideal(e.p) && PlanFor(e, a).Ok? && PlanFor(e, b).Ok? && a.profile.Some? && b.profile.Some?
    ensures SameAsk(e, PlanFor(e, a).value, PlanFor(e, b).value) <==> SameRequest(e, a, b)
  {
    PlanMeans(e, a);
    PlanMeans(e, b);
    PlanCanonical(e, a);
    PlanCanonical(e, b);
    UpperOfAsked(a);
    UpperOfAsked(b);
    ProfileHashIff(e, Normalize(e, a.profile.value).value, Normalize(e, b.profile.value).value);
  }

  /** Main result: two cacheable requests share a key exactly when their callers ask the same, every
      header that goes upstream included. */
  lemma SameKeyIffSameRequest(e: Engine, a: ServeRequest, b: ServeRequest)
    requires Ideal(e.p) && PlanFor(e, a).Ok? && PlanFor(e, b).Ok?
    requires PlanFor(e, a).value.key.Some? && PlanFor(e, b).value.key.Some?
    ensures PlanFor(e, a).value.key == PlanFor(e, b).value.key <==> SameRequest(e, a, b)
    ensures SameRequest(e, a, b) ==> forall p :: GoesUp(a.headers, p) <==> GoesUp(b.headers, p)
  {
    SameKeyIffSameAsk(e, a, b);
    PlanKey(e, a);
    PlanKey(e, b);
    SamePlansIff(e, a, b);
    SameUpstream(a, b);
  }

  lemma SameUpstream(a: ServeRequest, b: ServeRequest)
    ensures Forwarded(a.headers) == Forwarded(b.headers) ==>
              forall p :: GoesUp(a.headers, p) <==> GoesUp(b.headers, p)
  {
    forall p ensures p in Forwarded(a.headers) <==> GoesUp(a.headers, p) { ForwardedGoUp(a.headers, p); }
    forall p ensures p in Forwarded(b.headers) <==> GoesUp(b.headers, p) { ForwardedGoUp(b.headers, p); }
  }
}
