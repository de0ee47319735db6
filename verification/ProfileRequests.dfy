/** Requests under a profile: the checks made at every boundary, the control headers a profile
    stands for, and preparing a request at the data plane and again where it is served. */
module ProfileRequests {
  import opened Wrappers
  import opened Strings
  import opened Numerals
  import opened CanonicalJson
  import JsMaps
  import opened Dedupe
  import opened Profile
  import opened ProfileNormal
  import PathGate

  // ---------- The checks ----------

  predicate SameOrigin(a: Url, b: Url) { a.protocol == b.protocol && a.hostname == b.hostname && a.port == b.port }

  function AssertRequest(e: Engine, input: Json, targetUrl: string, verb: string): Result<Profile, Error> {
    AssertNormalized(e, Normalize(e, input), targetUrl, verb)
  }

  function AssertNormalized(
      e: Engine, n: Result<Profile, Error>, targetUrl: string, verb: string)
    : Result<Profile, Error>
  {
    match n
    case Err(x) => Err(x)
    case Ok(q) => CheckRequest(e, q, targetUrl, verb)
  }

  function CheckRequest(e: Engine, q: Profile, targetUrl: string, verb: string): Result<Profile, Error> {
    match e.p.parseUrl(targetUrl)
    case None => Err(BadTarget)
    case Some(target) =>
      match e.p.parseUrl(q.baseUrl)
      case None => Err(BadBaseUrl)
      case Some(base) =>
        if !Web(target) then Err(BadTarget)
        else if target.username != "" || target.password != "" || target.hash != "" then Err(BadTarget)
        else if !SameOrigin(target, base) then Err(OtherOrigin)
        else if !PathGate.Passes(base.pathname, q.paths, target.pathname) then Err(PathNotAllowed)
        else if ToUpper(verb) !in q.methods then Err(MethodNotAllowed)
        else Ok(q)
  }

  /** What a request must be to run under profile `q`. */
  ghost predicate Permitted(e: Engine, q: Profile, targetUrl: string, verb: string) {
    && e.p.parseUrl(targetUrl).Some? && e.p.parseUrl(q.baseUrl).Some?
    && var target, base := e.p.parseUrl(targetUrl).value, e.p.parseUrl(q.baseUrl).value;
    && (target.protocol == "http:" || target.protocol == "https:")
    && target.username == "" && target.password == "" && target.hash == ""
    && target.protocol == base.protocol && target.hostname == base.hostname && target.port == base.port
    && PathGate.PassesBySegments(base.pathname, q.paths, target.pathname)
    && ToUpper(verb) in q.methods
  }

  /** Absolute allowed paths, and a base that parses to a trimmed path. */
  ghost predicate Absolute(e: Engine, q: Profile) {
    && (forall i :: 0 <= i < |q.paths| ==> q.paths[i] != "" && q.paths[i][0] == '/')
    && e.p.parseUrl(q.baseUrl).Some? && PathGate.TrimmedPath(e.p.parseUrl(q.baseUrl).value.pathname)
  }

  lemma FieldsAreAbsolute(e: Engine, f: Fields)
    requires Sane(e) && NormalFields(e, f).Ok?
    ensures Absolute(e, NormalFields(e, f).value)
  {
    var q := NormalFields(e, f).value;
    NormalParts(e, f);
    BaseAgain(e, f.baseUrl);
    NormalPathsShape(e, f.paths);
    forall i | 0 <= i < |q.paths| ensures q.paths[i] != "" && q.paths[i][0] == '/' {
      var item :| item in f.paths.value.items && NormalPath(e, item) == Ok(q.paths[i]);
      PathAgain(e, item);
    }
  }

  lemma CheckIffPermitted(e: Engine, q: Profile, targetUrl: string, verb: string)
    requires ParsesBases(e) && Absolute(e, q)
    ensures CheckRequest(e, q, targetUrl, verb).Ok? <==> Permitted(e, q, targetUrl, verb)
    ensures CheckRequest(e, q, targetUrl, verb).Ok? ==> CheckRequest(e, q, targetUrl, verb) == Ok(q)
  {
    if e.p.parseUrl(targetUrl).Some? && Web(e.p.parseUrl(targetUrl).value) {
      PathGate.GateIsSegmentPrefix(
        e.p.parseUrl(q.baseUrl).value.pathname, q.paths, e.p.parseUrl(targetUrl).value.pathname);
    }
  }

  /** A request passes exactly when its profile is valid and it is permitted, in terms of
      origin, path segments and method. */
  lemma AssertIffPermitted(e: Engine, input: Json, targetUrl: string, verb: string)
    requires Sane(e)
    ensures AssertRequest(e, input, targetUrl, verb).Ok? <==>
            Normalize(e, input).Ok? && Permitted(e, Normalize(e, input).value, targetUrl, verb)
    ensures AssertRequest(e, input, targetUrl, verb).Ok? ==>
              AssertRequest(e, input, targetUrl, verb) == Normalize(e, input)
  {
    var n := Normalize(e, input);
    if n.Ok? {
      FieldsAreAbsolute(e, FieldsOf(input.entries));
      CheckIffPermitted(e, n.value, targetUrl, verb);
    }
  }

  // ---------- Control headers ----------

  const CONTROL_HEADERS := ["x-cache-ttl", "x-verbose", "x-node-region", "x-node-domain", "x-node-exclude", "x-direct"]

  function Opt(name: string, o: Option<string>): seq<Pair> {
    match o case None => [] case Some(v) => [Pair(name, v)]
  }

  function Flag(b: bool): Option<string> { if b then Some("true") else None }

  /** The six values of a profile, in the order of `CONTROL_HEADERS`. */
  function ControlValues(q: Profile): seq<Option<string>> {
    [Some(Decimal(if q.cacheTtl < 0 then 0 else q.cacheTtl)), Flag(q.verbose),
     q.region, q.domain, q.exclude, Flag(q.direct)]
  }

  /** An object literal of headers: undefined values are left out. */
  function Headers(names: seq<string>, values: seq<Option<string>>): seq<Pair>
    requires |names| == |values|
  {
    if names == [] then [] else Opt(names[0], values[0]) + Headers(names[1..], values[1..])
  }

  function ControlHeaders(q: Profile): seq<Pair> { Headers(CONTROL_HEADERS, ControlValues(q)) }

  predicate Control(h: Pair) { ToLower(h.name) in CONTROL_HEADERS }

  function DropControl(headers: seq<Pair>): seq<Pair> {
    if headers == [] then []
    else (if Control(headers[0]) then [] else [headers[0]]) + DropControl(headers[1..])
  }

  // ---------- Preparing ----------

  function HashProfile(e: Engine, q: Profile): string {
    e.p.sha256Hex(e.p.utf8(StableStringify(e.p, ToJson(q))))
  }

  datatype Prepared = Prepared(profile: Profile, hash: string, headers: seq<Pair>)

  function Prepare(
      e: Engine, input: Json, targetUrl: string, verb: string, headers: seq<Pair>)
    : Result<Prepared, Error>
  {
    PrepareAsserted(e, AssertRequest(e, input, targetUrl, verb), headers)
  }

  function PrepareAsserted(e: Engine, n: Result<Profile, Error>, headers: seq<Pair>): Result<Prepared, Error> {
    match n
    case Err(x) => Err(x)
    case Ok(q) => Ok(Prepared(q, HashProfile(e, q), DropControl(headers) + ControlHeaders(q)))
  }

  lemma {:induction false} DropControlMembers(headers: seq<Pair>, h: Pair)
    ensures h in DropControl(headers) <==> h in headers && !Control(h)
  {
    if headers != [] { DropControlMembers(headers[1..], h); }
  }

  lemma {:induction false} DropControlConcat(a: seq<Pair>, b: seq<Pair>)
    ensures DropControl(a + b) == DropControl(a) + DropControl(b)
  {
    if a == [] {
      assert a + b == b;
    } else {
      assert (a + b)[1..] == a[1..] + b;
      DropControlConcat(a[1..], b);
    }
  }

  lemma {:induction false} DropControlKeeps(headers: seq<Pair>)
    requires forall h :: h in headers ==> !Control(h)
    ensures DropControl(headers) == headers
  {
    if headers != [] {
      DropControlKeeps(headers[1..]);
      assert headers == [headers[0]] + headers[1..];
    }
  }

  lemma {:induction false} DropControlDrops(headers: seq<Pair>)
    requires forall h :: h in headers ==> Control(h)
    ensures DropControl(headers) == []
  {
    if headers != [] { DropControlDrops(headers[1..]); }
  }

  lemma NoCapitals(s: string)
    requires forall i :: 0 <= i < |s| ==> !('A' <= s[i] <= 'Z')
    ensures ToLower(s) == s
  {
  }

  lemma NamesAreLower()
    ensures forall i :: 0 <= i < |CONTROL_HEADERS| ==> ToLower(CONTROL_HEADERS[i]) == CONTROL_HEADERS[i]
  {
    NoCapitals("x-cache-ttl");
    NoCapitals("x-verbose");
    NoCapitals("x-node-region");
    NoCapitals("x-node-domain");
    NoCapitals("x-node-exclude");
    NoCapitals("x-direct");
  }

  lemma {:induction false} HeaderNames(names: seq<string>, values: seq<Option<string>>, h: Pair)
    requires |names| == |values| && h in Headers(names, values)
    ensures h.name in names
  {
    if h !in Opt(names[0], values[0]) { HeaderNames(names[1..], values[1..], h); }
  }

  lemma ControlHeadersAreControl(q: Profile)
    ensures forall h :: h in ControlHeaders(q) ==> h.name in CONTROL_HEADERS && Control(h)
  {
    NamesAreLower();
    forall h | h in ControlHeaders(q) ensures h.name in CONTROL_HEADERS && Control(h) {
      HeaderNames(CONTROL_HEADERS, ControlValues(q), h);
      var i :| 0 <= i < |CONTROL_HEADERS| && CONTROL_HEADERS[i] == h.name;
    }
  }

  lemma DropControlTwice(headers: seq<Pair>, q: Profile)
    ensures DropControl(DropControl(headers) + ControlHeaders(q)) == DropControl(headers)
  {
    var kept := DropControl(headers);
    forall h | h in kept ensures !Control(h) { DropControlMembers(headers, h); }
    ControlHeadersAreControl(q);
    DropControlConcat(kept, ControlHeaders(q));
    DropControlKeeps(kept);
    DropControlDrops(ControlHeaders(q));
  }

  /** The value of the first header with this name. */
  function HeaderValue(headers: seq<Pair>, name: string): Option<string> {
    if headers == [] then None
    else if headers[0].name == name then Some(headers[0].value)
    else HeaderValue(headers[1..], name)
  }

  lemma OptValue(name: string, o: Option<string>, rest: seq<Pair>, x: string)
    ensures HeaderValue(Opt(name, o) + rest, x) == if x == name && o.Some? then o else HeaderValue(rest, x)
  {
    if o.Some? { assert (Opt(name, o) + rest)[1..] == rest; } else { assert Opt(name, o) + rest == rest; }
  }

  lemma {:induction false} HeadersHold(names: seq<string>, values: seq<Option<string>>)
    requires |names| == |values| && JsMaps.NoDup(names)
    ensures forall i :: 0 <= i < |names| ==> HeaderValue(Headers(names, values), names[i]) == values[i]
    ensures forall x :: x !in names ==> HeaderValue(Headers(names, values), x) == None
  {
    if names != [] {
      var rest := Headers(names[1..], values[1..]);
      HeadersHold(names[1..], values[1..]);
      forall i | 0 <= i < |names| ensures HeaderValue(Headers(names, values), names[i]) == values[i] {
        OptValue(names[0], values[0], rest, names[i]);
        if i > 0 { assert names[i] == names[1..][i - 1] && values[i] == values[1..][i - 1]; }
      }
      forall x | x !in names ensures HeaderValue(Headers(names, values), x) == None {
        OptValue(names[0], values[0], rest, x);
      }
    }
  }

  lemma ControlNamesDistinct()
    ensures JsMaps.NoDup(CONTROL_HEADERS)
  {
    JsMaps.NoDupIff(CONTROL_HEADERS);
  }

  /** Each control header holds its own setting of the profile, and is absent when there is
      none to hold: the time to live in decimal, a flag only when it is set, a preference as it is. */
  lemma ControlHeadersHold(q: Profile)
    ensures var ttl := HeaderValue(ControlHeaders(q), "x-cache-ttl");
            && ttl.Some?
            && (q.cacheTtl >= 0 ==> ReadNumber(ttl.value, 10) == q.cacheTtl && forall c :: c in ttl.value ==> Digit(c))
    ensures HeaderValue(ControlHeaders(q), "x-verbose") == if q.verbose then Some("true") else None
    ensures HeaderValue(ControlHeaders(q), "x-direct") == if q.direct then Some("true") else None
    ensures HeaderValue(ControlHeaders(q), "x-node-region") == q.region
    ensures HeaderValue(ControlHeaders(q), "x-node-domain") == q.domain
    ensures HeaderValue(ControlHeaders(q), "x-node-exclude") == q.exclude
    ensures forall x :: x !in CONTROL_HEADERS ==> HeaderValue(ControlHeaders(q), x) == None
  {
    ControlNamesDistinct();
    HeadersHold(CONTROL_HEADERS, ControlValues(q));
    var k := CONTROL_HEADERS;
    assert k[0] == "x-cache-ttl" && k[1] == "x-verbose" && k[2] == "x-node-region";
    assert k[3] == "x-node-domain" && k[4] == "x-node-exclude" && k[5] == "x-direct";
    if q.cacheTtl >= 0 { DecimalReads(q.cacheTtl); }
  }

  /** No control header of the caller survives: every one in the result is the profile's. */
  lemma ControlComesFromProfile(
      e: Engine, input: Json, targetUrl: string, verb: string, headers: seq<Pair>, h: Pair)
    requires Prepare(e, input, targetUrl, verb, headers).Ok?
    ensures var r := Prepare(e, input, targetUrl, verb, headers).value;
            && (h in r.headers && Control(h) <==> h in ControlHeaders(r.profile))
            && (h in r.headers && !Control(h) <==> h in headers && !Control(h))
  {
    var r := Prepare(e, input, targetUrl, verb, headers).value;
    ControlHeadersAreControl(r.profile);
    DropControlMembers(headers, h);
  }

  lemma AssertedIsNormalized(e: Engine, n: Result<Profile, Error>, targetUrl: string, verb: string)
    requires AssertNormalized(e, n, targetUrl, verb).Ok?
    ensures AssertNormalized(e, n, targetUrl, verb) == n
  {
  }

  /** The headers under a profile: the caller's own, in order, but for the control headers,
      which are the profile's. */
  ghost predicate HeadersUnder(q: Profile, own: seq<Pair>, headers: seq<Pair>) {
    && (forall h :: h in headers <==> if Control(h) then h in ControlHeaders(q) else h in own)
    && DropControl(headers) == DropControl(own)
  }

  lemma PreparedHeaders(q: Profile, own: seq<Pair>)
    ensures HeadersUnder(q, own, DropControl(own) + ControlHeaders(q))
  {
    ControlHeadersAreControl(q);
    forall h ensures h in DropControl(own) <==> h in own && !Control(h) { DropControlMembers(own, h); }
    DropControlTwice(own, q);
  }

  lemma PreparedMeans(e: Engine, input: Json, targetUrl: string, verb: string, own: seq<Pair>)
    requires Prepare(e, input, targetUrl, verb, own).Ok?
    ensures Normalize(e, input).Ok?
    ensures var r, q := Prepare(e, input, targetUrl, verb, own).value, Normalize(e, input).value;
            r.profile == q && r.hash == HashProfile(e, q) && HeadersUnder(q, own, r.headers)
  {
    AssertedIsNormalized(e, Normalize(e, input), targetUrl, verb);
    PreparedHeaders(Normalize(e, input).value, own);
  }

  lemma {:induction false} LastConcat(p: Platform, a: seq<Pair>, b: seq<Pair>, name: string)
    ensures Last(p, a + b, name) == if Last(p, b, name).Some? then Last(p, b, name) else Last(p, a, name)
  {
    if b == [] {
      assert a + b == a;
    } else {
      assert (a + b)[..|a + b| - 1] == a + b[..|b| - 1];
      LastConcat(p, a, b[..|b| - 1], name);
    }
  }

  lemma LastOne(p: Platform, h: Pair, name: string)
    ensures Last(p, [h], name) == if ToLower(h.name) == name then Some(ValueOf(p, h)) else None
  {
    assert [h][..0] == [];
  }

  lemma {:induction false} LastAbsent(p: Platform, headers: seq<Pair>, name: string)
    requires forall h :: h in headers ==> ToLower(h.name) != name
    ensures Last(p, headers, name).None?
  {
    if headers != [] { LastAbsent(p, headers[..|headers| - 1], name); }
  }

  lemma {:induction false} LastWithoutControl(p: Platform, headers: seq<Pair>, name: string)
    requires name !in CONTROL_HEADERS
    ensures Last(p, DropControl(headers), name) == Last(p, headers, name)
  {
    if headers != [] {
      var h, rest := headers[0], headers[1..];
      LastWithoutControl(p, rest, name);
      LastConcat(p, [h], rest, name);
      LastOne(p, h, name);
      assert headers == [h] + rest;
      if Control(h) {
        assert DropControl(headers) == DropControl(rest);
      } else {
        assert DropControl(headers) == [h] + DropControl(rest);
        LastConcat(p, [h], DropControl(rest), name);
      }
    }
  }

  /** A profile leaves the headers that count for the dedupe key alone. */
  lemma CanonicalUnder(p: Platform, q: Profile, own: seq<Pair>)
    ensures CanonicalHeaders(p, DropControl(own) + ControlHeaders(q)) == CanonicalHeaders(p, own)
  {
    LastUnder(p, q, own, "accept");
    LastUnder(p, q, own, "authorization");
    LastUnder(p, q, own, "content-type");
    LastUnder(p, q, own, "cookie");
  }

  lemma LastUnder(p: Platform, q: Profile, own: seq<Pair>, name: string)
    requires Semantic(name)
    ensures Last(p, DropControl(own) + ControlHeaders(q), name) == Last(p, own, name)
  {
    SemanticIsNotControl(name);
    ControlHeadersAreControl(q);
    forall h | h in ControlHeaders(q) ensures ToLower(h.name) != name { assert ToLower(h.name) in CONTROL_HEADERS; }
    LastAbsent(p, ControlHeaders(q), name);
    LastConcat(p, DropControl(own), ControlHeaders(q), name);
    LastWithoutControl(p, own, name);
  }

  lemma SemanticIsNotControl(name: string)
    requires Semantic(name)
    ensures name !in CONTROL_HEADERS
  {
    forall i | 0 <= i < |CONTROL_HEADERS| ensures CONTROL_HEADERS[i] != name {
      assert CONTROL_HEADERS[i][0] == 'x';
    }
  }

  lemma PreparedAgain(
      e: Engine, first: Result<Profile, Error>, second: Result<Profile, Error>, targetUrl: string, verb: string,
      headers: seq<Pair>)
    requires AssertNormalized(e, first, targetUrl, verb) == first && first.Ok?
    requires second == if SomeDoubled(first.value.paths) then Err(BadPaths) else first
    ensures var r := PrepareAsserted(e, first, headers);
            PrepareAsserted(e, AssertNormalized(e, second, targetUrl, verb), r.value.headers) ==
            if SomeDoubled(first.value.paths) then Err(BadPaths) else r
  {
    DropControlTwice(headers, first.value);
  }

  /** Main result: what the data plane prepared, the server prepares to the same profile,
      hash and headers, unless some resolved path begins with two slashes; then it refuses. */
  lemma PrepareTwice(e: Engine, input: Json, targetUrl: string, verb: string, headers: seq<Pair>)
    requires Sane(e) && Prepare(e, input, targetUrl, verb, headers).Ok?
    ensures var r := Prepare(e, input, targetUrl, verb, headers);
            Prepare(e, ToJson(r.value.profile), targetUrl, verb, r.value.headers) ==
            if SomeDoubled(r.value.profile.paths) then Err(BadPaths) else r
  {
    var r := Prepare(e, input, targetUrl, verb, headers).value;
    var first, second := Normalize(e, input), Normalize(e, ToJson(r.profile));
    AssertedIsNormalized(e, first, targetUrl, verb);
    NormalizeTwice(e, input);
    assert second == if SomeDoubled(r.profile.paths) then Err(BadPaths) else Ok(r.profile);
    PreparedAgain(e, first, second, targetUrl, verb, headers);
  }

  // ---------- Hashes ----------

  lemma StrsInjective(a: seq<string>, b: seq<string>)
    requires Strs(a) == Strs(b)
    ensures a == b
  {
    assert |a| == |b|;
    forall i | 0 <= i < |a| ensures a[i] == b[i] { assert Strs(a)[i] == Strs(b)[i]; }
  }

  lemma SortedStrs(s: seq<string>)
    ensures DeepSort(Arr(Strs(s))) == Arr(Strs(s))
  {
    assert DeepSortItems(Strs(s)) == Strs(s);
  }

  lemma ProfileFieldsInjective(a: Profile, b: Profile)
    requires ProfileFields(a) == ProfileFields(b)
    ensures a == b
  {
    StrsInjective(a.methods, b.methods);
    StrsInjective(a.paths, b.paths);
  }

  /** A value that canonicalising leaves alone. */
  ghost predicate Stable(o: Option<Json>) { o.Some? ==> DeepSort(o.value) == o.value }

  lemma ValuesAreStable(q: Profile)
    ensures forall i :: 0 <= i < |Values(q)| ==> Stable(Values(q)[i])
  {
    SortedStrs(q.methods);
    SortedStrs(q.paths);
  }

  lemma SortedDecidesValues(a: Profile, b: Profile)
    requires DeepSort(ToJson(a)) == DeepSort(ToJson(b))
    ensures Values(a) == Values(b)
  {
    var es, fs := ToJson(a).entries, ToJson(b).entries;
    KeysAreDistinct();
    BuiltFields(PROFILE_KEYS, Values(a));
    BuiltFields(PROFILE_KEYS, Values(b));
    forall i | 0 <= i < |PROFILE_KEYS| ensures Values(a)[i] == Values(b)[i] {
      SameSortedKey(es, fs, PROFILE_KEYS[i]);
      ValuesAreStable(a);
      ValuesAreStable(b);
      assert FieldOf(es, PROFILE_KEYS[i]) == Values(a)[i] && FieldOf(fs, PROFILE_KEYS[i]) == Values(b)[i];
    }
  }

  /** Profile hashes agree exactly when the normalised profiles do. */
  lemma ProfileHashIff(e: Engine, a: Profile, b: Profile)
    requires InjectiveHash(e.p) && InjectiveText(e.p)
    ensures HashProfile(e, a) == HashProfile(e, b) <==> a == b
  {
    if HashProfile(e, a) == HashProfile(e, b) {
      SortedDecidesValues(a, b);
      var x, y := Values(a), Values(b);
      assert x[2] == y[2] && x[3] == y[3] && x[4] == y[4] && x[5] == y[5] && x[6] == y[6];
      assert x[7] == y[7] && x[8] == y[8] && x[9] == y[9] && x[10] == y[10];
      ProfileFieldsInjective(a, b);
    }
  }
}
