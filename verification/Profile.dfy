/** The execution profile carried on the wire: validation, normal form, hash, and the checks
    made on every request that runs under it. */
module Profile {
  import opened Wrappers
  import opened JsMaps
  import opened Strings
  import opened Sorting
  import opened CanonicalJson
  import opened Dedupe
  import PathGate
  import PathResolver

  const PROTOCOL := "consensus.proxy-profile"
  const VERSION := Whole(1)
  const PROFILE_KEYS := [
    "protocol", "version", "base_url", "allowed_methods", "allowed_paths", "cache_ttl", "verbose",
    "node_region", "node_domain", "node_exclude", "direct"]
  const METHOD_ORDER := ["GET", "HEAD", "POST", "PUT", "PATCH", "DELETE", "OPTIONS"]
  const MAX_PATHS := 64
  const MAX_CACHE_TTL_SECONDS := 3600
  const MAX_PREFERENCE_LENGTH := 256
  const ORIGIN := "http://profile.local"

  /** Where a path lands when it is resolved against `ORIGIN`. */
  datatype Located = Located(origin: string, pathname: string, search: string, hash: string)

  /** The platform, with `String`, `Number` (`None` where it is not finite) and path parsing. */
  datatype Engine = Engine(
    p: Platform,
    toText: Json -> string,
    toNumber: Json -> Option<Number>,
    locate: string -> Option<Located>)

  ghost predicate Coerces(e: Engine) {
    && (forall s :: e.toText(Str(s)) == s)
    && (forall n :: e.toNumber(Num(n)) == Some(n))
  }

  /** A located path is absolute and without backslashes; unless it begins with two slashes,
      it is located where it is. Plain paths only have their dot segments resolved. */
  ghost predicate Locates(e: Engine) {
    && (forall s :: e.locate(s).Some? && e.locate(s).value.origin == ORIGIN ==>
          var path := e.locate(s).value.pathname;
          && path != "" && path[0] == '/' && '\\' !in path
          && (!StartsWith(path, "//") ==> e.locate(path) == Some(Located(ORIGIN, path, "", ""))))
    && (forall s :: PathResolver.PlainPath(s) ==>
          e.locate(s) == Some(Located(ORIGIN, PathResolver.Resolve(s), "", "")))
  }

  predicate Web(u: Url) { u.protocol == "http:" || u.protocol == "https:" }

  predicate GoodBase(u: Url) { Web(u) && u.username == "" && u.password == "" && u.query == [] && u.hash == "" }

  function TrimSlashes(s: string): string {
    if s != "" && s[|s| - 1] == '/' then TrimSlashes(s[..|s| - 1]) else s
  }

  /** The path of the base, as the pathname setter stores it. */
  function TrimPath(s: string): string {
    if s == "/" then "/" else var t := TrimSlashes(s); if t == "" then "/" else t
  }

  /** A printed base parses back, and web URLs have absolute paths. */
  ghost predicate ParsesBases(e: Engine) {
    forall raw :: e.p.parseUrl(raw).Some? && Web(e.p.parseUrl(raw).value) ==>
      var u := e.p.parseUrl(raw).value;
      && u.pathname != "" && u.pathname[0] == '/'
      && (GoodBase(u) ==>
            e.p.parseUrl(e.p.printUrl(u.(pathname := TrimPath(u.pathname)))) ==
            Some(u.(pathname := TrimPath(u.pathname))))
  }

  ghost predicate Sane(e: Engine) { Coerces(e) && Locates(e) && ParsesBases(e) }

  datatype Error =
    | NotObject | UnsupportedField | BadProtocol
    | BadBaseUrl | BadMethods | BadPaths | BadCacheTtl | BadFlag | BadPreference
    | BadTarget | OtherOrigin | PathNotAllowed | MethodNotAllowed

  datatype Profile = Profile(
    baseUrl: string,
    methods: seq<string>,
    paths: seq<string>,
    cacheTtl: int,
    verbose: bool,
    region: Option<string>,
    domain: Option<string>,
    exclude: Option<string>,
    direct: bool)

  // ---------- Field by field ----------

  function NormalBase(e: Engine, v: Option<Json>): Result<string, Error> {
    var text := if v.None? || v.value.Null? then "" else e.toText(v.value);
    match e.p.parseUrl(text)
    case None => Err(BadBaseUrl)
    case Some(u) =>
      if !GoodBase(u) then Err(BadBaseUrl) else Ok(e.p.printUrl(u.(pathname := TrimPath(u.pathname))))
  }

  function UpperTexts(e: Engine, items: seq<Json>): (r: seq<string>)
    ensures |r| == |items| && forall i :: 0 <= i < |items| ==> r[i] == ToUpper(e.toText(items[i]))
  {
    if items == [] then [] else [ToUpper(e.toText(items[0]))] + UpperTexts(e, items[1..])
  }

  /** The members of `order` that occur in `chosen`. */
  function Select(order: seq<string>, chosen: seq<string>): seq<string> {
    if order == [] then []
    else (if order[0] in chosen then [order[0]] else []) + Select(order[1..], chosen)
  }

  function NormalMethods(e: Engine, v: Option<Json>): Result<seq<string>, Error> {
    if v.None? || !v.value.Arr? || v.value.items == [] then Err(BadMethods)
    else
      var names := UpperTexts(e, v.value.items);
      if exists i :: 0 <= i < |names| && names[i] !in METHOD_ORDER then Err(BadMethods)
      else Ok(Select(METHOD_ORDER, names))
  }

  function NormalPath(e: Engine, v: Json): Result<string, Error> {
    if !v.Str? || !StartsWith(v.s, "/") || StartsWith(v.s, "//") || '\\' in v.s then Err(BadPaths)
    else
      match e.locate(v.s)
      case None => Err(BadPaths)
      case Some(l) =>
        if l.origin != ORIGIN || l.search != "" || l.hash != "" then Err(BadPaths) else Ok(l.pathname)
  }

  function AllPaths(e: Engine, items: seq<Json>): Result<seq<string>, Error> {
    if items == [] then Ok([])
    else
      match NormalPath(e, items[0])
      case Err(x) => Err(x)
      case Ok(path) =>
        match AllPaths(e, items[1..])
        case Err(x) => Err(x)
        case Ok(rest) => Ok([path] + rest)
  }

  /** `[...new Set(s)]`: first occurrences. */
  function Dedup(s: seq<string>): seq<string> {
    if s == [] then []
    else
      var rest := Dedup(s[..|s| - 1]);
      if s[|s| - 1] in rest then rest else rest + [s[|s| - 1]]
  }

  function NormalPaths(e: Engine, v: Option<Json>): Result<seq<string>, Error> {
    if v.None? || !v.value.Arr? || v.value.items == [] || |v.value.items| > MAX_PATHS then Err(BadPaths)
    else
      match AllPaths(e, v.value.items)
      case Err(x) => Err(x)
      case Ok(paths) => Ok(Sort(Dedup(paths), Le))
  }

  function NormalTtl(e: Engine, v: Option<Json>): Result<int, Error> {
    match v
    case None => Ok(300)
    case Some(j) =>
      match e.toNumber(j)
      case None => Err(BadCacheTtl)
      case Some(n) =>
        if n.part != 0 || Below(n, 1) || Above(n, MAX_CACHE_TTL_SECONDS) then Err(BadCacheTtl) else Ok(n.whole)
  }

  function NormalFlag(v: Option<Json>, missing: bool): Result<bool, Error> {
    match v
    case None => Ok(missing)
    case Some(j) => if j.Bool? then Ok(j.b) else Err(BadFlag)
  }

  /** Trim every piece, drop the empty ones. */
  function TrimAll(pieces: seq<string>): seq<string> {
    if pieces == [] then []
    else (if Trim(pieces[0]) == "" then [] else [Trim(pieces[0])]) + TrimAll(pieces[1..])
  }

  function PreferenceText(s: string): string { Join(TrimAll(Split(s, ',')), ',') }

  function NormalPreference(v: Option<Json>): Result<Option<string>, Error> {
    match v
    case None => Ok(None)
    case Some(j) =>
      if !j.Str? then Err(BadPreference)
      else
        var text := PreferenceText(j.s);
        if text == "" || |text| > MAX_PREFERENCE_LENGTH then Err(BadPreference) else Ok(Some(text))
  }

  predicate KnownKeys(es: seq<Entry>) { forall i :: 0 <= i < |es| ==> es[i].key in PROFILE_KEYS }

  /** The values under the eleven keys. */
  datatype Fields = Fields(
    protocol: Option<Json>, version: Option<Json>, baseUrl: Option<Json>, methods: Option<Json>, paths: Option<Json>,
    cacheTtl: Option<Json>, verbose: Option<Json>, region: Option<Json>, domain: Option<Json>, exclude: Option<Json>,
    direct: Option<Json>)

  function FieldsOf(es: seq<Entry>): Fields { FieldsAt(PROFILE_KEYS, es) }

  function FieldsAt(keys: seq<string>, es: seq<Entry>): Fields
    requires |keys| == 11
  {
    Fields(FieldOf(es, keys[0]), FieldOf(es, keys[1]), FieldOf(es, keys[2]), FieldOf(es, keys[3]), FieldOf(es, keys[4]),
           FieldOf(es, keys[5]), FieldOf(es, keys[6]), FieldOf(es, keys[7]), FieldOf(es, keys[8]), FieldOf(es, keys[9]),
           FieldOf(es, keys[10]))
  }

  predicate RightProtocol(f: Fields) { f.protocol == Some(Str(PROTOCOL)) && f.version == Some(Num(VERSION)) }

  /** The flags and routing preferences, checked in this order. */
  function NormalTail(f: Fields, q: Profile): Result<Profile, Error> {
    match NormalFlag(f.verbose, false)
    case Err(x) => Err(x)
    case Ok(verbose) =>
      match NormalPreference(f.region)
      case Err(x) => Err(x)
      case Ok(region) =>
        match NormalPreference(f.domain)
        case Err(x) => Err(x)
        case Ok(domain) =>
          match NormalPreference(f.exclude)
          case Err(x) => Err(x)
          case Ok(exclude) =>
            match NormalFlag(f.direct, true)
            case Err(x) => Err(x)
            case Ok(direct) =>
              Ok(q.(verbose := verbose, region := region, domain := domain, exclude := exclude, direct := direct))
  }

  function NormalFields(e: Engine, f: Fields): Result<Profile, Error> {
    match NormalBase(e, f.baseUrl)
    case Err(x) => Err(x)
    case Ok(baseUrl) =>
      match NormalMethods(e, f.methods)
      case Err(x) => Err(x)
      case Ok(methods) =>
        match NormalPaths(e, f.paths)
        case Err(x) => Err(x)
        case Ok(paths) =>
          match NormalTtl(e, f.cacheTtl)
          case Err(x) => Err(x)
          case Ok(ttl) => NormalTail(f, Profile(baseUrl, methods, paths, ttl, false, None, None, None, true))
  }

  function Normalize(e: Engine, input: Json): Result<Profile, Error> {
    if !input.Obj? then Err(NotObject)
    else if !KnownKeys(input.entries) then Err(UnsupportedField)
    else if !RightProtocol(FieldsOf(input.entries)) then Err(BadProtocol)
    else NormalFields(e, FieldsOf(input.entries))
  }

  method CheckKeys(es: seq<Entry>) returns (known: bool)
    ensures known == KnownKeys(es)
  {
    for i := 0 to |es|
      invariant forall j :: 0 <= j < i ==> es[j].key in PROFILE_KEYS
    {
      if es[i].key !in PROFILE_KEYS { return false; }
    }
    return true;
  }

  /** Parse, check, and assign the path of the URL object. */
  method BaseUrl(e: Engine, v: Option<Json>) returns (r: Result<string, Error>)
    ensures r == NormalBase(e, v)
  {
    var parsed := e.p.parseUrl(if v.None? || v.value.Null? then "" else e.toText(v.value));
    if parsed.None? || !GoodBase(parsed.value) { return Err(BadBaseUrl); }
    var base := new UrlObject(parsed.value);
    base.pathname := TrimPath(base.pathname);
    r := Ok(e.p.printUrl(base.Value()));
  }

  method CacheTtl(e: Engine, v: Option<Json>) returns (r: Result<int, Error>)
    ensures r == NormalTtl(e, v)
  {
    var cacheTtl := 300;
    if v.Some? {
      var n := e.toNumber(v.value);
      if n.None? || n.value.part != 0 || Below(n.value, 1) || Above(n.value, MAX_CACHE_TTL_SECONDS) {
        return Err(BadCacheTtl);
      }
      cacheTtl := n.value.whole;
    }
    r := Ok(cacheTtl);
  }

  /** The source, step by step. */
  method NormalizeProxyProfile(e: Engine, input: Json) returns (r: Result<Profile, Error>)
    ensures r == Normalize(e, input)
  {
    if !input.Obj? { return Err(NotObject); }
    var f := FieldsOf(input.entries);
    var known := CheckKeys(input.entries);
    if !known { return Err(UnsupportedField); }
    if !RightProtocol(f) { return Err(BadProtocol); }
    var base := BaseUrl(e, f.baseUrl);
    if base.Err? { return Err(base.error); }
    var methods := NormalMethods(e, f.methods);
    if methods.Err? { return Err(methods.error); }
    var paths := NormalPaths(e, f.paths);
    if paths.Err? { return Err(paths.error); }
    var ttl := CacheTtl(e, f.cacheTtl);
    if ttl.Err? { return Err(ttl.error); }
    r := NormalTail(f, Profile(base.value, methods.value, paths.value, ttl.value, false, None, None, None, true));
  }

  // ---------- Back to JSON ----------

  function Strs(s: seq<string>): (r: seq<Json>)
    ensures |r| == |s| && forall i :: 0 <= i < |s| ==> r[i] == Str(s[i])
  {
    if s == [] then [] else [Str(s[0])] + Strs(s[1..])
  }

  function OptStr(o: Option<string>): Option<Json> {
    match o case None => None case Some(s) => Some(Str(s))
  }

  /** The values of a normalised profile, in the order it is built. */
  function Values(q: Profile): seq<Option<Json>> {
    [Some(Str(PROTOCOL)), Some(Num(VERSION)), Some(Str(q.baseUrl)), Some(Arr(Strs(q.methods))),
     Some(Arr(Strs(q.paths))), Some(Num(Whole(q.cacheTtl))), Some(Bool(q.verbose)), OptStr(q.region),
     OptStr(q.domain), OptStr(q.exclude), Some(Bool(q.direct))]
  }

  /** A normalised profile, as the object it is on the wire. */
  function ToJson(q: Profile): Json { Obj(Build(PROFILE_KEYS, Values(q))) }

  lemma KeysDiffer()
    ensures forall i, j :: 0 <= i < j < |PROFILE_KEYS| ==> PROFILE_KEYS[i] != PROFILE_KEYS[j]
  {
  }

  lemma KeysAreDistinct()
    ensures NoDup(PROFILE_KEYS)
  {
    KeysDiffer();
    NoDupIff(PROFILE_KEYS);
  }

  function ProfileFields(q: Profile): Fields {
    Fields(Some(Str(PROTOCOL)), Some(Num(VERSION)), Some(Str(q.baseUrl)), Some(Arr(Strs(q.methods))),
           Some(Arr(Strs(q.paths))), Some(Num(Whole(q.cacheTtl))), Some(Bool(q.verbose)), OptStr(q.region),
           OptStr(q.domain), OptStr(q.exclude), Some(Bool(q.direct)))
  }

  lemma JsonFields(q: Profile)
    ensures FieldsOf(ToJson(q).entries) == ProfileFields(q)
  {
    KeysAreDistinct();
    BuiltFields(PROFILE_KEYS, Values(q));
  }

  lemma JsonKeys(q: Profile)
    ensures KnownKeys(ToJson(q).entries) && DistinctKeys(ToJson(q).entries)
  {
    KeysAreDistinct();
    BuiltFields(PROFILE_KEYS, Values(q));
    var es := ToJson(q).entries;
    forall i | 0 <= i < |es| ensures es[i].key in PROFILE_KEYS {
      assert es[i] in es;
      MemberHasKey(es, es[i]);
      BuiltKeys(PROFILE_KEYS, Values(q), es[i].key);
    }
  }
}
