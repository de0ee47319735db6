/** From a request to its dedupe key: canonical URL, canonical semantic headers, body hash
    and profile hash, hashed together. The issuer of a ticket and the node that spends it
    both compute this key. */
module Dedupe {
  import opened Wrappers
  import opened Bytes
  import opened Strings
  import opened Sorting
  import opened CanonicalJson

  // ---------- What the platform provides ----------

  datatype Pair = Pair(name: string, value: string)

  /** A parsed URL; `query` is the list behind `searchParams`. */
  datatype Url = Url(
    protocol: string,
    username: string,
    password: string,
    hostname: string,
    port: string,
    pathname: string,
    query: seq<Pair>,
    hash: string)

  datatype Platform = Platform(
    sha256Hex: bytes -> string,
    utf8: string -> bytes,
    stringify: Json -> string,
    parseUrl: string -> Option<Url>,
    printUrl: Url -> string)

  const NO_BODY := "no-body"

  ghost predicate InjectiveHash(p: Platform) {
    && (forall a, b :: p.sha256Hex(a) == p.sha256Hex(b) ==> a == b)
    && (forall a :: p.sha256Hex(a) != "" && p.sha256Hex(a) != NO_BODY && '\n' !in p.sha256Hex(a))
  }

  ghost predicate InjectiveText(p: Platform) {
    && (forall a, b :: p.utf8(a) == p.utf8(b) ==> a == b)
    && (forall v, w :: p.stringify(v) == p.stringify(w) ==> v == w)
  }

  /** Parsing a printed canonical URL gives it back. */
  ghost predicate UrlRoundTrip(p: Platform) {
    forall raw :: p.parseUrl(raw).Some? ==>
      p.parseUrl(p.printUrl(Canonical(p.parseUrl(raw).value))) == Some(Canonical(p.parseUrl(raw).value))
  }

  ghost predicate Ideal(p: Platform) { InjectiveHash(p) && InjectiveText(p) && UrlRoundTrip(p) }

  // ---------- URLs ----------

  predicate PairLe(a: Pair, b: Pair) {
    if a.name == b.name then Le(a.value, b.value) else Le(a.name, b.name)
  }

  lemma PairLeIsOrder()
    ensures IsOrder(PairLe) && Antisymmetric(PairLe)
  {
    LeIsOrder();
    forall x, y, z | PairLe(x, y) && PairLe(y, z) ensures PairLe(x, z) {
      if x.name == z.name && x.name != y.name { LeAntisymmetric(x.name, y.name); }
    }
    forall x, y | PairLe(x, y) && PairLe(y, x) ensures x == y {
      if x.name != y.name { LeAntisymmetric(x.name, y.name); }
    }
  }

  predicate DefaultPort(protocol: string, port: string) {
    (protocol == "https:" && port == "443") || (protocol == "http:" && port == "80")
  }

  function Canonical(u: Url): Url {
    var protocol := ToLower(u.protocol);
    Url(protocol, u.username, u.password, ToLower(u.hostname),
        if DefaultPort(protocol, u.port) then "" else u.port,
        u.pathname, Sort(u.query, PairLe), "")
  }

  class UrlObject {
    var protocol: string
    var username: string
    var password: string
    var hostname: string
    var port: string
    var pathname: string
    var query: seq<Pair>
    var hash: string

    function Value(): Url
      reads this
    {
      Url(protocol, username, password, hostname, port, pathname, query, hash)
    }

    constructor (u: Url)
      ensures Value() == u
    {
      protocol, username, password, hostname := u.protocol, u.username, u.password, u.hostname;
      port, pathname, query, hash := u.port, u.pathname, u.query, u.hash;
    }

    method Canonicalize()
      modifies this
      ensures Value() == Canonical(old(Value()))
    {
      hash := "";
      protocol := ToLower(protocol);
      hostname := ToLower(hostname);
      if (protocol == "https:" && port == "443") || (protocol == "http:" && port == "80") { port := ""; }
      var params := Sort(query, PairLe);
      ghost var target := Canonical(old(Value()));
      query := [];
      var i := 0;
      while i < |params|
        invariant 0 <= i <= |params|
        invariant Value() == target.(query := params[..i])
      {
        query := query + [params[i]];
        i := i + 1;
      }
      assert params[..i] == params;
    }
  }

  function CanonicalizeUrl(p: Platform, raw: string): Option<string> {
    match p.parseUrl(raw)
    case None => None
    case Some(u) => Some(p.printUrl(Canonical(u)))
  }

  predicate SamePort(u: Url, v: Url) {
    || u.port == v.port
    || (DefaultPort(ToLower(u.protocol), u.port) && v.port == "")
    || (DefaultPort(ToLower(u.protocol), v.port) && u.port == "")
  }

  /** What the canonical form forgets: the fragment, the order of query pairs, a default
      port written out, and the case of protocol and host name. */
  predicate SameTarget(u: Url, v: Url) {
    && ToLower(u.protocol) == ToLower(v.protocol) && u.username == v.username && u.password == v.password
    && ToLower(u.hostname) == ToLower(v.hostname) && SamePort(u, v)
    && u.pathname == v.pathname && multiset(u.query) == multiset(v.query)
  }

  lemma SortDecidesMultiset(a: seq<Pair>, b: seq<Pair>)
    ensures Sort(a, PairLe) == Sort(b, PairLe) <==> multiset(a) == multiset(b)
  {
    SortPermutes(a, PairLe);
    SortPermutes(b, PairLe);
    PairLeIsOrder();
    if multiset(a) == multiset(b) { SortIgnoresOrder(a, b, PairLe); }
  }

  /** Both directions: the canonical form identifies exactly the same targets. */
  lemma CanonicalIffSameTarget(u: Url, v: Url)
    ensures Canonical(u) == Canonical(v) <==> SameTarget(u, v)
  {
    SortDecidesMultiset(u.query, v.query);
  }

  lemma CanonicalTwice(u: Url)
    ensures Canonical(Canonical(u)) == Canonical(u)
  {
    LowerTwice(u.protocol);
    LowerTwice(u.hostname);
    PairLeIsOrder();
    SortSorts(u.query, PairLe);
    SortOfSorted(Sort(u.query, PairLe), PairLe);
  }

  lemma CanonicalizeUrlTwice(p: Platform, raw: string)
    requires UrlRoundTrip(p)
    ensures CanonicalizeUrl(p, raw).Some? ==>
            CanonicalizeUrl(p, CanonicalizeUrl(p, raw).value) == CanonicalizeUrl(p, raw)
  {
    if p.parseUrl(raw).Some? { CanonicalTwice(p.parseUrl(raw).value); }
  }

  lemma SameUrlText(p: Platform, raw: string, raw': string)
    requires UrlRoundTrip(p) && p.parseUrl(raw).Some? && p.parseUrl(raw').Some?
    ensures CanonicalizeUrl(p, raw) == CanonicalizeUrl(p, raw') <==>
            SameTarget(p.parseUrl(raw).value, p.parseUrl(raw').value)
  {
    var u, v := p.parseUrl(raw).value, p.parseUrl(raw').value;
    assert p.parseUrl(p.printUrl(Canonical(u))) == Some(Canonical(u));
    assert p.parseUrl(p.printUrl(Canonical(v))) == Some(Canonical(v));
    CanonicalIffSameTarget(u, v);
  }

  // ---------- Headers ----------

  predicate Allowed(name: string) { name == "accept" || name == "content-type" }

  predicate Hashed(name: string) { name == "authorization" || name == "cookie" }

  predicate Semantic(name: string) { Allowed(name) || Hashed(name) }

  function ValueOf(p: Platform, h: Pair): string {
    if Allowed(ToLower(h.name)) then Normal(h.value) else p.sha256Hex(p.utf8(h.value))
  }

  /** The entry of the last header with this name, if any. */
  function Last(p: Platform, headers: seq<Pair>, name: string): Option<string> {
    if headers == [] then None
    else
      var h := headers[|headers| - 1];
      if ToLower(h.name) == name then Some(ValueOf(p, h)) else Last(p, headers[..|headers| - 1], name)
  }

  /** The four canonical header values; a missing or empty one is absent. */
  datatype Canon = Canon(accept: string, authorization: string, contentType: string, cookie: string)

  function OrEmpty(o: Option<string>): string { match o case None => "" case Some(v) => v }

  function CanonicalHeaders(p: Platform, headers: seq<Pair>): Canon {
    Canon(OrEmpty(Last(p, headers, "accept")), OrEmpty(Last(p, headers, "authorization")),
          OrEmpty(Last(p, headers, "content-type")), OrEmpty(Last(p, headers, "cookie")))
  }

  /** The entry under `name`, when there is a value to put there. */
  function One(name: string, value: string): seq<Entry> {
    if value == "" then [] else [Entry(name, Str(value))]
  }

  function Entries(c: Canon): seq<Entry> {
    One("accept", c.accept) + One("authorization", c.authorization)
    + One("content-type", c.contentType) + One("cookie", c.cookie)
  }

  function Get(m: map<string, string>, k: string): Option<string> {
    if k in m then Some(m[k]) else None
  }

  ghost predicate Collected(p: Platform, headers: seq<Pair>, m: map<string, string>) {
    forall k :: Semantic(k) ==> Get(m, k) == Last(p, headers, k)
  }

  method CollectHeaders(p: Platform, headers: seq<Pair>) returns (found: map<string, string>)
    ensures Collected(p, headers, found)
  {
    found := map[];
    var i := 0;
    while i < |headers|
      invariant 0 <= i <= |headers|
      invariant Collected(p, headers[..i], found)
    {
      var lower := ToLower(headers[i].name);
      assert headers[..i + 1][..i] == headers[..i];
      if Allowed(lower) {
        found := found[lower := Normal(headers[i].value)];
      } else if Hashed(lower) {
        found := found[lower := p.sha256Hex(p.utf8(headers[i].value))];
      }
      i := i + 1;
    }
    assert headers[..i] == headers;
  }

  /** Emission in a fixed order; an empty value is left out. */
  method CanonicalizeSemanticHeaders(p: Platform, headers: seq<Pair>) returns (r: seq<Entry>)
    ensures r == Entries(CanonicalHeaders(p, headers))
  {
    var found := CollectHeaders(p, headers);
    CollectedCanon(p, headers, found);
    r := Entries(CanonOf(found));
  }

  function CanonOf(m: map<string, string>): Canon {
    Canon(OrEmpty(Get(m, "accept")), OrEmpty(Get(m, "authorization")),
          OrEmpty(Get(m, "content-type")), OrEmpty(Get(m, "cookie")))
  }

  lemma CollectedCanon(p: Platform, headers: seq<Pair>, m: map<string, string>)
    requires Collected(p, headers, m)
    ensures CanonOf(m) == CanonicalHeaders(p, headers)
  {
    assert Semantic("accept") && Semantic("authorization") && Semantic("content-type") && Semantic("cookie");
  }

  /** No two headers share a semantic name, ignoring case, and disagree on its value. */
  ghost predicate NoConflict(p: Platform, headers: seq<Pair>) {
    forall a, b :: a in headers && b in headers && Semantic(ToLower(a.name)) && ToLower(a.name) == ToLower(b.name)
      ==> ValueOf(p, a) == ValueOf(p, b)
  }

  lemma {:induction false} LastIsEntry(p: Platform, headers: seq<Pair>, name: string)
    ensures Last(p, headers, name).None? <==> forall h :: h in headers ==> ToLower(h.name) != name
    ensures Last(p, headers, name).Some? ==>
            exists h :: h in headers && ToLower(h.name) == name && ValueOf(p, h) == Last(p, headers, name).value
  {
    if headers != [] {
      var n := |headers| - 1;
      assert headers == headers[..n] + [headers[n]];
      LastIsEntry(p, headers[..n], name);
    }
  }

  lemma LastIgnoresOrder(p: Platform, a: seq<Pair>, b: seq<Pair>, name: string)
    requires multiset(a) == multiset(b) && NoConflict(p, a) && Semantic(name)
    ensures Last(p, a, name) == Last(p, b, name)
  {
    SameMembers(a, b);
    LastIsEntry(p, a, name);
    LastIsEntry(p, b, name);
  }

  /** `h` moved to the end. */
  lemma MovedLast(headers: seq<Pair>, h: Pair) returns (r: seq<Pair>)
    requires h in headers
    ensures multiset(r) == multiset(headers) && r != [] && r[|r| - 1] == h
  {
    var i :| 0 <= i < |headers| && headers[i] == h;
    r := headers[..i] + headers[i + 1..] + [h];
    assert headers == headers[..i] + ([h] + headers[i + 1..]);
  }

  /** Exactly when the order of headers does not matter. */
  lemma HeaderOrderIrrelevantIff(p: Platform, headers: seq<Pair>)
    requires InjectiveHash(p)
    ensures (forall other :: multiset(other) == multiset(headers) ==>
               CanonicalHeaders(p, other) == CanonicalHeaders(p, headers)) <==>
            NoConflict(p, headers)
  {
    if NoConflict(p, headers) {
      forall other | multiset(other) == multiset(headers)
        ensures CanonicalHeaders(p, other) == CanonicalHeaders(p, headers)
      {
        LastIgnoresOrder(p, headers, other, "accept");
        LastIgnoresOrder(p, headers, other, "authorization");
        LastIgnoresOrder(p, headers, other, "content-type");
        LastIgnoresOrder(p, headers, other, "cookie");
      }
    } else {
      var a, b :| a in headers && b in headers && Semantic(ToLower(a.name)) && ToLower(a.name) == ToLower(b.name)
        && ValueOf(p, a) != ValueOf(p, b);
      var x := MovedLast(headers, a);
      var y := MovedLast(headers, b);
      assert Last(p, x, ToLower(a.name)) == Some(ValueOf(p, a));
      assert Last(p, y, ToLower(a.name)) == Some(ValueOf(p, b));
      assert CanonicalHeaders(p, x) != CanonicalHeaders(p, y);
    }
  }

  /** Two names that collide ignoring case: the last one wins, so order decides. */
  lemma CollidingNamesDependOnOrder(p: Platform)
    ensures var a, b := Pair("Accept", "x"), Pair("accept", "y");
            CanonicalHeaders(p, [a, b]).accept == "y" && CanonicalHeaders(p, [b, a]).accept == "x"
  {
    var a, b := Pair("Accept", "x"), Pair("accept", "y");
    LowerAccept();
    assert Normal("x") == "x" && Normal("y") == "y" by {
      OneLetter('x');
      OneLetter('y');
    }
    assert [a, b][1] == b && [b, a][1] == a;
  }

  lemma LowerAccept()
    ensures ToLower("Accept") == "accept" && ToLower("accept") == "accept"
  {
  }

  lemma OneLetter(c: char)
    requires !IsSpace(c)
    ensures Normal([c]) == [c]
  {
    assert TrimStart([c]) == [c] && TrimEnd([c]) == [c];
    assert [c][1..] == "" && Fold("") == "";
    assert Fold([c]) == [[c][0]] + Fold([c][1..]);
  }

  /** Two spellings of one header: same name up to case; same words where the value is
      public, the same value where it is secret. */
  predicate SameHeader(a: Pair, b: Pair) {
    && ToLower(a.name) == ToLower(b.name)
    && (Allowed(ToLower(a.name)) ==> Words(a.value) == Words(b.value))
    && (Hashed(ToLower(a.name)) ==> a.value == b.value)
  }

  lemma {:induction false} RespelledLast(p: Platform, a: seq<Pair>, b: seq<Pair>, name: string)
    requires |a| == |b| && Semantic(name) && forall i :: 0 <= i < |a| ==> SameHeader(a[i], b[i])
    ensures Last(p, a, name) == Last(p, b, name)
  {
    if a != [] {
      var n := |a| - 1;
      RespelledLast(p, a[..n], b[..n], name);
      NormalIffSameWords(a[n].value, b[n].value);
    }
  }

  lemma RespelledOne(p: Platform, headers: seq<Pair>, shuffled: seq<Pair>, respelled: seq<Pair>, name: string)
    requires NoConflict(p, headers) && multiset(shuffled) == multiset(headers) && Semantic(name)
    requires |shuffled| == |respelled| && forall i :: 0 <= i < |shuffled| ==> SameHeader(shuffled[i], respelled[i])
    ensures Last(p, respelled, name) == Last(p, headers, name)
  {
    LastIgnoresOrder(p, headers, shuffled, name);
    RespelledLast(p, shuffled, respelled, name);
  }

  lemma RespelledHeaders(p: Platform, headers: seq<Pair>, shuffled: seq<Pair>, respelled: seq<Pair>)
    requires NoConflict(p, headers) && multiset(shuffled) == multiset(headers)
    requires |shuffled| == |respelled| && forall i :: 0 <= i < |shuffled| ==> SameHeader(shuffled[i], respelled[i])
    ensures CanonicalHeaders(p, respelled) == CanonicalHeaders(p, headers)
  {
    RespelledOne(p, headers, shuffled, respelled, "accept");
    RespelledOne(p, headers, shuffled, respelled, "authorization");
    RespelledOne(p, headers, shuffled, respelled, "content-type");
    RespelledOne(p, headers, shuffled, respelled, "cookie");
  }

  /** Header `i` is the last one of this name, ignoring case. */
  predicate LastNamed(headers: seq<Pair>, name: string, i: nat) {
    && i < |headers| && ToLower(headers[i].name) == name
    && forall j :: i < j < |headers| ==> ToLower(headers[j].name) != name
  }

  lemma {:induction false} LastAt(p: Platform, headers: seq<Pair>, name: string, i: nat)
    requires LastNamed(headers, name, i)
    ensures Last(p, headers, name) == Some(ValueOf(p, headers[i]))
  {
    var n := |headers| - 1;
    if i < n { LastAt(p, headers[..n], name, i); }
  }

  /** Of the four headers that count, the last one of each name: accept and content-type as their words,
      authorization and cookie as a digest, and nothing where there is none. */
  lemma CanonicalMeans(p: Platform, headers: seq<Pair>, i: nat)
    ensures var c := CanonicalHeaders(p, headers);
            && (LastNamed(headers, "accept", i) ==> c.accept == Normal(headers[i].value))
            && (LastNamed(headers, "content-type", i) ==> c.contentType == Normal(headers[i].value))
            && (LastNamed(headers, "authorization", i) ==> c.authorization == p.sha256Hex(p.utf8(headers[i].value)))
            && (LastNamed(headers, "cookie", i) ==> c.cookie == p.sha256Hex(p.utf8(headers[i].value)))
            && (!HasName(headers, "accept") ==> c.accept == "")
            && (!HasName(headers, "content-type") ==> c.contentType == "")
            && (!HasName(headers, "authorization") ==> c.authorization == "")
            && (!HasName(headers, "cookie") ==> c.cookie == "")
  {
    if LastNamed(headers, "accept", i) { LastAt(p, headers, "accept", i); }
    if LastNamed(headers, "content-type", i) { LastAt(p, headers, "content-type", i); }
    if LastNamed(headers, "authorization", i) { LastAt(p, headers, "authorization", i); }
    if LastNamed(headers, "cookie", i) { LastAt(p, headers, "cookie", i); }
    LastIsEntry(p, headers, "accept");
    LastIsEntry(p, headers, "content-type");
    LastIsEntry(p, headers, "authorization");
    LastIsEntry(p, headers, "cookie");
  }

  predicate HasName(headers: seq<Pair>, name: string) { exists h :: h in headers && ToLower(h.name) == name }

  /** What the canonical headers say about a secret header: nothing but equality. */
  lemma SecretsAgree(p: Platform, a: Pair, b: Pair)
    requires InjectiveHash(p) && InjectiveText(p) && ToLower(a.name) == ToLower(b.name) && Semantic(ToLower(a.name))
    ensures ValueOf(p, a) == ValueOf(p, b) <==> SameHeader(a, b)
  {
    NormalIffSameWords(a.value, b.value);
  }

  // ---------- Bodies ----------

  datatype Body = NoBody | Raw(data: bytes) | Text(text: string) | Data(value: Json)

  /** The bytes a body stands for; structured data is put in canonical form first. */
  function BodyBytes(p: Platform, b: Body): Option<bytes> {
    match b
    case NoBody => None
    case Raw(data) => Some(data)
    case Text(text) => Some(p.utf8(text))
    case Data(value) => Some(p.utf8(StableStringify(p, value)))
  }

  function StableStringify(p: Platform, v: Json): string { p.stringify(DeepSort(v)) }

  function ComputeBodyHash(p: Platform, b: Body): string {
    match b
    case NoBody => NO_BODY
    case Raw(data) => p.sha256Hex(data)
    case Text(text) => p.sha256Hex(p.utf8(text))
    case Data(value) => p.sha256Hex(p.utf8(StableStringify(p, value)))
  }

  lemma BodyHashIff(p: Platform, a: Body, b: Body)
    requires InjectiveHash(p)
    ensures ComputeBodyHash(p, a) == ComputeBodyHash(p, b) <==> BodyBytes(p, a) == BodyBytes(p, b)
  {
  }

  /** Structured bodies hash alike exactly when they differ only in key order. */
  lemma DataHashIff(p: Platform, v: Json, w: Json)
    requires InjectiveHash(p) && InjectiveText(p) && WellFormed(v) && WellFormed(w)
    ensures ComputeBodyHash(p, Data(v)) == ComputeBodyHash(p, Data(w)) <==> Same(v, w)
  {
    DeepSortIffSame(v, w);
  }

  // ---------- The key ----------

  datatype Request = Request(
    targetUrl: string,
    verb: string,
    headers: seq<Pair>,
    body: Body,
    profileHash: Option<string>)

  /** What the key is made of. */
  datatype Parts = Parts(verb: string, url: string, headers: Canon, bodyHash: string, profileHash: string)

  function PartsOf(p: Platform, r: Request): Option<Parts> {
    match CanonicalizeUrl(p, r.targetUrl)
    case None => None
    case Some(url) =>
      Some(Parts(ToUpper(r.verb), url, CanonicalHeaders(p, r.headers), ComputeBodyHash(p, r.body),
                 OrEmpty(r.profileHash)))
  }

  function KeyObject(q: Parts): Json {
    Obj([Entry("v", Num(Whole(1))), Entry("scope", Str("global")),
         Entry("method", Str(q.verb)), Entry("url", Str(q.url)),
         Entry("headers", Obj(Entries(q.headers))), Entry("body_hash", Str(q.bodyHash))] +
        if q.profileHash == "" then [] else [Entry("profile_hash", Str(q.profileHash))])
  }

  /** `None` when the URL does not parse. */
  function GenerateDedupeKey(p: Platform, r: Request): Option<string> {
    match PartsOf(p, r)
    case None => None
    case Some(q) => Some(p.sha256Hex(p.utf8(StableStringify(p, KeyObject(q)))))
  }

  lemma EntriesWellFormed(c: Canon)
    ensures WellFormed(Obj(Entries(c)))
  {
    UnequalMeansDistinct(Entries(c));
  }

  lemma {:induction false} LookupAt(es: seq<Entry>, i: nat)
    requires i < |es| && DistinctKeys(es)
    ensures HasKey(es, es[i].key) && Lookup(es, es[i].key) == es[i].value
  {
    EntryIsLookup(es, es[i]);
  }

  /** The value under a key, as text; "" when there is none. */
  function Field(es: seq<Entry>, k: string): string {
    if HasKey(es, k) && Lookup(es, k).Str? then Lookup(es, k).s else ""
  }

  lemma EntriesFields(c: Canon)
    ensures var es := Entries(c);
            && Field(es, "accept") == c.accept && Field(es, "authorization") == c.authorization
            && Field(es, "content-type") == c.contentType && Field(es, "cookie") == c.cookie
  {
    OneEntries(c, "accept", c.accept);
    OneEntries(c, "authorization", c.authorization);
    OneEntries(c, "content-type", c.contentType);
    OneEntries(c, "cookie", c.cookie);
  }

  /** The four names and their values. */
  predicate IsField(c: Canon, name: string, value: string) {
    || (name == "accept" && value == c.accept) || (name == "authorization" && value == c.authorization)
    || (name == "content-type" && value == c.contentType) || (name == "cookie" && value == c.cookie)
  }

  lemma OneEntries(c: Canon, name: string, value: string)
    requires IsField(c, name, value)
    ensures Field(Entries(c), name) == value
  {
    EntriesWellFormed(c);
    FieldIs(Entries(c), name, value);
  }

  lemma FieldIs(es: seq<Entry>, k: string, v: string)
    requires DistinctKeys(es)
    requires if v == "" then forall e :: e in es ==> e.key != k else Entry(k, Str(v)) in es
    ensures Field(es, k) == v
  {
    if v != "" {
      EntryIsLookup(es, Entry(k, Str(v)));
    } else if HasKey(es, k) {
      LookupIsEntry(es, k);
    }
  }

  lemma SortedField(es: seq<Entry>, k: string)
    requires DistinctKeys(es)
    ensures Field(SortEntries(DeepSortEntries(es)), k) == Field(es, k)
  {
    SortedLookup(es, k);
  }

  lemma SameSortedField(a: seq<Entry>, b: seq<Entry>, k: string)
    requires DistinctKeys(a) && DistinctKeys(b) && DeepSort(Obj(a)) == DeepSort(Obj(b))
    ensures Field(a, k) == Field(b, k)
  {
    SortedField(a, k);
    SortedField(b, k);
  }

  lemma CanonFromSorted(c: Canon, d: Canon)
    requires DeepSort(Obj(Entries(c))) == DeepSort(Obj(Entries(d)))
    ensures c == d
  {
    var a, b := Entries(c), Entries(d);
    EntriesWellFormed(c);
    EntriesWellFormed(d);
    SameSortedField(a, b, "accept");
    SameSortedField(a, b, "authorization");
    SameSortedField(a, b, "content-type");
    SameSortedField(a, b, "cookie");
    SameEntryFields(c, d);
  }

  lemma SameEntryFields(c: Canon, d: Canon)
    requires forall k :: k in ["accept", "authorization", "content-type", "cookie"] ==>
               Field(Entries(c), k) == Field(Entries(d), k)
    ensures c == d
  {
    EntriesFields(c);
    EntriesFields(d);
  }

  lemma KeyObjectDistinct(q: Parts)
    ensures DistinctKeys(KeyObject(q).entries)
  {
    UnequalMeansDistinct(KeyObject(q).entries);
  }

  lemma KeyObjectFields(q: Parts)
    ensures var es := KeyObject(q).entries;
            && Field(es, "method") == q.verb && Field(es, "url") == q.url
            && Field(es, "body_hash") == q.bodyHash && Field(es, "profile_hash") == q.profileHash
            && HasKey(es, "headers") && Lookup(es, "headers") == Obj(Entries(q.headers))
  {
    var es := KeyObject(q).entries;
    KeyObjectDistinct(q);
    LookupAt(es, 2);
    LookupAt(es, 3);
    LookupAt(es, 4);
    LookupAt(es, 5);
    FieldIs(es, "profile_hash", q.profileHash);
  }

  lemma SameSortedValue(a: seq<Entry>, b: seq<Entry>, k: string)
    requires DistinctKeys(a) && DistinctKeys(b) && DeepSort(Obj(a)) == DeepSort(Obj(b))
    requires HasKey(a, k) && HasKey(b, k)
    ensures DeepSort(Lookup(a, k)) == DeepSort(Lookup(b, k))
  {
    SortedLookup(a, k);
    SortedLookup(b, k);
  }

  /** The hashed object determines every part of the key. */
  lemma KeyObjectInjective(q: Parts, r: Parts)
    requires DeepSort(KeyObject(q)) == DeepSort(KeyObject(r))
    ensures q == r
  {
    var a, b := KeyObject(q).entries, KeyObject(r).entries;
    KeyObjectDistinct(q);
    KeyObjectDistinct(r);
    KeyObjectParts(a, b, q, r);
  }

  lemma KeyObjectParts(a: seq<Entry>, b: seq<Entry>, q: Parts, r: Parts)
    requires a == KeyObject(q).entries && b == KeyObject(r).entries && DistinctKeys(a) && DistinctKeys(b)
    requires DeepSort(Obj(a)) == DeepSort(Obj(b))
    ensures q == r
  {
    assert q.verb == r.verb && q.url == r.url && q.bodyHash == r.bodyHash && q.profileHash == r.profileHash by {
      KeyObjectFields(q);
      KeyObjectFields(r);
      SameSortedField(a, b, "method");
      SameSortedField(a, b, "url");
      SameSortedField(a, b, "body_hash");
      SameSortedField(a, b, "profile_hash");
    }
    assert q.headers == r.headers by {
      KeyObjectFields(q);
      KeyObjectFields(r);
      SameSortedValue(a, b, "headers");
      CanonFromSorted(q.headers, r.headers);
    }
  }

  /** Main result: two requests share a key exactly when every canonical part agrees. */
  lemma SameKeyIff(p: Platform, a: Request, b: Request)
    requires InjectiveHash(p) && InjectiveText(p)
    requires GenerateDedupeKey(p, a).Some? && GenerateDedupeKey(p, b).Some?
    ensures GenerateDedupeKey(p, a) == GenerateDedupeKey(p, b) <==> PartsOf(p, a) == PartsOf(p, b)
  {
    if GenerateDedupeKey(p, a) == GenerateDedupeKey(p, b) {
      KeyObjectInjective(PartsOf(p, a).value, PartsOf(p, b).value);
    }
  }

  /** The same, in terms of the requests themselves. */
  ghost predicate Interchangeable(p: Platform, a: Request, b: Request) {
    && ToUpper(a.verb) == ToUpper(b.verb)
    && p.parseUrl(a.targetUrl).Some? && p.parseUrl(b.targetUrl).Some?
    && SameTarget(p.parseUrl(a.targetUrl).value, p.parseUrl(b.targetUrl).value)
    && CanonicalHeaders(p, a.headers) == CanonicalHeaders(p, b.headers)
    && BodyBytes(p, a.body) == BodyBytes(p, b.body)
    && OrEmpty(a.profileHash) == OrEmpty(b.profileHash)
  }

  lemma SameKeyIffInterchangeable(p: Platform, a: Request, b: Request)
    requires Ideal(p) && GenerateDedupeKey(p, a).Some? && GenerateDedupeKey(p, b).Some?
    ensures GenerateDedupeKey(p, a) == GenerateDedupeKey(p, b) <==> Interchangeable(p, a, b)
  {
    SameKeyIff(p, a, b);
    SameUrlText(p, a.targetUrl, b.targetUrl);
    BodyHashIff(p, a.body, b.body);
  }

  /** Respelling a request: query pairs permuted, method case changed, headers permuted and
      respelled. With no conflicting names, the key stays. */
  lemma KeyIsInvariant(p: Platform, a: Request, b: Request, shuffled: seq<Pair>)
    requires Ideal(p) && p.parseUrl(a.targetUrl).Some? && p.parseUrl(b.targetUrl).Some?
    requires SameTarget(p.parseUrl(a.targetUrl).value, p.parseUrl(b.targetUrl).value)
    requires ToUpper(a.verb) == ToUpper(b.verb) && a.body == b.body && a.profileHash == b.profileHash
    requires NoConflict(p, a.headers) && multiset(shuffled) == multiset(a.headers)
    requires |shuffled| == |b.headers| && forall i :: 0 <= i < |shuffled| ==> SameHeader(shuffled[i], b.headers[i])
    ensures GenerateDedupeKey(p, a) == GenerateDedupeKey(p, b)
  {
    RespelledHeaders(p, a.headers, shuffled, b.headers);
    SameKeyIffInterchangeable(p, a, b);
  }
}
