/** What a normalised profile means, field by field: when a profile is accepted at all, and
    what each field of the accepted one is, in terms of what was asked for. */
module ProfileMeaning {
  import opened Wrappers
  import opened JsMaps
  import opened Strings
  import opened Sorting
  import opened CanonicalJson
  import opened Dedupe
  import opened Profile
  import opened ProfileNormal

  // ---------- The base ----------

  /** `t` is the path without the slashes at its end; of nothing but slashes, one is left. */
  predicate WithoutEndSlashes(path: string, t: string) {
    || (t == "/" && forall i :: 0 <= i < |path| ==> path[i] == '/')
    || (t != "" && t[|t| - 1] != '/' && t <= path && forall i :: |t| <= i < |path| ==> path[i] == '/')
  }

  lemma {:induction false} TrimmedRest(s: string)
    ensures var t := TrimSlashes(s);
            && t <= s && (forall i :: |t| <= i < |s| ==> s[i] == '/') && (t == "" || t[|t| - 1] != '/')
  {
    if s != "" && s[|s| - 1] == '/' { TrimmedRest(s[..|s| - 1]); }
  }

  lemma TrimPathMeans(path: string)
    ensures WithoutEndSlashes(path, TrimPath(path))
  {
    TrimmedRest(path);
  }

  /** The text that is parsed: nothing stands for the empty string. */
  function BaseText(e: Engine, v: Option<Json>): string {
    match v
    case None => ""
    case Some(j) => if j.Null? then "" else e.toText(j)
  }

  ghost predicate GoodBaseText(e: Engine, text: string) {
    && e.p.parseUrl(text).Some?
    && var u := e.p.parseUrl(text).value;
    && (u.protocol == "http:" || u.protocol == "https:")
    && u.username == "" && u.password == "" && u.query == [] && u.hash == ""
  }

  /** `base` is what the URL prints as, without the slashes at the end of its path. */
  ghost predicate BaseOf(e: Engine, text: string, base: string) {
    GoodBaseText(e, text) &&
    var u := e.p.parseUrl(text).value;
    exists t :: WithoutEndSlashes(u.pathname, t) && base == e.p.printUrl(u.(pathname := t))
  }

  lemma BaseMeans(e: Engine, v: Option<Json>)
    ensures NormalBase(e, v).Ok? <==> GoodBaseText(e, BaseText(e, v))
    ensures NormalBase(e, v).Ok? ==> BaseOf(e, BaseText(e, v), NormalBase(e, v).value)
  {
    if GoodBaseText(e, BaseText(e, v)) { TrimPathMeans(e.p.parseUrl(BaseText(e, v)).value.pathname); }
  }

  // ---------- The methods, in their order ----------

  /** Members of `order`, as they come in `order`. */
  ghost predicate InOrderOf(order: seq<string>, s: seq<string>) {
    forall i, j :: 0 <= i < j < |s| ==> Before(order, s[i], s[j])
  }

  ghost predicate Before(order: seq<string>, x: string, y: string) {
    exists a, b :: 0 <= a < b < |order| && order[a] == x && order[b] == y
  }

  lemma {:induction false} SelectedInOrder(order: seq<string>, chosen: seq<string>)
    ensures InOrderOf(order, Select(order, chosen))
  {
    if order != [] {
      var rest := Select(order[1..], chosen);
      SelectedInOrder(order[1..], chosen);
      forall x, y | Before(order[1..], x, y) ensures Before(order, x, y) { BeforeInMore(order, x, y); }
      forall j | 0 <= j < |rest| ensures Before(order, order[0], rest[j]) { FirstIsBefore(order, chosen, rest[j]); }
    }
  }

  lemma BeforeInMore(order: seq<string>, x: string, y: string)
    requires order != [] && Before(order[1..], x, y)
    ensures Before(order, x, y)
  {
    var a, b :| 0 <= a < b < |order| - 1 && order[1..][a] == x && order[1..][b] == y;
    assert order[a + 1] == x && order[b + 1] == y;
  }

  lemma FirstIsBefore(order: seq<string>, chosen: seq<string>, y: string)
    requires order != [] && y in Select(order[1..], chosen)
    ensures Before(order, order[0], y)
  {
    SelectMembers(order[1..], chosen, y);
    var b :| 0 <= b < |order| - 1 && order[1..][b] == y;
    assert order[b + 1] == y;
  }

  // ---------- Flags and preferences ----------

  /** Missing, or a boolean. */
  predicate FlagOf(v: Option<Json>, missing: bool, b: bool) {
    match v
    case None => b == missing
    case Some(j) => j == Bool(b)
  }

  lemma FlagMeans(v: Option<Json>, missing: bool)
    ensures NormalFlag(v, missing).Ok? <==> v.None? || v.value.Bool?
    ensures NormalFlag(v, missing).Ok? ==> FlagOf(v, missing, NormalFlag(v, missing).value)
  {
  }

  /** `t` lists the pieces of `s` between commas, trimmed and without the empty ones. */
  ghost predicate TidyList(s: string, t: string) {
    && Split(t, ',') == TrimAll(Split(s, ','))
    && forall x :: x in Split(t, ',') <==>
         x != "" && exists i :: 0 <= i < |Split(s, ',')| && x == Trim(Split(s, ',')[i])
  }

  lemma {:induction false} TrimAllMembers(pieces: seq<string>, x: string)
    ensures x in TrimAll(pieces) <==> x != "" && exists i :: 0 <= i < |pieces| && x == Trim(pieces[i])
  {
    if pieces != [] {
      TrimAllMembers(pieces[1..], x);
      assert forall i :: 0 < i < |pieces| ==> pieces[i] == pieces[1..][i - 1];
      if i :| 0 <= i < |pieces[1..]| && x == Trim(pieces[1..][i]) { assert x == Trim(pieces[i + 1]); }
    }
  }

  lemma TidyText(s: string)
    requires PreferenceText(s) != ""
    ensures TidyList(s, PreferenceText(s))
  {
    PreferenceTwice(s);
    forall x
      ensures x in Split(PreferenceText(s), ',') <==>
              x != "" && exists i :: 0 <= i < |Split(s, ',')| && x == Trim(Split(s, ',')[i])
    {
      TrimAllMembers(Split(s, ','), x);
    }
  }

  lemma {:induction false} NothingTidy(pieces: seq<string>)
    requires forall i :: 0 <= i < |pieces| ==> ',' !in pieces[i]
    ensures Join(TrimAll(pieces), ',') == "" <==> forall i :: 0 <= i < |pieces| ==> Trim(pieces[i]) == ""
  {
    TrimAllTidies(pieces);
    var tidy := TrimAll(pieces);
    if tidy != [] {
      assert tidy[0] in tidy;
      TrimAllMembers(pieces, tidy[0]);
      assert Join(tidy, ',') != "" by { JoinStarts(tidy); }
    } else {
      forall i | 0 <= i < |pieces| ensures Trim(pieces[i]) == "" {
        if Trim(pieces[i]) != "" { TrimAllMembers(pieces, Trim(pieces[i])); }
      }
    }
  }

  lemma JoinStarts(parts: seq<string>)
    requires parts != [] && parts[0] != ""
    ensures Join(parts, ',') != ""
  {
  }

  /** Absent, or a text with at least one non-empty piece and not too long when tidied. */
  ghost predicate GoodPreference(v: Option<Json>) {
    v.None? ||
    (v.value.Str? && (exists i :: 0 <= i < |Split(v.value.s, ',')| && Trim(Split(v.value.s, ',')[i]) != "")
     && |PreferenceText(v.value.s)| <= MAX_PREFERENCE_LENGTH)
  }

  ghost predicate PreferenceOf(v: Option<Json>, o: Option<string>) {
    match v
    case None => o.None?
    case Some(j) => j.Str? && o.Some? && TidyList(j.s, o.value) && 1 <= |o.value| <= MAX_PREFERENCE_LENGTH
  }

  lemma PreferenceMeans(v: Option<Json>)
    ensures NormalPreference(v).Ok? <==> GoodPreference(v)
    ensures NormalPreference(v).Ok? ==> PreferenceOf(v, NormalPreference(v).value)
  {
    if v.Some? && v.value.Str? {
      PiecesArePlain(v.value.s, ',');
      NothingTidy(Split(v.value.s, ','));
      if PreferenceText(v.value.s) != "" { TidyText(v.value.s); }
    }
  }

  // ---------- The whole profile ----------

  ghost predicate GoodMethods(e: Engine, v: Option<Json>) {
    && v.Some? && v.value.Arr? && v.value.items != []
    && forall i :: 0 <= i < |v.value.items| ==> ToUpper(e.toText(v.value.items[i])) in METHOD_ORDER
  }

  ghost predicate GoodPaths(e: Engine, v: Option<Json>) {
    && v.Some? && v.value.Arr? && 1 <= |v.value.items| <= MAX_PATHS
    && forall i :: 0 <= i < |v.value.items| ==> GoodPath(e, v.value.items[i])
  }

  /** An origin-relative path: text with one slash in front, no backslash, no query, no fragment. */
  predicate GoodPath(e: Engine, v: Json) {
    && v.Str? && v.s != "" && v.s[0] == '/' && (|v.s| < 2 || v.s[1] != '/') && '\\' !in v.s
    && e.locate(v.s).Some? && e.locate(v.s).value.origin == ORIGIN
    && e.locate(v.s).value.search == "" && e.locate(v.s).value.hash == ""
  }

  lemma PathMeans(e: Engine, v: Json)
    ensures NormalPath(e, v).Ok? <==> GoodPath(e, v)
    ensures GoodPath(e, v) ==> NormalPath(e, v) == Ok(e.locate(v.s).value.pathname)
  {
    if v.Str? {
      assert StartsWith(v.s, "/") <==> v.s != "" && v.s[0] == '/';
      assert StartsWith(v.s, "//") <==> |v.s| >= 2 && v.s[0] == '/' && v.s[1] == '/';
    }
  }

  ghost predicate GoodTtl(e: Engine, v: Option<Json>) {
    v.None? || exists n :: 1 <= n <= MAX_CACHE_TTL_SECONDS && e.toNumber(v.value) == Some(Whole(n))
  }

  lemma TtlIff(e: Engine, v: Option<Json>)
    ensures NormalTtl(e, v).Ok? <==> GoodTtl(e, v)
  {
    if NormalTtl(e, v).Ok? { TtlMeans(e, v, NormalTtl(e, v).value); }
    if v.Some? && GoodTtl(e, v) {
      var n :| 1 <= n <= MAX_CACHE_TTL_SECONDS && e.toNumber(v.value) == Some(Whole(n));
      TtlMeans(e, v, n);
    }
  }

  predicate GoodFlag(v: Option<Json>) { v.None? || v.value.Bool? }

  /** Every field is acceptable. */
  ghost predicate GoodFields(e: Engine, f: Fields) {
    && GoodBaseText(e, BaseText(e, f.baseUrl)) && GoodMethods(e, f.methods) && GoodPaths(e, f.paths)
    && GoodTtl(e, f.cacheTtl) && GoodFlag(f.verbose) && GoodFlag(f.direct)
    && GoodPreference(f.region) && GoodPreference(f.domain) && GoodPreference(f.exclude)
  }

  predicate NamesMethod(e: Engine, items: seq<Json>, m: string) {
    exists i :: 0 <= i < |items| && ToUpper(e.toText(items[i])) == m
  }

  predicate NamesPath(e: Engine, items: seq<Json>, p: string) {
    exists i :: 0 <= i < |items| && GoodPath(e, items[i]) && e.locate(items[i].s).value.pathname == p
  }

  /** `q` is what the fields ask for. Quiet unless asked otherwise, and direct unless refused. */
  ghost predicate AskedFor(e: Engine, f: Fields, q: Profile) {
    && BaseOf(e, BaseText(e, f.baseUrl), q.baseUrl)
    && f.methods.Some? && f.methods.value.Arr? && f.paths.Some? && f.paths.value.Arr?
    && (forall m :: m in q.methods <==> NamesMethod(e, f.methods.value.items, m))
    && InOrderOf(METHOD_ORDER, q.methods)
    && (forall p :: p in q.paths <==> NamesPath(e, f.paths.value.items, p))
    && Sorted(q.paths, Le) && NoDup(q.paths)
    && (if f.cacheTtl.None? then q.cacheTtl == 300
        else 1 <= q.cacheTtl <= MAX_CACHE_TTL_SECONDS && e.toNumber(f.cacheTtl.value) == Some(Whole(q.cacheTtl)))
    && FlagOf(f.verbose, false, q.verbose) && FlagOf(f.direct, true, q.direct)
    && PreferenceOf(f.region, q.region) && PreferenceOf(f.domain, q.domain) && PreferenceOf(f.exclude, q.exclude)
  }

  lemma MethodsAsked(e: Engine, v: Option<Json>)
    ensures NormalMethods(e, v).Ok? <==> GoodMethods(e, v)
    ensures NormalMethods(e, v).Ok? ==>
              && (forall m :: m in NormalMethods(e, v).value <==> NamesMethod(e, v.value.items, m))
              && InOrderOf(METHOD_ORDER, NormalMethods(e, v).value)
  {
    MethodsMean(e, v);
    if NormalMethods(e, v).Ok? { SelectedInOrder(METHOD_ORDER, UpperTexts(e, v.value.items)); }
  }

  lemma PathsAsked(e: Engine, v: Option<Json>)
    requires Locates(e)
    ensures NormalPaths(e, v).Ok? <==> GoodPaths(e, v)
    ensures NormalPaths(e, v).Ok? ==>
              && (forall p :: p in NormalPaths(e, v).value <==> NamesPath(e, v.value.items, p))
              && Sorted(NormalPaths(e, v).value, Le) && NoDup(NormalPaths(e, v).value)
  {
    PathsMean(e, v);
    if v.Some? && v.value.Arr? {
      forall i | 0 <= i < |v.value.items|
        ensures NormalPath(e, v.value.items[i]).Ok? <==> GoodPath(e, v.value.items[i])
        ensures GoodPath(e, v.value.items[i]) ==>
                  NormalPath(e, v.value.items[i]) == Ok(e.locate(v.value.items[i].s).value.pathname)
      {
        PathMeans(e, v.value.items[i]);
      }
    }
  }

  lemma TailMeans(f: Fields, q: Profile)
    ensures NormalTail(f, q).Ok? <==>
            GoodFlag(f.verbose) && GoodFlag(f.direct)
            && GoodPreference(f.region) && GoodPreference(f.domain) && GoodPreference(f.exclude)
    ensures NormalTail(f, q).Ok? ==>
              var r := NormalTail(f, q).value;
              && r.baseUrl == q.baseUrl && r.methods == q.methods && r.paths == q.paths && r.cacheTtl == q.cacheTtl
              && FlagOf(f.verbose, false, r.verbose) && FlagOf(f.direct, true, r.direct)
              && PreferenceOf(f.region, r.region) && PreferenceOf(f.domain, r.domain)
              && PreferenceOf(f.exclude, r.exclude)
  {
    FlagMeans(f.verbose, false);
    FlagMeans(f.direct, true);
    PreferenceMeans(f.region);
    PreferenceMeans(f.domain);
    PreferenceMeans(f.exclude);
  }

  lemma FieldsMean(e: Engine, f: Fields)
    requires Locates(e)
    ensures NormalFields(e, f).Ok? <==> GoodFields(e, f)
    ensures NormalFields(e, f).Ok? ==> AskedFor(e, f, NormalFields(e, f).value)
  {
    BaseMeans(e, f.baseUrl);
    MethodsAsked(e, f.methods);
    PathsAsked(e, f.paths);
    TtlIff(e, f.cacheTtl);
    if NormalTtl(e, f.cacheTtl).Ok? { TtlMeans(e, f.cacheTtl, NormalTtl(e, f.cacheTtl).value); }
    if NormalBase(e, f.baseUrl).Ok? && NormalMethods(e, f.methods).Ok? && NormalPaths(e, f.paths).Ok?
       && NormalTtl(e, f.cacheTtl).Ok?
    {
      TailMeans(f, Profile(NormalBase(e, f.baseUrl).value, NormalMethods(e, f.methods).value,
                           NormalPaths(e, f.paths).value, NormalTtl(e, f.cacheTtl).value,
                           false, None, None, None, true));
    }
  }

  /** Main result: a profile is accepted exactly when it is an object of known fields and of this
      protocol in which every field is acceptable; and then every field of the normal form is what
      was asked for, or its default. */
  lemma NormalizeIff(e: Engine, input: Json)
    requires Locates(e)
    ensures Normalize(e, input).Ok? <==>
            && input.Obj? && (forall i :: 0 <= i < |input.entries| ==> input.entries[i].key in PROFILE_KEYS)
            && FieldsOf(input.entries).protocol == Some(Str(PROTOCOL))
            && FieldsOf(input.entries).version == Some(Num(VERSION))
            && GoodFields(e, FieldsOf(input.entries))
    ensures Normalize(e, input).Ok? ==> AskedFor(e, FieldsOf(input.entries), Normalize(e, input).value)
  {
    if input.Obj? { FieldsMean(e, FieldsOf(input.entries)); }
  }
}
