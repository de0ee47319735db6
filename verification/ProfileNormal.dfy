/** Normalising a profile: what the normal form is, when it is stable, and what it ignores. */
module ProfileNormal {
  import opened Wrappers
  import opened JsMaps
  import opened Strings
  import opened Sorting
  import opened CanonicalJson
  import opened Dedupe
  import opened Profile
  import PathGate
  import PathResolver

  // ---------- Methods ----------

  lemma {:induction false} SelectMembers(order: seq<string>, chosen: seq<string>, x: string)
    ensures x in Select(order, chosen) <==> x in order && x in chosen
  {
    if order != [] { SelectMembers(order[1..], chosen, x); }
  }

  lemma {:induction false} SelectSame(order: seq<string>, a: seq<string>, b: seq<string>)
    requires forall x :: x in order ==> (x in a <==> x in b)
    ensures Select(order, a) == Select(order, b)
  {
    if order != [] { SelectSame(order[1..], a, b); }
  }

  lemma UpperMethods(m: string)
    requires m in METHOD_ORDER
    ensures ToUpper(m) == m
  {
    assert forall c :: c in m ==> 'A' <= c <= 'Z';
  }

  lemma SelectedMethods(names: seq<string>)
    requires names != [] && forall i :: 0 <= i < |names| ==> names[i] in METHOD_ORDER
    ensures var ms := Select(METHOD_ORDER, names);
            ms != [] && (forall i :: 0 <= i < |ms| ==> ms[i] in METHOD_ORDER) && Select(METHOD_ORDER, ms) == ms
  {
    var ms := Select(METHOD_ORDER, names);
    forall x ensures x in ms <==> x in METHOD_ORDER && x in names { SelectMembers(METHOD_ORDER, names, x); }
    assert names[0] in ms;
    SelectSame(METHOD_ORDER, names, ms);
  }

  lemma MethodsAgain(e: Engine, v: Option<Json>)
    requires Coerces(e) && NormalMethods(e, v).Ok?
    ensures NormalMethods(e, Some(Arr(Strs(NormalMethods(e, v).value)))) == NormalMethods(e, v)
  {
    var names, ms := UpperTexts(e, v.value.items), NormalMethods(e, v).value;
    SelectedMethods(names);
    var again := UpperTexts(e, Strs(ms));
    forall i | 0 <= i < |ms| ensures again[i] == ms[i] { UpperMethods(ms[i]); }
    assert again == ms;
  }

  // ---------- Paths ----------

  lemma {:induction false} DedupMembers(s: seq<string>)
    ensures NoDup(Dedup(s)) && |Dedup(s)| <= |s|
    ensures forall x :: x in Dedup(s) <==> x in s
  {
    if s != [] {
      var n := |s| - 1;
      assert s == s[..n] + [s[n]];
      DedupMembers(s[..n]);
      if s[n] !in Dedup(s[..n]) { NoDupAppend(Dedup(s[..n]), s[n]); }
    }
  }

  lemma {:induction false} DedupOfDistinct(s: seq<string>)
    requires NoDup(s)
    ensures Dedup(s) == s
  {
    if s != [] {
      var n := |s| - 1;
      assert s == s[..n] + [s[n]];
      NoDupInit(s[..n], s[n]);
      DedupOfDistinct(s[..n]);
    }
  }

  lemma {:induction false} NoDupInit(s: seq<string>, x: string)
    requires NoDup(s + [x])
    ensures NoDup(s) && x !in s
  {
    if s != [] {
      assert (s + [x])[1..] == s[1..] + [x];
      NoDupInit(s[1..], x);
    }
  }

  lemma {:induction false} CountOnce(s: seq<string>, x: string)
    requires NoDup(s)
    ensures multiset(s)[x] == if x in s then 1 else 0
  {
    if s != [] {
      CountOnce(s[1..], x);
      assert s == [s[0]] + s[1..];
    }
  }

  lemma {:induction false} OnceMeansNoDup(s: seq<string>)
    requires forall x :: multiset(s)[x] <= 1
    ensures NoDup(s)
  {
    if s != [] {
      assert s == [s[0]] + s[1..];
      assert multiset(s) == multiset{s[0]} + multiset(s[1..]);
      forall x ensures multiset(s[1..])[x] <= 1 { assert multiset(s)[x] <= 1; }
      OnceMeansNoDup(s[1..]);
      assert multiset(s)[s[0]] <= 1;
      assert multiset(s[1..])[s[0]] == 0;
    }
  }

  lemma SortKeepsDistinct(s: seq<string>)
    requires NoDup(s)
    ensures NoDup(Sort(s, Le))
  {
    SortPermutes(s, Le);
    forall x ensures multiset(Sort(s, Le))[x] <= 1 { CountOnce(s, x); }
    OnceMeansNoDup(Sort(s, Le));
  }

  /** The list of paths is determined by the set of paths. */
  lemma SameSetSameList(a: seq<string>, b: seq<string>)
    requires forall x :: x in a <==> x in b
    ensures Sort(Dedup(a), Le) == Sort(Dedup(b), Le)
  {
    DedupMembers(a);
    DedupMembers(b);
    forall x ensures multiset(Dedup(a))[x] == multiset(Dedup(b))[x] {
      CountOnce(Dedup(a), x);
      CountOnce(Dedup(b), x);
    }
    LeIsOrder();
    SortIgnoresOrder(Dedup(a), Dedup(b), Le);
  }

  lemma {:induction false} AllPathsOk(e: Engine, items: seq<Json>)
    ensures AllPaths(e, items).Ok? <==> forall i :: 0 <= i < |items| ==> NormalPath(e, items[i]).Ok?
    ensures AllPaths(e, items).Err? ==> AllPaths(e, items).error == BadPaths
    ensures AllPaths(e, items).Ok? ==>
              |AllPaths(e, items).value| == |items|
              && forall i :: 0 <= i < |items| ==> NormalPath(e, items[i]) == Ok(AllPaths(e, items).value[i])
  {
    if items != [] {
      AllPathsOk(e, items[1..]);
      assert forall i :: 0 < i < |items| ==> items[i] == items[1..][i - 1];
      assert forall i :: 0 <= i < |items| - 1 ==> items[1..][i] == items[i + 1];
    }
  }

  predicate Doubled(path: string) { StartsWith(path, "//") }

  predicate SomeDoubled(paths: seq<string>) { exists i :: 0 <= i < |paths| && Doubled(paths[i]) }

  /** A path the normaliser returned is accepted again, unless it begins with two slashes. */
  lemma PathAgain(e: Engine, v: Json)
    requires Locates(e) && NormalPath(e, v).Ok?
    ensures var path := NormalPath(e, v).value;
            && path != "" && path[0] == '/'
            && NormalPath(e, Str(path)) == if Doubled(path) then Err(BadPaths) else Ok(path)
  {
    var path := NormalPath(e, v).value;
    assert path == e.locate(v.s).value.pathname;
    assert StartsWith(path, "/") by { assert path == ['/'] + path[1..]; }
  }

  /** The list the normaliser returns: sorted, distinct, made of accepted paths. */
  lemma NormalPathsShape(e: Engine, v: Option<Json>)
    requires Locates(e) && NormalPaths(e, v).Ok?
    ensures var ps := NormalPaths(e, v).value;
            && 0 < |ps| <= MAX_PATHS && NoDup(ps) && Sorted(ps, Le)
            && forall i :: 0 <= i < |ps| ==> exists item :: item in v.value.items && NormalPath(e, item) == Ok(ps[i])
  {
    var items := v.value.items;
    var all := AllPaths(e, items).value;
    AllPathsOk(e, items);
    DedupMembers(all);
    SortMembers(Dedup(all), Le);
    SortKeepsDistinct(Dedup(all));
    LeIsOrder();
    SortSorts(Dedup(all), Le);
    var ps := NormalPaths(e, v).value;
    assert all[0] in ps;
    forall i | 0 <= i < |ps| ensures exists item :: item in items && NormalPath(e, item) == Ok(ps[i]) {
      assert ps[i] in all;
      var j :| 0 <= j < |all| && all[j] == ps[i];
      assert items[j] in items;
    }
  }

  lemma EachAgain(e: Engine, v: Option<Json>)
    requires Locates(e) && NormalPaths(e, v).Ok?
    ensures var ps := NormalPaths(e, v).value;
            forall i :: 0 <= i < |ps| ==>
              NormalPath(e, Strs(ps)[i]) == if Doubled(ps[i]) then Err(BadPaths) else Ok(ps[i])
  {
    var ps := NormalPaths(e, v).value;
    NormalPathsShape(e, v);
    forall i | 0 <= i < |ps|
      ensures NormalPath(e, Strs(ps)[i]) == if Doubled(ps[i]) then Err(BadPaths) else Ok(ps[i])
    {
      var item :| item in v.value.items && NormalPath(e, item) == Ok(ps[i]);
      PathAgain(e, item);
    }
  }

  lemma AllAgain(e: Engine, ps: seq<string>)
    requires forall i :: 0 <= i < |ps| ==>
               NormalPath(e, Strs(ps)[i]) == if Doubled(ps[i]) then Err(BadPaths) else Ok(ps[i])
    ensures AllPaths(e, Strs(ps)) == if SomeDoubled(ps) then Err(BadPaths) else Ok(ps)
  {
    AllPathsOk(e, Strs(ps));
    if SomeDoubled(ps) {
      var i :| 0 <= i < |ps| && Doubled(ps[i]);
      assert NormalPath(e, Strs(ps)[i]).Err?;
    } else {
      assert AllPaths(e, Strs(ps)).value == ps;
    }
  }

  lemma PathsAgain(e: Engine, v: Option<Json>)
    requires Locates(e) && NormalPaths(e, v).Ok?
    ensures var ps := NormalPaths(e, v).value;
            NormalPaths(e, Some(Arr(Strs(ps)))) == if SomeDoubled(ps) then Err(BadPaths) else Ok(ps)
  {
    var ps := NormalPaths(e, v).value;
    NormalPathsShape(e, v);
    EachAgain(e, v);
    AllAgain(e, ps);
    DedupOfDistinct(ps);
    SortOfSorted(ps, Le);
  }

  // ---------- The other fields ----------

  lemma {:induction false} TrimSlashesEnds(s: string)
    ensures var t := TrimSlashes(s); t <= s && (t == "" || t[|t| - 1] != '/')
  {
    if s != "" && s[|s| - 1] == '/' { TrimSlashesEnds(s[..|s| - 1]); }
  }

  lemma TrimPathShape(s: string)
    requires s != "" && s[0] == '/'
    ensures PathGate.TrimmedPath(TrimPath(s)) && TrimPath(TrimPath(s)) == TrimPath(s)
  {
    TrimSlashesEnds(s);
    var t := TrimPath(s);
    if t != "/" { assert TrimSlashes(t) == t; }
  }

  /** The base of a normalised profile, parsed again. */
  lemma BaseAgain(e: Engine, v: Option<Json>)
    requires Coerces(e) && ParsesBases(e) && NormalBase(e, v).Ok?
    ensures var text := NormalBase(e, v).value;
            && NormalBase(e, Some(Str(text))) == Ok(text)
            && e.p.parseUrl(text).Some? && GoodBase(e.p.parseUrl(text).value)
            && PathGate.TrimmedPath(e.p.parseUrl(text).value.pathname)
  {
    var raw := if v.None? || v.value.Null? then "" else e.toText(v.value);
    var u := e.p.parseUrl(raw).value;
    TrimPathShape(u.pathname);
  }

  lemma TtlAgain(e: Engine, v: Option<Json>)
    requires Coerces(e) && NormalTtl(e, v).Ok?
    ensures var n := NormalTtl(e, v).value;
            1 <= n <= MAX_CACHE_TTL_SECONDS && NormalTtl(e, Some(Num(Whole(n)))) == Ok(n)
  {
    var n := NormalTtl(e, v).value;
    assert e.toNumber(Num(Whole(n))) == Some(Whole(n));
  }

  lemma {:induction false} TrimSubset(s: string, c: char)
    requires c !in s
    ensures c !in Trim(s)
  {
    TrimStartStarts(s);
    TrimEndEnds(TrimStart(s));
  }

  predicate Tidy(pieces: seq<string>) {
    forall i :: 0 <= i < |pieces| ==> pieces[i] != "" && Trimmed(pieces[i]) && ',' !in pieces[i]
  }

  lemma {:induction false} TrimAllTidies(pieces: seq<string>)
    requires forall i :: 0 <= i < |pieces| ==> ',' !in pieces[i]
    ensures Tidy(TrimAll(pieces))
  {
    if pieces != [] {
      TrimAllTidies(pieces[1..]);
      TrimSubset(pieces[0], ',');
      TrimIsTrimmed(pieces[0]);
    }
  }

  lemma {:induction false} TrimAllOfTidy(pieces: seq<string>)
    requires Tidy(pieces)
    ensures TrimAll(pieces) == pieces
  {
    if pieces != [] {
      TrimAllOfTidy(pieces[1..]);
      TrimOfTrimmed(pieces[0]);
    }
  }

  /** Normalising a preference twice changes nothing: its pieces are the trimmed, non-empty
      pieces of the text, in order. */
  lemma PreferenceTwice(s: string)
    requires PreferenceText(s) != ""
    ensures Split(PreferenceText(s), ',') == TrimAll(Split(s, ','))
    ensures PreferenceText(PreferenceText(s)) == PreferenceText(s)
  {
    PiecesArePlain(s, ',');
    var tidy := TrimAll(Split(s, ','));
    TrimAllTidies(Split(s, ','));
    SplitJoin(tidy, ',');
    TrimAllOfTidy(tidy);
  }

  lemma PreferenceAgain(v: Option<Json>)
    requires NormalPreference(v).Ok?
    ensures NormalPreference(OptStr(NormalPreference(v).value)) == NormalPreference(v)
  {
    if v.Some? { PreferenceTwice(v.value.s); }
  }

  // ---------- What the fields mean ----------

  /** The methods are exactly those named, up to case, and all of them are known. */
  lemma MethodsMean(e: Engine, v: Option<Json>)
    ensures NormalMethods(e, v).Ok? <==>
            v.Some? && v.value.Arr? && v.value.items != []
            && forall i :: 0 <= i < |v.value.items| ==> ToUpper(e.toText(v.value.items[i])) in METHOD_ORDER
    ensures NormalMethods(e, v).Ok? ==>
              forall m :: m in NormalMethods(e, v).value <==>
                exists i :: 0 <= i < |v.value.items| && ToUpper(e.toText(v.value.items[i])) == m
  {
    if v.Some? && v.value.Arr? {
      var items, names := v.value.items, UpperTexts(e, v.value.items);
      assert forall i :: 0 <= i < |items| ==> names[i] == ToUpper(e.toText(items[i]));
      if NormalMethods(e, v).Ok? {
        forall m
          ensures m in NormalMethods(e, v).value <==> exists i :: 0 <= i < |items| && ToUpper(e.toText(items[i])) == m
        {
          SelectMembers(METHOD_ORDER, names, m);
          if i :| 0 <= i < |items| && ToUpper(e.toText(items[i])) == m { assert names[i] == m; }
          if m in names {
            var i :| 0 <= i < |names| && names[i] == m;
            assert ToUpper(e.toText(items[i])) == m;
          }
        }
      }
    }
  }

  /** The paths are exactly the accepted ones, sorted, each once. */
  lemma PathsMean(e: Engine, v: Option<Json>)
    requires Locates(e)
    ensures NormalPaths(e, v).Ok? <==>
            v.Some? && v.value.Arr? && 1 <= |v.value.items| <= MAX_PATHS
            && forall i :: 0 <= i < |v.value.items| ==> NormalPath(e, v.value.items[i]).Ok?
    ensures NormalPaths(e, v).Ok? ==>
              && Sorted(NormalPaths(e, v).value, Le) && NoDup(NormalPaths(e, v).value)
              && forall p :: p in NormalPaths(e, v).value <==>
                   exists i :: 0 <= i < |v.value.items| && NormalPath(e, v.value.items[i]) == Ok(p)
  {
    if v.Some? && v.value.Arr? { AllPathsOk(e, v.value.items); }
    if NormalPaths(e, v).Ok? {
      var items, all := v.value.items, AllPaths(e, v.value.items).value;
      NormalPathsShape(e, v);
      DedupMembers(all);
      SortMembers(Dedup(all), Le);
      forall p
        ensures p in NormalPaths(e, v).value <==> exists i :: 0 <= i < |items| && NormalPath(e, items[i]) == Ok(p)
      {
        if i :| 0 <= i < |items| && NormalPath(e, items[i]) == Ok(p) { assert all[i] == p; }
        if p in all {
          var i :| 0 <= i < |all| && all[i] == p;
          assert NormalPath(e, items[i]) == Ok(p);
        }
      }
    }
  }

  /** Five minutes when it is absent; otherwise a whole number from 1 to 3600. */
  lemma TtlMeans(e: Engine, v: Option<Json>, n: int)
    ensures NormalTtl(e, v) == Ok(n) <==>
            if v.None? then n == 300
            else 1 <= n <= MAX_CACHE_TTL_SECONDS && e.toNumber(v.value) == Some(Whole(n))
  {
  }

  // ---------- Normalising twice ----------

  /** What the fields of a normalised profile are. */
  lemma NormalParts(e: Engine, f: Fields)
    requires NormalFields(e, f).Ok?
    ensures var q := NormalFields(e, f).value;
            && NormalBase(e, f.baseUrl) == Ok(q.baseUrl)
            && NormalMethods(e, f.methods) == Ok(q.methods)
            && NormalPaths(e, f.paths) == Ok(q.paths)
            && NormalTtl(e, f.cacheTtl) == Ok(q.cacheTtl)
            && NormalPreference(f.region) == Ok(q.region)
            && NormalPreference(f.domain) == Ok(q.domain)
            && NormalPreference(f.exclude) == Ok(q.exclude)
  {
  }

  lemma FieldsAgain(e: Engine, f: Fields)
    requires Sane(e) && NormalFields(e, f).Ok?
    ensures var q := NormalFields(e, f).value;
            NormalFields(e, ProfileFields(q)) == if SomeDoubled(q.paths) then Err(BadPaths) else Ok(q)
  {
    NormalParts(e, f);
    BaseAgain(e, f.baseUrl);
    MethodsAgain(e, f.methods);
    PathsAgain(e, f.paths);
    TtlAgain(e, f.cacheTtl);
    PreferenceAgain(f.region);
    PreferenceAgain(f.domain);
    PreferenceAgain(f.exclude);
  }

  /** Main result: a second normalisation returns the same profile, except when some resolved
      path begins with two slashes; then, and only then, it is refused. */
  lemma NormalizeTwice(e: Engine, input: Json)
    requires Sane(e) && Normalize(e, input).Ok?
    ensures var q := Normalize(e, input).value;
            Normalize(e, ToJson(q)) == if SomeDoubled(q.paths) then Err(BadPaths) else Ok(q)
  {
    var q := Normalize(e, input).value;
    FieldsAgain(e, FieldsOf(input.entries));
    JsonKeys(q);
    JsonFields(q);
  }

  /** A path the normaliser accepts and turns into one it refuses. */
  lemma DotSegmentsBreakStability(e: Engine)
    requires Locates(e)
    ensures NormalPaths(e, Some(Arr([Str("/.//x")]))) == Ok(["//x"])
    ensures NormalPaths(e, Some(Arr([Str("//x")]))) == Err(BadPaths)
  {
    PathResolver.DotThenEmpty();
    var items, refused := [Str("/.//x")], [Str("//x")];
    assert NormalPath(e, items[0]) == Ok("//x");
    OnePath(e, items[0]);
    DedupOne("//x");
    OnePath(e, refused[0]);
    assert NormalPath(e, refused[0]) == Err(BadPaths);
  }

  lemma OnePath(e: Engine, v: Json)
    ensures AllPaths(e, [v]) == match NormalPath(e, v) case Ok(path) => Ok([path]) case Err(x) => Err(x)
  {
    assert [v][0] == v && [v][1..] == [] && AllPaths(e, []) == Ok([]);
    if NormalPath(e, v).Ok? { assert [NormalPath(e, v).value] + [] == [NormalPath(e, v).value]; }
  }

  lemma DedupOne(x: string)
    ensures Dedup([x]) == [x]
    ensures Sort([x], Le) == [x]
  {
    assert [x][..0] == [] && [x][1..] == [];
  }

  // ---------- What the normal form ignores ----------

  /** The same profile asked for in another way: methods and paths in any order and with
      any repetitions, every other field the same. */
  ghost predicate SameProfileRequested(a: Fields, b: Fields) {
    && a.(methods := None, paths := None) == b.(methods := None, paths := None)
    && SameList(a.methods, b.methods) && SameList(a.paths, b.paths)
    && (|a.paths.value.items| <= MAX_PATHS <==> |b.paths.value.items| <= MAX_PATHS)
  }

  ghost predicate SameList(a: Option<Json>, b: Option<Json>) {
    && a.Some? && a.value.Arr? && a.value.items != []
    && b.Some? && b.value.Arr? && b.value.items != []
    && forall x :: x in a.value.items <==> x in b.value.items
  }

  lemma SameMethods(e: Engine, a: Option<Json>, b: Option<Json>)
    requires SameList(a, b)
    ensures NormalMethods(e, a) == NormalMethods(e, b)
  {
    var x, y := UpperTexts(e, a.value.items), UpperTexts(e, b.value.items);
    forall n ensures n in x <==> n in y {
      SameUpper(e, a.value.items, b.value.items, n);
      SameUpper(e, b.value.items, a.value.items, n);
    }
    SelectSame(METHOD_ORDER, x, y);
    if i :| 0 <= i < |x| && x[i] !in METHOD_ORDER { assert x[i] in y; }
    if i :| 0 <= i < |y| && y[i] !in METHOD_ORDER { assert y[i] in x; }
  }

  lemma SameUpper(e: Engine, a: seq<Json>, b: seq<Json>, n: string)
    requires forall x :: x in a ==> x in b
    ensures n in UpperTexts(e, a) ==> n in UpperTexts(e, b)
  {
    var x, y := UpperTexts(e, a), UpperTexts(e, b);
    if n in x {
      var i :| 0 <= i < |x| && x[i] == n;
      assert a[i] in b;
      var j :| 0 <= j < |b| && b[j] == a[i];
      assert y[j] == n;
    }
  }

  lemma SamePaths(e: Engine, a: Option<Json>, b: Option<Json>)
    requires SameList(a, b) && (|a.value.items| <= MAX_PATHS <==> |b.value.items| <= MAX_PATHS)
    ensures NormalPaths(e, a) == NormalPaths(e, b)
  {
    var x, y := a.value.items, b.value.items;
    AllPathsOk(e, x);
    AllPathsOk(e, y);
    PathsCarryOver(e, x, y);
    PathsCarryOver(e, y, x);
    if AllPaths(e, x).Ok? { SameSetSameList(AllPaths(e, x).value, AllPaths(e, y).value); }
  }

  lemma PathsCarryOver(e: Engine, x: seq<Json>, y: seq<Json>)
    requires forall j :: j in x <==> j in y
    ensures AllPaths(e, y).Ok? ==>
              AllPaths(e, x).Ok? && forall n :: n in AllPaths(e, x).value ==> n in AllPaths(e, y).value
  {
    AllPathsOk(e, x);
    AllPathsOk(e, y);
    if AllPaths(e, y).Ok? {
      forall i | 0 <= i < |x| ensures NormalPath(e, x[i]).Ok? {
        assert x[i] in y;
        var j :| 0 <= j < |y| && y[j] == x[i];
      }
      forall n | n in AllPaths(e, x).value ensures n in AllPaths(e, y).value {
        var i :| 0 <= i < |x| && AllPaths(e, x).value[i] == n;
        assert x[i] in y;
        var j :| 0 <= j < |y| && y[j] == x[i];
        assert AllPaths(e, y).value[j] == n;
      }
    }
  }

  /** Order and repetition of methods and of paths, and the order of the keys, do not matter, as
      long as both lists of paths are within `MAX_PATHS` or neither is. */
  lemma NormalizeIgnoresOrder(e: Engine, a: seq<Entry>, b: seq<Entry>)
    requires (KnownKeys(a) <==> KnownKeys(b)) && SameProfileRequested(FieldsOf(a), FieldsOf(b))
    ensures Normalize(e, Obj(a)) == Normalize(e, Obj(b))
  {
    SameMethods(e, FieldsOf(a).methods, FieldsOf(b).methods);
    SamePaths(e, FieldsOf(a).paths, FieldsOf(b).paths);
  }
}
