/** The path gate of a profile: string tests that decide a prefix match on segments. */
module PathGate {
  import opened Strings

  /** The string tests of the source. */
  predicate Passes(basePathname: string, allowed: seq<string>, target: string) {
    var basePath := BasePath(basePathname);
    if basePath != "" && target != basePath && !StartsWith(target, basePath + "/") then false
    else exists i :: 0 <= i < |allowed| && Matches(allowed[i], Relative(basePath, target))
  }

  function BasePath(pathname: string): string {
    if pathname == "/" then ""
    else if pathname != "" && pathname[|pathname| - 1] == '/' then pathname[..|pathname| - 1]
    else pathname
  }

  function Relative(basePath: string, target: string): string {
    if |target| <= |basePath| then "/" else target[|basePath|..]
  }

  predicate Matches(prefix: string, path: string) {
    prefix == "/" || path == prefix || StartsWith(path, prefix + "/")
  }

  // ---------- Segments ----------

  /** The pieces of an absolute path after its leading slash. */
  function Segments(path: string): seq<string> { Split(path, '/')[1..] }

  function BaseSegments(pathname: string): seq<string> {
    if pathname == "/" then [] else Segments(pathname)
  }

  /** The reference definition: base segments, then some allowed path's segments. */
  predicate PassesBySegments(basePathname: string, allowed: seq<string>, target: string) {
    var base, segments := BaseSegments(basePathname), Segments(target);
    base <= segments &&
    exists i :: 0 <= i < |allowed| && (allowed[i] == "/" || Segments(allowed[i]) <= segments[|base|..])
  }

  lemma {:induction false} SplitConcat(a: string, c: char, b: string)
    ensures Split(a + [c] + b, c) == Split(a, c) + Split(b, c)
  {
    var s := a + [c] + b;
    if a == "" {
      assert s == [c] + b && s[1..] == b;
    } else {
      assert s[1..] == a[1..] + [c] + b;
      SplitConcat(a[1..], c, b);
    }
  }

  lemma {:induction false} JoinConcat(a: seq<string>, b: seq<string>, c: char)
    requires a != [] && b != []
    ensures Join(a + b, c) == Join(a, c) + [c] + Join(b, c)
  {
    assert (a + b)[1..] == a[1..] + b;
    if |a| > 1 { JoinConcat(a[1..], b, c); }
  }

  lemma PrefixRest<T>(a: seq<T>, b: seq<T>)
    ensures a <= b <==> |a| <= |b| && b == a + b[|a|..]
  {
  }

  lemma ContinuesAfter(a: string, t: string, c: char)
    requires a + [c] <= t
    ensures Split(a, c) <= Split(t, c) && Split(t, c)[|Split(a, c)|..] == Split(t[|a| + 1..], c)
  {
    PrefixRest(a + [c], t);
    SplitConcat(a, c, t[|a| + 1..]);
  }

  lemma PiecesContinue(a: string, t: string, c: char)
    requires Split(a, c) <= Split(t, c)
    ensures t == a || a + [c] <= t
  {
    var pieces, more := Split(a, c), Split(t, c)[|Split(a, c)|..];
    PrefixRest(pieces, Split(t, c));
    JoinSplit(t, c);
    JoinSplit(a, c);
    if more == [] {
      assert pieces + more == pieces;
    } else {
      JoinConcat(pieces, more, c);
    }
  }

  /** Split pieces are a prefix exactly when the text continues after a separator. */
  lemma SplitPrefixIff(a: string, t: string, c: char)
    ensures Split(a, c) <= Split(t, c) <==> t == a || a + [c] <= t
  {
    if a + [c] <= t { ContinuesAfter(a, t, c); }
    if Split(a, c) <= Split(t, c) { PiecesContinue(a, t, c); }
  }

  lemma LeadingSlash(path: string)
    requires path != "" && path[0] == '/'
    ensures Split(path, '/') == [""] + Segments(path) && Segments(path) == Split(path[1..], '/') && Segments(path) != []
  {
  }

  lemma SegmentsPrefixIff(a: string, t: string)
    requires a != "" && a[0] == '/' && t != "" && t[0] == '/'
    ensures Segments(a) <= Segments(t) <==> t == a || a + "/" <= t
  {
    LeadingSlash(a);
    LeadingSlash(t);
    SplitPrefixIff(a, t, '/');
    assert Split(a, '/') <= Split(t, '/') <==> Segments(a) <= Segments(t);
  }

  /** A normalised base path: the root, or no slash at the end. */
  predicate TrimmedPath(pathname: string) {
    pathname != "" && pathname[0] == '/' && (pathname == "/" || pathname[|pathname| - 1] != '/')
  }

  lemma Remainder(base: string, target: string)
    requires TrimmedPath(base) && base != "/" && target != "" && target[0] == '/'
    requires Segments(base) <= Segments(target)
    ensures target == base || base + "/" <= target
    ensures Segments(target)[|Segments(base)|..] == if target == base then [] else Segments(Relative(base, target))
  {
    SegmentsPrefixIff(base, target);
    LeadingSlash(base);
    LeadingSlash(target);
    if target != base {
      ContinuesAfter(base, target, '/');
      LeadingSlash(Relative(base, target));
      assert Relative(base, target)[1..] == target[|base| + 1..];
    }
  }

  lemma MatchesIff(prefix: string, path: string)
    requires prefix != "" && prefix[0] == '/' && path != "" && path[0] == '/'
    ensures Matches(prefix, path) <==> prefix == "/" || Segments(prefix) <= Segments(path)
  {
    SegmentsPrefixIff(prefix, path);
  }

  /** Main result: the string tests are exactly prefix matching on segments. */
  lemma GateIsSegmentPrefix(base: string, allowed: seq<string>, target: string)
    requires TrimmedPath(base) && target != "" && target[0] == '/'
    requires forall i :: 0 <= i < |allowed| ==> allowed[i] != "" && allowed[i][0] == '/'
    ensures Passes(base, allowed, target) <==> PassesBySegments(base, allowed, target)
  {
    if base == "/" {
      assert target[0..] == target;
      forall i | 0 <= i < |allowed|
        ensures Matches(allowed[i], target) <==> allowed[i] == "/" || Segments(allowed[i]) <= Segments(target)
      {
        MatchesIff(allowed[i], target);
      }
      assert Segments(target)[0..] == Segments(target);
    } else {
      SegmentsPrefixIff(base, target);
      if Segments(base) <= Segments(target) { GateBelow(base, allowed, target); }
    }
  }

  lemma GateBelow(base: string, allowed: seq<string>, target: string)
    requires TrimmedPath(base) && base != "/" && target != "" && target[0] == '/'
    requires Segments(base) <= Segments(target)
    requires forall i :: 0 <= i < |allowed| ==> allowed[i] != "" && allowed[i][0] == '/'
    ensures forall i :: 0 <= i < |allowed| ==>
              (Matches(allowed[i], Relative(base, target)) <==>
               allowed[i] == "/" || Segments(allowed[i]) <= Segments(target)[|Segments(base)|..])
  {
    Remainder(base, target);
    forall i | 0 <= i < |allowed|
      ensures Matches(allowed[i], Relative(base, target)) <==>
              allowed[i] == "/" || Segments(allowed[i]) <= Segments(target)[|Segments(base)|..]
    {
      LeadingSlash(allowed[i]);
      MatchesIff(allowed[i], Relative(base, target));
      if target == base { RootOnly(allowed[i]); }
    }
  }

  lemma RootOnly(prefix: string)
    requires prefix != "" && prefix[0] == '/'
    ensures Matches(prefix, "/") <==> prefix == "/"
    ensures Segments(prefix) != []
  {
    LeadingSlash(prefix);
  }
}
