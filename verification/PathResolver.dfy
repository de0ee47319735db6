/** How a URL parser resolves `.` and `..` in an absolute path (path state of the WHATWG URL
    Standard, section 4.4), on text it neither strips nor percent-encodes. */
module PathResolver {
  import opened Strings

  function Shorten(out: seq<string>): seq<string> { if out == [] then [] else out[..|out| - 1] }

  function Walk(segments: seq<string>, out: seq<string>): seq<string> {
    if segments == [] then out
    else
      var last := |segments| == 1;
      if segments[0] == ".." then
        if last then Shorten(out) + [""] else Walk(segments[1..], Shorten(out))
      else if segments[0] == "." then
        if last then out + [""] else Walk(segments[1..], out)
      else Walk(segments[1..], out + [segments[0]])
  }

  function Resolve(path: string): string
    requires path != ""
  {
    "/" + Join(Walk(Split(path[1..], '/'), []), '/')
  }

  /** Letters, digits and a few marks: kept as they are. */
  predicate PlainChar(c: char) {
    'a' <= c <= 'z' || 'A' <= c <= 'Z' || '0' <= c <= '9' || c in "-._~/"
  }

  predicate PlainPath(path: string) {
    path != "" && path[0] == '/' && (|path| < 2 || path[1] != '/') && forall c :: c in path ==> PlainChar(c)
  }

  predicate Dotless(s: seq<string>) {
    forall i :: 0 <= i < |s| ==> s[i] != "." && s[i] != ".." && '/' !in s[i]
  }

  predicate NoSlash(s: seq<string>) { forall i :: 0 <= i < |s| ==> '/' !in s[i] }

  lemma {:induction false} WalkIsDotless(segments: seq<string>, out: seq<string>)
    requires Dotless(out) && NoSlash(segments)
    ensures Dotless(Walk(segments, out))
    ensures segments != [] ==> Walk(segments, out) != []
  {
    if segments != [] {
      var rest := segments[1..];
      if segments[0] == ".." {
        WalkIsDotless(rest, Shorten(out));
      } else if segments[0] == "." {
        WalkIsDotless(rest, out);
      } else {
        WalkIsDotless(rest, out + [segments[0]]);
        if rest == [] { assert Walk(rest, out + [segments[0]]) == out + [segments[0]]; }
      }
    }
  }

  lemma {:induction false} WalkKeepsDotless(segments: seq<string>, out: seq<string>)
    requires Dotless(segments)
    ensures Walk(segments, out) == out + segments
  {
    if segments != [] {
      assert segments == [segments[0]] + segments[1..];
      WalkKeepsDotless(segments[1..], out + [segments[0]]);
      assert out + [segments[0]] + segments[1..] == out + segments;
    }
  }

  /** A resolved path resolves to itself. */
  lemma ResolveTwice(path: string)
    requires path != ""
    ensures Resolve(Resolve(path)) == Resolve(path)
  {
    var segments := Split(path[1..], '/');
    PiecesArePlain(path[1..], '/');
    var out := Walk(segments, []);
    WalkIsDotless(segments, []);
    SplitJoin(out, '/');
    assert Resolve(path)[1..] == Join(out, '/');
    WalkKeepsDotless(out, []);
    assert [] + out == out;
  }

  // ---------- The rules that determine it ----------

  predicate Named(x: string) { x != "." && x != ".." }

  lemma WalkFirst(x: string, rest: seq<string>, out: seq<string>)
    requires rest != []
    ensures Walk([x] + rest, out) ==
            if x == ".." then Walk(rest, Shorten(out)) else if x == "." then Walk(rest, out) else Walk(rest, out + [x])
  {
    assert ([x] + rest)[1..] == rest;
  }

  /** A step up takes back the segment before it. */
  lemma {:induction false} UpCancels(pre: seq<string>, x: string, post: seq<string>, out: seq<string>)
    requires Named(x) && post != []
    ensures Walk(pre + [x, ".."] + post, out) == Walk(pre + post, out)
    decreases |pre|
  {
    if pre == [] {
      assert [] + [x, ".."] + post == [x] + ([".."] + post) && [] + post == post;
      WalkFirst(x, [".."] + post, out);
      WalkFirst("..", post, out + [x]);
      assert Shorten(out + [x]) == out;
    } else {
      Rest(pre, [x, ".."], post);
      WalkFirst(pre[0], pre[1..] + [x, ".."] + post, out);
      WalkFirst(pre[0], pre[1..] + post, out);
      UpCancels(pre[1..], x, post, Shorten(out));
      UpCancels(pre[1..], x, post, out);
      UpCancels(pre[1..], x, post, out + [pre[0]]);
    }
  }

  lemma Rest(pre: seq<string>, mid: seq<string>, post: seq<string>)
    requires pre != []
    ensures pre + mid + post == [pre[0]] + (pre[1..] + mid + post) && pre + post == [pre[0]] + (pre[1..] + post)
  {
  }

  /** A dot stands for nothing. */
  lemma {:induction false} DotVanishes(pre: seq<string>, post: seq<string>, out: seq<string>)
    requires post != []
    ensures Walk(pre + ["."] + post, out) == Walk(pre + post, out)
    decreases |pre|
  {
    if pre == [] {
      assert [] + ["."] + post == ["."] + post && [] + post == post;
      WalkFirst(".", post, out);
    } else {
      Rest(pre, ["."], post);
      WalkFirst(pre[0], pre[1..] + ["."] + post, out);
      WalkFirst(pre[0], pre[1..] + post, out);
      DotVanishes(pre[1..], post, Shorten(out));
      DotVanishes(pre[1..], post, out);
      DotVanishes(pre[1..], post, out + [pre[0]]);
    }
  }

  /** Above the root is the root. */
  lemma UpAtRoot(post: seq<string>)
    requires post != []
    ensures Walk([".."] + post, []) == Walk(post, [])
  {
    WalkFirst("..", post, []);
  }

  /** A dot segment at the end leaves an empty segment in its place. */
  lemma {:induction false} EndsInSlash(pre: seq<string>, x: string, out: seq<string>)
    requires Named(x)
    ensures Walk(pre + [x, ".."], out) == Walk(pre + [""], out) && Walk(pre + ["."], out) == Walk(pre + [""], out)
    ensures Walk([".."], []) == [""]
    decreases |pre|
  {
    if pre == [] {
      assert [] + [x, ".."] == [x] + [".."] && [] + ["."] == ["."] && [] + [""] == [""];
      WalkFirst(x, [".."], out);
      assert [""][1..] == [] && Shorten(out + [x]) == out;
    } else {
      Last(pre, [x, ".."]);
      Last(pre, ["."]);
      Last(pre, [""]);
      WalkFirst(pre[0], pre[1..] + [x, ".."], out);
      WalkFirst(pre[0], pre[1..] + ["."], out);
      WalkFirst(pre[0], pre[1..] + [""], out);
      EndsInSlash(pre[1..], x, Shorten(out));
      EndsInSlash(pre[1..], x, out);
      EndsInSlash(pre[1..], x, out + [pre[0]]);
    }
  }

  lemma Last(pre: seq<string>, end: seq<string>)
    requires pre != []
    ensures pre + end == [pre[0]] + (pre[1..] + end)
  {
  }

  /** Main result: paths without dot segments stay as they are, and these rules take every other
      path to one of them. */
  lemma DotSegments(pre: seq<string>, x: string, post: seq<string>)
    requires Named(x)
    ensures Dotless(pre) ==> Walk(pre, []) == pre
    ensures post != [] ==>
              && Walk(pre + [x, ".."] + post, []) == Walk(pre + post, [])
              && Walk(pre + ["."] + post, []) == Walk(pre + post, [])
              && Walk([".."] + post, []) == Walk(post, [])
    ensures Walk(pre + [x, ".."], []) == Walk(pre + [""], []) && Walk(pre + ["."], []) == Walk(pre + [""], [])
    ensures Walk([".."], []) == [""]
  {
    if Dotless(pre) {
      WalkKeepsDotless(pre, []);
      assert [] + pre == pre;
    }
    if post != [] {
      UpCancels(pre, x, post, []);
      DotVanishes(pre, post, []);
      UpAtRoot(post);
    }
    EndsInSlash(pre, x, []);
  }

  /** An input of the normaliser whose resolved form begins with two slashes. */
  lemma DotThenEmpty()
    ensures PlainPath("/.//x") && Resolve("/.//x") == "//x"
  {
    var rest := "/.//x"[1..];
    assert rest == "." + ['/'] + ("" + ['/'] + "x");
    SplitAt("", '/', "x");
    SplitAt(".", '/', "" + ['/'] + "x");
    SplitPlain("x", '/');
    var segments := [".", "", "x"];
    assert Split(rest, '/') == segments;
    assert segments[1..] == ["", "x"] && ["", "x"][1..] == ["x"] && ["x"][1..] == [];
    assert Walk(segments, []) == Walk(["", "x"], []) == Walk(["x"], [""]) == Walk([], ["", "x"]);
    assert Join(["", "x"], '/') == "" + ['/'] + Join(["x"], '/');
  }
}
