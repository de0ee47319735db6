/** The string operations the source uses: split and join on one character, trimming,
    whitespace folding, and case mapping of ASCII letters. */
module Strings {
  function Split(s: string, c: char): (r: seq<string>)
    ensures |r| >= 1
  {
    if s == "" then [""]
    else if s[0] == c then [""] + Split(s[1..], c)
    else
      var rest := Split(s[1..], c);
      [[s[0]] + rest[0]] + rest[1..]
  }

  function Join(parts: seq<string>, c: char): string {
    if parts == [] then ""
    else if |parts| == 1 then parts[0]
    else parts[0] + [c] + Join(parts[1..], c)
  }

  predicate StartsWith(s: string, prefix: string) { prefix <= s }

  lemma {:induction false} SplitPlain(s: string, c: char)
    requires c !in s
    ensures Split(s, c) == [s]
  {
    if s != "" {
      SplitPlain(s[1..], c);
      assert [s[0]] + s[1..] == s;
    }
  }

  lemma {:induction false} SplitAt(a: string, c: char, b: string)
    requires c !in a
    ensures Split(a + [c] + b, c) == [a] + Split(b, c)
  {
    var s := a + [c] + b;
    if a == "" {
      assert s == [c] + b && s[1..] == b;
    } else {
      assert s[1..] == a[1..] + [c] + b;
      SplitAt(a[1..], c, b);
      assert [a[0]] + a[1..] == a;
    }
  }

  lemma {:induction false} PiecesArePlain(s: string, c: char)
    ensures forall i :: 0 <= i < |Split(s, c)| ==> c !in Split(s, c)[i]
  {
    if s != "" { PiecesArePlain(s[1..], c); }
  }

  lemma {:induction false} JoinSplit(s: string, c: char)
    ensures Join(Split(s, c), c) == s
  {
    if s != "" {
      JoinSplit(s[1..], c);
      var rest := Split(s[1..], c);
      if s[0] == c {
        assert ([""] + rest)[1..] == rest;
        assert Join([""] + rest, c) == "" + [c] + s[1..];
      } else {
        var first := [s[0]] + rest[0];
        assert ([first] + rest[1..])[1..] == rest[1..];
        if |rest| > 1 { assert Join([first] + rest[1..], c) == first + [c] + Join(rest[1..], c); }
      }
    }
  }

  lemma {:induction false} SplitJoin(parts: seq<string>, c: char)
    requires parts != [] && forall i :: 0 <= i < |parts| ==> c !in parts[i]
    ensures Split(Join(parts, c), c) == parts
  {
    if |parts| == 1 {
      SplitPlain(parts[0], c);
    } else {
      SplitJoin(parts[1..], c);
      SplitAt(parts[0], c, Join(parts[1..], c));
    }
  }

  // ---------- Characters ----------

  /** The whitespace of `trim` and of `\\s`. */
  predicate IsSpace(c: char) {
    || c in " \t\n\r" || c == '\U{000b}' || c == '\U{000c}' || c == '\U{00a0}' || c == '\U{1680}'
    || '\U{2000}' <= c <= '\U{200a}' || c == '\U{2028}' || c == '\U{2029}' || c == '\U{202f}'
    || c == '\U{205f}' || c == '\U{3000}' || c == '\U{feff}'
  }

  function LowerChar(c: char): char { if 'A' <= c <= 'Z' then c + ' ' else c }

  function UpperChar(c: char): char { if 'a' <= c <= 'z' then c - ' ' else c }

  function ToLower(s: string): (r: string)
    ensures |r| == |s| && forall i :: 0 <= i < |s| ==> r[i] == LowerChar(s[i])
  {
    seq(|s|, i requires 0 <= i < |s| => LowerChar(s[i]))
  }

  function ToUpper(s: string): (r: string)
    ensures |r| == |s| && forall i :: 0 <= i < |s| ==> r[i] == UpperChar(s[i])
  {
    seq(|s|, i requires 0 <= i < |s| => UpperChar(s[i]))
  }

  lemma LowerTwice(s: string)
    ensures ToLower(ToLower(s)) == ToLower(s)
  {
  }

  lemma UpperTwice(s: string)
    ensures ToUpper(ToUpper(s)) == ToUpper(s)
    ensures ToUpper(ToLower(s)) == ToUpper(s)
  {
    forall i | 0 <= i < |s| ensures ToUpper(ToLower(s))[i] == ToUpper(s)[i] {
      assert ToLower(s)[i] == LowerChar(s[i]);
    }
  }

  function TrimStart(s: string): string {
    if s != "" && IsSpace(s[0]) then TrimStart(s[1..]) else s
  }

  function TrimEnd(s: string): string {
    if s != "" && IsSpace(s[|s| - 1]) then TrimEnd(s[..|s| - 1]) else s
  }

  function Trim(s: string): string { TrimEnd(TrimStart(s)) }

  predicate Trimmed(s: string) { s == "" || (!IsSpace(s[0]) && !IsSpace(s[|s| - 1])) }

  lemma {:induction false} TrimStartStarts(s: string)
    ensures TrimStart(s) == "" || !IsSpace(TrimStart(s)[0])
    ensures exists n :: 0 <= n <= |s| && TrimStart(s) == s[n..]
  {
    if s != "" && IsSpace(s[0]) {
      TrimStartStarts(s[1..]);
      var n :| 0 <= n <= |s[1..]| && TrimStart(s[1..]) == s[1..][n..];
      assert TrimStart(s) == s[n + 1..];
    } else {
      assert s == s[0..];
    }
  }

  lemma {:induction false} TrimEndEnds(s: string)
    ensures TrimEnd(s) == "" || !IsSpace(TrimEnd(s)[|TrimEnd(s)| - 1])
    ensures TrimEnd(s) <= s
  {
    if s != "" && IsSpace(s[|s| - 1]) { TrimEndEnds(s[..|s| - 1]); }
  }

  lemma TrimIsTrimmed(s: string)
    ensures Trimmed(Trim(s))
  {
    TrimStartStarts(s);
    TrimEndEnds(TrimStart(s));
  }

  lemma TrimOfTrimmed(s: string)
    requires Trimmed(s)
    ensures Trim(s) == s
  {
  }

  // ---------- Words ----------

  /** Every run of whitespace becomes one space. */
  function Fold(s: string): string
    decreases |s|
  {
    if s == "" then ""
    else if IsSpace(s[0]) then
      TrimStartShorter(s[1..]);
      " " + Fold(TrimStart(s[1..]))
    else [s[0]] + Fold(s[1..])
  }

  lemma {:induction false} TrimStartShorter(s: string)
    ensures |TrimStart(s)| <= |s|
  {
    if s != "" && IsSpace(s[0]) { TrimStartShorter(s[1..]); }
  }

  function FirstWord(s: string): (r: string)
    ensures |r| <= |s|
    ensures s != "" && !IsSpace(s[0]) ==> r != ""
  {
    if s == "" || IsSpace(s[0]) then "" else [s[0]] + FirstWord(s[1..])
  }

  /** The maximal pieces of `s` without whitespace, in order. */
  function Words(s: string): seq<string>
    decreases |s|
  {
    if s == "" then []
    else if IsSpace(s[0]) then Words(s[1..])
    else [FirstWord(s)] + Words(s[|FirstWord(s)|..])
  }

  lemma {:induction false} WordsOfTrimStart(s: string)
    ensures Words(TrimStart(s)) == Words(s)
  {
    if s != "" && IsSpace(s[0]) { WordsOfTrimStart(s[1..]); }
  }

  lemma {:induction false} FirstWordPrefix(s: string, more: string)
    requires more == "" || IsSpace(more[0])
    ensures FirstWord(s + more) == FirstWord(s)
    ensures |FirstWord(s)| <= |s| && FirstWord(s) == s[..|FirstWord(s)|]
  {
    if s == "" {
      assert s + more == more;
    } else if !IsSpace(s[0]) {
      assert (s + more)[1..] == s[1..] + more;
      FirstWordPrefix(s[1..], more);
    }
  }

  lemma {:induction false} WordsOfTrimEnd(s: string)
    ensures Words(TrimEnd(s)) == Words(s)
    decreases |s|
  {
    if s != "" && IsSpace(s[|s| - 1]) {
      WordsOfTrimEnd(s[..|s| - 1]);
      SpaceAfter(s[..|s| - 1], s[|s| - 1]);
      assert s == s[..|s| - 1] + [s[|s| - 1]];
    }
  }

  lemma {:induction false} SpaceAfter(s: string, c: char)
    requires IsSpace(c)
    ensures Words(s + [c]) == Words(s)
    decreases |s|
  {
    if s == "" {
      assert s + [c] == [c] && [c][1..] == "";
    } else if IsSpace(s[0]) {
      assert (s + [c])[1..] == s[1..] + [c];
      SpaceAfter(s[1..], c);
    } else {
      FirstWordPrefix(s, [c]);
      var n := |FirstWord(s)|;
      assert (s + [c])[n..] == s[n..] + [c];
      SpaceAfter(s[n..], c);
    }
  }

  /** Folding keeps a word and goes on after it. */
  lemma {:induction false} FoldWord(s: string)
    ensures var n := |FirstWord(s)|; n <= |s| && Fold(s) == FirstWord(s) + Fold(s[n..])
  {
    if s == "" || IsSpace(s[0]) {
      assert s[0..] == s;
    } else {
      var c, rest := s[0], s[1..];
      FoldWord(rest);
      var n := |FirstWord(rest)|;
      assert FirstWord(s) == [c] + FirstWord(rest);
      assert rest[n..] == s[n + 1..];
      FrontConcat(c, FirstWord(rest), Fold(rest[n..]));
      assert Fold(s) == [c] + Fold(rest);
    }
  }

  lemma FrontConcat(c: char, a: string, b: string)
    ensures [c] + (a + b) == ([c] + a) + b
  {
  }

  lemma {:induction false} AfterFirstWord(s: string)
    ensures var n := |FirstWord(s)|; n == |s| || IsSpace(s[n])
  {
    if s != "" && !IsSpace(s[0]) { AfterFirstWord(s[1..]); }
  }

  /** On trimmed text, folding separates the words by single spaces. */
  lemma {:induction false} FoldJoinsWords(s: string)
    requires Trimmed(s)
    ensures Fold(s) == Join(Words(s), ' ')
    decreases |s|
  {
    if s != "" {
      var n := |FirstWord(s)|;
      FoldWord(s);
      AfterFirstWord(s);
      if n < |s| {
        var after := s[n..][1..];
        TrimStartShorter(after);
        TrimStartStarts(after);
        LastStays(after);
        FoldJoinsWords(TrimStart(after));
        AfterSpace(s, n);
        JoinFront(FirstWord(s), Words(TrimStart(after)));
      } else {
        assert s[n..] == "";
      }
    }
  }

  /** A word, whitespace, and what comes next. */
  lemma AfterSpace(s: string, n: nat)
    requires s != "" && !IsSpace(s[0]) && n == |FirstWord(s)| < |s| && IsSpace(s[n])
    ensures var next := TrimStart(s[n..][1..]);
            Words(s) == [FirstWord(s)] + Words(next) && Fold(s) == FirstWord(s) + ([' '] + Fold(next))
  {
    FoldWord(s);
    WordsOfTrimStart(s[n..][1..]);
    assert s[n..][0] == s[n];
    assert Words(s[n..]) == Words(s[n..][1..]);
    assert Fold(s[n..]) == [' '] + Fold(TrimStart(s[n..][1..]));
  }

  lemma JoinFront(first: string, rest: seq<string>)
    ensures Join([first] + rest, ' ') == if rest == [] then first else first + ([' '] + Join(rest, ' '))
  {
    assert ([first] + rest)[1..] == rest;
    if rest != [] { assert first + [' '] + Join(rest, ' ') == first + ([' '] + Join(rest, ' ')); }
  }

  lemma {:induction false} LastStays(s: string)
    requires s != "" && !IsSpace(s[|s| - 1])
    ensures TrimStart(s) != "" && TrimStart(s)[|TrimStart(s)| - 1] == s[|s| - 1]
  {
    if IsSpace(s[0]) { LastStays(s[1..]); }
  }

  lemma {:induction false} FirstWordIsPlain(s: string)
    ensures forall c :: c in FirstWord(s) ==> !IsSpace(c)
  {
    if s != "" && !IsSpace(s[0]) { FirstWordIsPlain(s[1..]); }
  }

  lemma {:induction false} WordsArePlain(s: string)
    ensures forall i :: 0 <= i < |Words(s)| ==> ' ' !in Words(s)[i]
    decreases |s|
  {
    if s != "" {
      if IsSpace(s[0]) {
        WordsArePlain(s[1..]);
      } else {
        FirstWordIsPlain(s);
        WordsArePlain(s[|FirstWord(s)|..]);
      }
    }
  }

  /** Trim and fold: the canonical text of a header value. */
  function Normal(s: string): string { Fold(Trim(s)) }

  lemma NormalJoinsWords(s: string)
    ensures Normal(s) == Join(Words(s), ' ')
  {
    TrimIsTrimmed(s);
    FoldJoinsWords(Trim(s));
    WordsOfTrimStart(s);
    WordsOfTrimEnd(TrimStart(s));
  }

  /** Two values have the same canonical text exactly when they have the same words. */
  lemma NormalIffSameWords(a: string, b: string)
    ensures Normal(a) == Normal(b) <==> Words(a) == Words(b)
  {
    NormalJoinsWords(a);
    NormalJoinsWords(b);
    WordsArePlain(a);
    WordsArePlain(b);
    if Words(a) != [] { SplitJoin(Words(a), ' '); NonEmptyJoin(a); }
    if Words(b) != [] { SplitJoin(Words(b), ' '); NonEmptyJoin(b); }
  }

  lemma {:induction false} NonEmptyJoin(s: string)
    requires Words(s) != []
    ensures Join(Words(s), ' ') != ""
    decreases |s|
  {
    if IsSpace(s[0]) { NonEmptyJoin(s[1..]); }
  }

  lemma {:induction false} WordsOfJoin(s: string)
    ensures Words(Join(Words(s), ' ')) == Words(s)
    decreases |s|
  {
    if s != "" {
      if IsSpace(s[0]) {
        WordsOfJoin(s[1..]);
      } else {
        var w, rest := FirstWord(s), Words(s[|FirstWord(s)|..]);
        FirstWordIsPlain(s);
        FirstWordOfPlain(w);
        if rest == [] {
          assert w[|w|..] == "";
        } else {
          WordsOfJoin(s[|w|..]);
          var tail := [' '] + Join(rest, ' ');
          FirstWordPrefix(w, tail);
          assert w + tail == Join(Words(s), ' ');
          assert (w + tail)[|w|..] == tail && tail[1..] == Join(rest, ' ');
        }
      }
    }
  }

  lemma {:induction false} FirstWordOfPlain(w: string)
    requires forall c :: c in w ==> !IsSpace(c)
    ensures FirstWord(w) == w
  {
    if w != "" { FirstWordOfPlain(w[1..]); }
  }

  lemma NormalTwice(s: string)
    ensures Normal(Normal(s)) == Normal(s)
  {
    NormalJoinsWords(s);
    NormalJoinsWords(Normal(s));
    WordsOfJoin(s);
  }
}
