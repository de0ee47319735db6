/** Canonical JSON: objects with their keys in order, at every depth. Two implementations
    in the source, one normal form. */
module CanonicalJson {
  import opened Wrappers
  import opened Sorting
  import JsMaps

  datatype Entry = Entry(key: string, value: Json)

  /** A finite number: a whole part, and how many units of 2^-1074 lie above it. Every double
      is one. */
  datatype Number = Number(whole: int, part: nat)

  function Whole(n: int): Number { Number(n, 0) }

  /** `n > bound` and `n < bound` for a whole bound. */
  predicate Above(n: Number, bound: int) { n.whole > bound || (n.whole == bound && n.part > 0) }

  predicate Below(n: Number, bound: int) { n.whole < bound }

  /** A parsed JSON value; object entries keep their order. */
  datatype Json =
    | Null
    | Bool(b: bool)
    | Num(n: Number)
    | Str(s: string)
    | Arr(items: seq<Json>)
    | Obj(entries: seq<Entry>)

  predicate HasKey(es: seq<Entry>, k: string) {
    es != [] && (es[0].key == k || HasKey(es[1..], k))
  }

  function Lookup(es: seq<Entry>, k: string): Json
    requires HasKey(es, k)
  {
    if es[0].key == k then es[0].value else Lookup(es[1..], k)
  }

  predicate DistinctKeys(es: seq<Entry>) {
    es == [] || (!HasKey(es[1..], es[0].key) && DistinctKeys(es[1..]))
  }

  /** What JavaScript objects are: no key twice, at any depth. */
  ghost predicate WellFormed(v: Json) {
    match v
    case Arr(items) => forall i :: 0 <= i < |items| ==> WellFormed(items[i])
    case Obj(es) => DistinctKeys(es) && forall i :: 0 <= i < |es| ==> WellFormed(es[i].value)
    case _ => true
  }

  predicate KeyLe(a: Entry, b: Entry) { Le(a.key, b.key) }

  function SortEntries(es: seq<Entry>): seq<Entry> { Sort(es, KeyLe) }

  // ---------- deepSort ----------

  function DeepSort(v: Json): Json
    decreases v, 1
  {
    match v
    case Arr(items) => Arr(DeepSortItems(items))
    case Obj(es) => Obj(SortEntries(DeepSortEntries(es)))
    case _ => v
  }

  function DeepSortItems(items: seq<Json>): (r: seq<Json>)
    ensures |r| == |items| && forall i :: 0 <= i < |items| ==> r[i] == DeepSort(items[i])
    decreases items, 0
  {
    if items == [] then [] else [DeepSort(items[0])] + DeepSortItems(items[1..])
  }

  function DeepSortEntries(es: seq<Entry>): (r: seq<Entry>)
    ensures |r| == |es|
    ensures forall i :: 0 <= i < |es| ==> r[i] == Entry(es[i].key, DeepSort(es[i].value))
    decreases es, 0
  {
    if es == [] then [] else [Entry(es[0].key, DeepSort(es[0].value))] + DeepSortEntries(es[1..])
  }

  /** `v` and `w` differ only by the order of object keys, at some depths. */
  ghost predicate Same(v: Json, w: Json)
    decreases v
  {
    match v
    case Arr(items) =>
      w.Arr? && |w.items| == |items| && forall i :: 0 <= i < |items| ==> Same(items[i], w.items[i])
    case Obj(es) =>
      w.Obj? && |w.entries| == |es| &&
      forall i :: 0 <= i < |es| ==> HasKey(w.entries, es[i].key) && Same(es[i].value, Lookup(w.entries, es[i].key))
    case _ => v == w
  }

  // ---------- Entries ----------

  lemma {:induction false} LookupIsEntry(es: seq<Entry>, k: string)
    requires HasKey(es, k)
    ensures Entry(k, Lookup(es, k)) in es
  {
    if es[0].key != k { LookupIsEntry(es[1..], k); }
  }

  lemma {:induction false} EntryIsLookup(es: seq<Entry>, e: Entry)
    requires DistinctKeys(es) && e in es
    ensures HasKey(es, e.key) && Lookup(es, e.key) == e.value
  {
    if e != es[0] {
      EntryIsLookup(es[1..], e);
    }
  }

  lemma {:induction false} MemberHasKey(es: seq<Entry>, e: Entry)
    requires e in es
    ensures HasKey(es, e.key)
  {
    if e != es[0] { MemberHasKey(es[1..], e); }
  }

  lemma {:induction false} DistinctMeansUnequal(es: seq<Entry>)
    requires DistinctKeys(es)
    ensures forall i, j :: 0 <= i < j < |es| ==> es[i].key != es[j].key
  {
    if es != [] {
      DistinctMeansUnequal(es[1..]);
      forall j | 0 < j < |es| ensures es[0].key != es[j].key {
        MemberHasKey(es[1..], es[1..][j - 1]);
      }
    }
  }

  lemma {:induction false} UnequalMeansDistinct(es: seq<Entry>)
    requires forall i, j :: 0 <= i < j < |es| ==> es[i].key != es[j].key
    ensures DistinctKeys(es)
  {
    if es != [] {
      UnequalMeansDistinct(es[1..]);
      if HasKey(es[1..], es[0].key) { LookupIsEntry(es[1..], es[0].key); }
    }
  }

  lemma KeyLeIsOrder()
    ensures IsOrder(KeyLe)
  {
    LeIsOrder();
  }

  /** Entries of one object are ordered strictly: equal keys mean the same entry. */
  lemma KeyDeterminesEntry(es: seq<Entry>, x: Entry, y: Entry)
    requires DistinctKeys(es) && x in es && y in es && KeyLe(x, y) && KeyLe(y, x)
    ensures x == y
  {
    LeAntisymmetric(x.key, y.key);
    EntryIsLookup(es, x);
    EntryIsLookup(es, y);
  }

  lemma {:induction false} CountDistinct(es: seq<Entry>, x: Entry)
    requires DistinctKeys(es)
    ensures multiset(es)[x] == if x in es then 1 else 0
  {
    if es != [] {
      CountDistinct(es[1..], x);
      assert es == [es[0]] + es[1..];
      if x == es[0] && x in es[1..] { MemberHasKey(es[1..], x); }
    }
  }

  lemma SameMembersSameMultiset(a: seq<Entry>, b: seq<Entry>)
    requires DistinctKeys(a) && DistinctKeys(b)
    requires forall e :: e in a <==> e in b
    ensures multiset(a) == multiset(b)
  {
    forall x ensures multiset(a)[x] == multiset(b)[x] {
      CountDistinct(a, x);
      CountDistinct(b, x);
    }
  }

  lemma MultisetKeepsDistinct(a: seq<Entry>, b: seq<Entry>)
    requires DistinctKeys(a) && multiset(a) == multiset(b)
    ensures DistinctKeys(b)
  {
    forall i, j | 0 <= i < j < |b| ensures b[i].key != b[j].key {
      if b[i].key == b[j].key {
        assert b[i] in multiset(a) && b[j] in multiset(a);
        EntryIsLookup(a, b[i]);
        EntryIsLookup(a, b[j]);
        CountDistinct(a, b[i]);
        TwiceCounts(b, i, j);
      }
    }
    UnequalMeansDistinct(b);
  }

  lemma TwiceCounts(s: seq<Entry>, i: nat, j: nat)
    requires i < j < |s| && s[i] == s[j]
    ensures multiset(s)[s[i]] >= 2
  {
    assert s == s[..j] + [s[j]] + s[j + 1..];
    assert s[i] in s[..j];
  }

  /** Sorting entries: the same entries, keys still distinct. */
  lemma SortedEntries(es: seq<Entry>)
    requires DistinctKeys(es)
    ensures var r := SortEntries(es);
            DistinctKeys(r) && Sorted(r, KeyLe) && |r| == |es| && forall e :: e in r <==> e in es
  {
    KeyLeIsOrder();
    SortSorts(es, KeyLe);
    SortPermutes(es, KeyLe);
    SortMembers(es, KeyLe);
    MultisetKeepsDistinct(es, SortEntries(es));
  }

  lemma SameEntriesSortSame(a: seq<Entry>, b: seq<Entry>)
    requires DistinctKeys(a) && DistinctKeys(b) && forall e :: e in a <==> e in b
    ensures SortEntries(a) == SortEntries(b)
  {
    KeyLeIsOrder();
    SameMembersSameMultiset(a, b);
    forall x, y | x in a && y in a && KeyLe(x, y) && KeyLe(y, x) ensures x == y { KeyDeterminesEntry(a, x, y); }
    SortIgnoresOrder(a, b, KeyLe);
  }

  lemma DeepSortKeepsKeys(es: seq<Entry>)
    requires DistinctKeys(es)
    ensures DistinctKeys(DeepSortEntries(es))
  {
    DistinctMeansUnequal(es);
    UnequalMeansDistinct(DeepSortEntries(es));
  }

  /** Looking a key up in the sorted object gives the sorted value. */
  lemma SortedLookup(es: seq<Entry>, k: string)
    requires DistinctKeys(es)
    ensures var r := SortEntries(DeepSortEntries(es));
            && DistinctKeys(r)
            && (HasKey(r, k) <==> HasKey(es, k))
            && (HasKey(es, k) ==> Lookup(r, k) == DeepSort(Lookup(es, k)))
  {
    var mapped := DeepSortEntries(es);
    var r := SortEntries(mapped);
    DeepSortKeepsKeys(es);
    SortedEntries(mapped);
    if HasKey(es, k) {
      LookupIsEntry(es, k);
      var i :| 0 <= i < |es| && es[i] == Entry(k, Lookup(es, k));
      assert mapped[i] == Entry(k, DeepSort(Lookup(es, k)));
      assert mapped[i] in r;
      EntryIsLookup(r, mapped[i]);
    }
    if HasKey(r, k) {
      LookupIsEntry(r, k);
      var i :| 0 <= i < |mapped| && mapped[i] == Entry(k, Lookup(r, k));
      assert es[i] in es;
      MemberHasKey(es, es[i]);
    }
  }

  // ---------- The normal form ----------

  lemma {:induction false} DeepSortWellFormed(v: Json)
    requires WellFormed(v)
    ensures WellFormed(DeepSort(v))
    decreases v
  {
    match v
    case Arr(items) =>
      forall i | 0 <= i < |items| ensures WellFormed(DeepSort(items[i])) { DeepSortWellFormed(items[i]); }
    case Obj(es) =>
      var mapped := DeepSortEntries(es);
      DeepSortKeepsKeys(es);
      SortedEntries(mapped);
      forall i | 0 <= i < |es| ensures WellFormed(mapped[i].value) { DeepSortWellFormed(es[i].value); }
      forall i | 0 <= i < |SortEntries(mapped)| ensures WellFormed(SortEntries(mapped)[i].value) {
        assert SortEntries(mapped)[i] in mapped;
      }
    case _ =>
  }

  /** Values that differ only in key order have the same canonical form ... */
  lemma {:induction false} SameSortsEqual(v: Json, w: Json)
    requires WellFormed(v) && WellFormed(w) && Same(v, w)
    ensures DeepSort(v) == DeepSort(w)
    decreases v
  {
    match v
    case Arr(items) =>
      forall i | 0 <= i < |items| ensures DeepSort(items[i]) == DeepSort(w.items[i]) {
        SameSortsEqual(items[i], w.items[i]);
      }
      assert DeepSortItems(items) == DeepSortItems(w.items);
    case Obj(es) =>
      var a, b := DeepSortEntries(es), DeepSortEntries(w.entries);
      DeepSortKeepsKeys(es);
      DeepSortKeepsKeys(w.entries);
      forall i | 0 <= i < |es| ensures a[i] in b {
        var k := es[i].key;
        LookupIsEntry(w.entries, k);
        var j :| 0 <= j < |w.entries| && w.entries[j] == Entry(k, Lookup(w.entries, k));
        assert w.entries[j] in w.entries;
        SameSortsEqual(es[i].value, w.entries[j].value);
        assert b[j] == a[i];
      }
      SubsetOfSameSize(a, b);
      SameEntriesSortSame(a, b);
    case _ =>
  }

  lemma SubsetOfSameSize(a: seq<Entry>, b: seq<Entry>)
    requires DistinctKeys(a) && DistinctKeys(b) && |a| == |b|
    requires forall i :: 0 <= i < |a| ==> a[i] in b
    ensures forall e :: e in a <==> e in b
  {
    forall x ensures multiset(a)[x] <= multiset(b)[x] {
      CountDistinct(a, x);
      CountDistinct(b, x);
    }
    assert multiset(a) <= multiset(b);
    assert |multiset(b) - multiset(a)| == 0;
    assert multiset(a) == multiset(b);
    forall e ensures e in a <==> e in b { assert e in multiset(a) <==> e in multiset(b); }
  }

  /** ... and only those. */
  lemma {:induction false} EqualSortsSame(v: Json, w: Json)
    requires WellFormed(v) && WellFormed(w) && DeepSort(v) == DeepSort(w)
    ensures Same(v, w)
    decreases v
  {
    match v
    case Arr(items) =>
      forall i | 0 <= i < |items| ensures Same(items[i], w.items[i]) {
        assert DeepSortItems(items)[i] == DeepSortItems(w.items)[i];
        EqualSortsSame(items[i], w.items[i]);
      }
    case Obj(es) =>
      DeepSortKeepsKeys(es);
      DeepSortKeepsKeys(w.entries);
      SortedEntries(DeepSortEntries(es));
      SortedEntries(DeepSortEntries(w.entries));
      forall i | 0 <= i < |es|
        ensures HasKey(w.entries, es[i].key) && Same(es[i].value, Lookup(w.entries, es[i].key))
      {
        var k := es[i].key;
        EntryIsLookup(es, es[i]);
        SortedLookup(es, k);
        SortedLookup(w.entries, k);
        LookupIsEntry(w.entries, k);
        EqualSortsSame(es[i].value, Lookup(w.entries, k));
      }
    case _ =>
  }

  /** Main result: a true normal form. */
  lemma DeepSortIffSame(v: Json, w: Json)
    requires WellFormed(v) && WellFormed(w)
    ensures DeepSort(v) == DeepSort(w) <==> Same(v, w)
  {
    if Same(v, w) { SameSortsEqual(v, w); }
    if DeepSort(v) == DeepSort(w) { EqualSortsSame(v, w); }
  }

  lemma {:induction false} DeepSortTwice(v: Json)
    requires WellFormed(v)
    ensures DeepSort(DeepSort(v)) == DeepSort(v)
    decreases v
  {
    match v
    case Arr(items) =>
      forall i | 0 <= i < |items| ensures DeepSort(DeepSort(items[i])) == DeepSort(items[i]) {
        DeepSortTwice(items[i]);
      }
      assert DeepSortItems(DeepSortItems(items)) == DeepSortItems(items);
    case Obj(es) =>
      var mapped := DeepSortEntries(es);
      var r := SortEntries(mapped);
      DeepSortKeepsKeys(es);
      SortedEntries(mapped);
      forall i | 0 <= i < |r| ensures DeepSort(r[i].value) == r[i].value {
        assert r[i] in mapped;
        var j :| 0 <= j < |mapped| && mapped[j] == r[i];
        DeepSortTwice(es[j].value);
      }
      assert DeepSortEntries(r) == r;
      SortOfSorted(r, KeyLe);
    case _ =>
  }

  // ---------- Objects, property by property ----------

  /** A property of the input object; `None` is `undefined`. */
  function FieldOf(es: seq<Entry>, k: string): Option<Json> {
    if HasKey(es, k) then Some(Lookup(es, k)) else None
  }

  lemma SameSortedKey(a: seq<Entry>, b: seq<Entry>, k: string)
    requires DistinctKeys(a) && DistinctKeys(b) && DeepSort(Obj(a)) == DeepSort(Obj(b))
    ensures FieldOf(a, k).Some? <==> FieldOf(b, k).Some?
    ensures FieldOf(a, k).Some? ==> DeepSort(FieldOf(a, k).value) == DeepSort(FieldOf(b, k).value)
  {
    SortedLookup(a, k);
    SortedLookup(b, k);
  }

  /** An object literal: undefined values are left out. */
  function Build(keys: seq<string>, values: seq<Option<Json>>): seq<Entry>
    requires |keys| == |values|
  {
    if keys == [] then []
    else
      var rest := Build(keys[1..], values[1..]);
      if values[0].None? then rest else [Entry(keys[0], values[0].value)] + rest
  }

  lemma {:induction false} BuiltKeys(keys: seq<string>, values: seq<Option<Json>>, x: string)
    requires |keys| == |values| && HasKey(Build(keys, values), x)
    ensures x in keys
  {
    var rest := Build(keys[1..], values[1..]);
    if values[0].None? {
      BuiltKeys(keys[1..], values[1..], x);
    } else {
      assert Build(keys, values)[1..] == rest;
      if keys[0] != x { BuiltKeys(keys[1..], values[1..], x); }
    }
  }

  lemma {:induction false} BuiltFields(keys: seq<string>, values: seq<Option<Json>>)
    requires |keys| == |values| && JsMaps.NoDup(keys)
    ensures forall i :: 0 <= i < |keys| ==> FieldOf(Build(keys, values), keys[i]) == values[i]
    ensures DistinctKeys(Build(keys, values))
  {
    if keys != [] {
      var rest := Build(keys[1..], values[1..]);
      BuiltFields(keys[1..], values[1..]);
      if HasKey(rest, keys[0]) { BuiltKeys(keys[1..], values[1..], keys[0]); }
      if values[0].Some? { assert Build(keys, values)[1..] == rest; }
      forall i | 0 <= i < |keys| ensures FieldOf(Build(keys, values), keys[i]) == values[i] {
        if i > 0 { assert keys[i] == keys[1..][i - 1] && values[i] == values[1..][i - 1]; }
      }
    }
  }

  // ---------- Paths ----------

  datatype Hop = Key(k: string) | Index(i: nat)

  function At(v: Json, path: seq<Hop>): Option<Json>
    decreases |path|
  {
    if path == [] then Some(v)
    else match path[0]
      case Key(k) => if v.Obj? && HasKey(v.entries, k) then At(Lookup(v.entries, k), path[1..]) else None
      case Index(i) => if v.Arr? && i < |v.items| then At(v.items[i], path[1..]) else None
  }

  /** Every path leads to the canonical form of what it led to. */
  lemma {:induction false} PathsArePreserved(v: Json, path: seq<Hop>)
    requires WellFormed(v)
    ensures At(DeepSort(v), path) == match At(v, path) case None => None case Some(x) => Some(DeepSort(x))
    decreases |path|
  {
    if path != [] {
      match path[0]
      case Key(k) =>
        if v.Obj? {
          SortedLookup(v.entries, k);
          if HasKey(v.entries, k) {
            LookupIsEntry(v.entries, k);
            var at :| 0 <= at < |v.entries| && v.entries[at] == Entry(k, Lookup(v.entries, k));
            assert WellFormed(v.entries[at].value);
            PathsArePreserved(Lookup(v.entries, k), path[1..]);
          }
        }
      case Index(i) =>
        if v.Arr? && i < |v.items| { PathsArePreserved(v.items[i], path[1..]); }
    }
  }

  // ---------- sortValue ----------

  function KeysOf(es: seq<Entry>): (r: seq<string>)
    ensures |r| == |es| && forall i :: 0 <= i < |es| ==> r[i] == es[i].key
  {
    if es == [] then [] else [es[0].key] + KeysOf(es[1..])
  }

  /** The other implementation: sort the keys, then fill an output object key by key. */
  method SortValue(v: Json) returns (r: Json)
    requires WellFormed(v)
    ensures r == DeepSort(v)
    decreases v, 1
  {
    match v
    case Arr(items) =>
      var out := SortItems(items);
      assert out == DeepSortItems(items);
      r := Arr(out);
    case Obj(es) =>
      var out := SortObject(es);
      r := Obj(out);
    case _ => r := v;
  }

  method SortItems(items: seq<Json>) returns (out: seq<Json>)
    requires forall i :: 0 <= i < |items| ==> WellFormed(items[i])
    ensures |out| == |items| && forall j :: 0 <= j < |items| ==> out[j] == DeepSort(items[j])
    decreases items, 0
  {
    out := [];
    var i := 0;
    while i < |items|
      invariant 0 <= i <= |items| && |out| == i
      invariant forall j :: 0 <= j < i ==> out[j] == DeepSort(items[j])
    {
      var item := SortValue(items[i]);
      out := out + [item];
      i := i + 1;
    }
  }

  method SortObject(es: seq<Entry>) returns (out: seq<Entry>)
    requires DistinctKeys(es) && forall i :: 0 <= i < |es| ==> WellFormed(es[i].value)
    ensures out == SortEntries(DeepSortEntries(es))
    decreases es, 0
  {
    var keys := Sort(KeysOf(es), Le);
    assert |keys| == |es| && AllKeys(keys, es) by { SortedKeys(es); }
    out := [];
    var i := 0;
    while i < |keys|
      invariant 0 <= i <= |keys| && |out| == i
      invariant forall j :: 0 <= j < i ==> out[j] == Entry(keys[j], DeepSort(Lookup(es, keys[j])))
    {
      ghost var at := IndexOf(es, keys[i]);
      var input := Lookup(es, keys[i]);
      assert input == es[at].value;
      var value := SortValue(input);
      out := out + [Entry(keys[i], value)];
      i := i + 1;
    }
    FilledIsSorted(es, keys, out);
  }

  ghost predicate AllKeys(keys: seq<string>, es: seq<Entry>) {
    forall j :: 0 <= j < |keys| ==> HasKey(es, keys[j])
  }

  lemma IndexOf(es: seq<Entry>, k: string) returns (at: nat)
    requires HasKey(es, k)
    ensures at < |es| && es[at].value == Lookup(es, k)
  {
    LookupIsEntry(es, k);
    at :| at < |es| && es[at] == Entry(k, Lookup(es, k));
  }

  lemma KeysAreKeys(es: seq<Entry>, k: string)
    ensures k in KeysOf(es) <==> HasKey(es, k)
  {
    if k in KeysOf(es) {
      var i :| 0 <= i < |es| && es[i].key == k;
      MemberHasKey(es, es[i]);
    }
    if HasKey(es, k) {
      LookupIsEntry(es, k);
      var i :| 0 <= i < |es| && es[i] == Entry(k, Lookup(es, k));
      assert KeysOf(es)[i] == k;
    }
  }

  lemma SortedKeys(es: seq<Entry>)
    requires DistinctKeys(es)
    ensures var keys := Sort(KeysOf(es), Le);
            && |keys| == |es| && Sorted(keys, Le)
            && AllKeys(keys, es)
            && keys == KeysOf(SortEntries(es))
  {
    var keys := Sort(KeysOf(es), Le);
    LeIsOrder();
    SortSorts(KeysOf(es), Le);
    SortMembers(KeysOf(es), Le);
    forall j | 0 <= j < |keys| ensures HasKey(es, keys[j]) {
      assert keys[j] in KeysOf(es);
      KeysAreKeys(es, keys[j]);
    }
    SortByKey(es);
  }

  /** Sorting the entries by key sorts the keys. */
  lemma {:induction false} SortByKey(es: seq<Entry>)
    ensures Sort(KeysOf(es), Le) == KeysOf(SortEntries(es))
  {
    if es != [] {
      SortByKey(es[1..]);
      InsertByKey(es[0], SortEntries(es[1..]));
      assert KeysOf(es)[1..] == KeysOf(es[1..]);
    }
  }

  lemma {:induction false} InsertByKey(e: Entry, es: seq<Entry>)
    ensures Insert(e.key, KeysOf(es), Le) == KeysOf(Insert(e, es, KeyLe))
  {
    if es != [] {
      assert KeysOf(es)[1..] == KeysOf(es[1..]);
      if !KeyLe(e, es[0]) {
        InsertByKey(e, es[1..]);
      } else {
        assert KeysOf([e] + es) == [e.key] + KeysOf(es);
      }
    }
  }

  /** The filled output is the sorted object. */
  lemma FilledIsSorted(es: seq<Entry>, keys: seq<string>, out: seq<Entry>)
    requires DistinctKeys(es) && keys == Sort(KeysOf(es), Le) && |out| == |keys|
    requires AllKeys(keys, es)
    requires forall j :: 0 <= j < |keys| ==> out[j] == Entry(keys[j], DeepSort(Lookup(es, keys[j])))
    ensures out == SortEntries(DeepSortEntries(es))
  {
    var mapped := DeepSortEntries(es);
    var r := SortEntries(mapped);
    assert KeysOf(mapped) == KeysOf(es);
    DeepSortKeepsKeys(es);
    SortedKeys(mapped);
    SortedEntries(mapped);
    forall j | 0 <= j < |r| ensures r[j] == out[j] {
      assert r[j] in r && r[j].key == KeysOf(r)[j] == keys[j];
      EntryIsLookup(r, r[j]);
      SortedLookup(es, keys[j]);
    }
  }
}
