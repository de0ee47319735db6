/** The JavaScript `Map`: a lookup table that also remembers insertion order.
    Setting a key that is present keeps its place; iteration is oldest first. */
module JsMaps {
  ghost predicate NoDup<K(!new)>(s: seq<K>) {
    s == [] || (s[0] !in s[1..] && NoDup(s[1..]))
  }

  lemma {:induction false} NoDupIff<K(!new)>(s: seq<K>)
    ensures NoDup(s) <==> forall i, j :: 0 <= i < j < |s| ==> s[i] != s[j]
  {
    if s != [] {
      NoDupIff(s[1..]);
      assert forall j :: 0 < j < |s| ==> s[j] == s[1..][j - 1];
    }
  }

  lemma {:induction false} NoDupAppend<K(!new)>(s: seq<K>, k: K)
    requires NoDup(s) && k !in s
    ensures NoDup(s + [k])
  {
    if s != [] {
      NoDupAppend(s[1..], k);
      assert (s + [k])[1..] == s[1..] + [k];
    }
  }

  /** The elements of `s` other than `k`, in order. */
  function Without<K(==,!new)>(s: seq<K>, k: K): (r: seq<K>)
    ensures forall x :: x in r <==> x in s && x != k
    ensures NoDup(s) ==> NoDup(r)
    ensures NoDup(s) && k in s ==> |r| == |s| - 1
    ensures k !in s ==> r == s
  {
    if s == [] then []
    else if s[0] == k then Without(s[1..], k)
    else
      var rest := Without(s[1..], k);
      assert ([s[0]] + rest)[1..] == rest;
      [s[0]] + rest
  }

  datatype JsMap<K(==,!new), V> = JsMap(order: seq<K>, at: map<K, V>)
  {
    ghost predicate Valid() {
      && NoDup(order)
      && (forall k :: k in order <==> k in at)
    }

    function Size(): nat { |order| }

    function Set(k: K, v: V): (r: JsMap<K, V>)
      ensures Valid() ==> r.Valid()
    {
      if k in at then JsMap(order, at[k := v])
      else
        assert Valid() ==> NoDup(order + [k]) by {
          if Valid() { NoDupAppend(order, k); }
        }
        JsMap(order + [k], at[k := v])
    }

    function Delete(k: K): (r: JsMap<K, V>)
      ensures Valid() ==> r.Valid()
    {
      JsMap(Without(order, k), at - {k})
    }
  }

  function Empty<K(==,!new), V>(): (r: JsMap<K, V>)
    ensures r.Valid()
  {
    JsMap([], map[])
  }
}
