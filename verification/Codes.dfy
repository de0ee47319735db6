/** Prefix codes: text from which a value, and what follows it, can be read back. */
module Codes {
  import opened Wrappers
  import opened Bytes
  import opened CanonicalJson

  function NatCode(n: nat): string { if n == 0 then "0" else "1" + NatCode(n - 1) }

  lemma {:induction false} NatPrefix(n: nat, m: nat, x: string, y: string)
    requires NatCode(n) + x == NatCode(m) + y
    ensures n == m && x == y
  {
    var s, t := NatCode(n) + x, NatCode(m) + y;
    assert s[0] == NatCode(n)[0] && t[0] == NatCode(m)[0];
    if n > 0 {
      assert s[1..] == NatCode(n - 1) + x && t[1..] == NatCode(m - 1) + y;
      NatPrefix(n - 1, m - 1, x, y);
    } else {
      assert s[1..] == x && t[1..] == y;
    }
  }

  /** Text that begins with a mark. */
  lemma Mark(c: char, rest: string, x: string)
    ensures ([c] + rest + x)[0] == c && ([c] + rest + x)[1..] == rest + x
  {
  }

  function IntCode(n: int): string { if n < 0 then "-" + NatCode(-n) else "+" + NatCode(n) }

  lemma IntPrefix(n: int, m: int, x: string, y: string)
    requires IntCode(n) + x == IntCode(m) + y
    ensures n == m && x == y
  {
    var a, b := NatCode(if n < 0 then -n else n), NatCode(if m < 0 then -m else m);
    Mark(if n < 0 then '-' else '+', a, x);
    Mark(if m < 0 then '-' else '+', b, y);
    NatPrefix(if n < 0 then -n else n, if m < 0 then -m else m, x, y);
  }

  function TextCode(s: string): string { if s == "" then "." else [':', s[0]] + TextCode(s[1..]) }

  lemma {:induction false} TextPrefix(s: string, t: string, x: string, y: string)
    requires TextCode(s) + x == TextCode(t) + y
    ensures s == t && x == y
  {
    var a, b := TextCode(s) + x, TextCode(t) + y;
    assert a[0] == TextCode(s)[0] && b[0] == TextCode(t)[0];
    if s == "" {
      assert a[1..] == x && b[1..] == y;
    } else {
      assert a[1] == s[0] && b[1] == t[0];
      assert a[2..] == TextCode(s[1..]) + x && b[2..] == TextCode(t[1..]) + y;
      TextPrefix(s[1..], t[1..], x, y);
      assert s == [s[0]] + s[1..] && t == [t[0]] + t[1..];
    }
  }

  // ---------- JSON ----------

  function Tag(v: Json): char {
    match v
    case Null => 'n'
    case Bool(b) => if b then 't' else 'f'
    case Num(_) => '#'
    case Str(_) => 's'
    case Arr(_) => 'a'
    case Obj(_) => 'o'
  }

  function Rest(v: Json): string
    decreases v, 0
  {
    match v
    case Null => ""
    case Bool(_) => ""
    case Num(n) => IntCode(n.whole) + NatCode(n.part)
    case Str(s) => TextCode(s)
    case Arr(items) => ItemsCode(items)
    case Obj(es) => EntriesCode(es)
  }

  function JsonCode(v: Json): string
    decreases v, 1
  {
    [Tag(v)] + Rest(v)
  }

  function ItemsCode(items: seq<Json>): string {
    if items == [] then "." else "," + (JsonCode(items[0]) + ItemsCode(items[1..]))
  }

  function EntriesCode(es: seq<Entry>): string {
    if es == [] then "." else "," + (TextCode(es[0].key) + (JsonCode(es[0].value) + EntriesCode(es[1..])))
  }

  lemma Regroup(a: string, b: string, c: string)
    ensures (a + b) + c == a + (b + c)
  {
  }

  lemma {:induction false} JsonPrefix(v: Json, w: Json, x: string, y: string)
    requires JsonCode(v) + x == JsonCode(w) + y
    ensures v == w && x == y
    decreases v, 2
  {
    Mark(Tag(v), Rest(v), x);
    Mark(Tag(w), Rest(w), y);
    RestPrefix(v, w, x, y);
  }

  lemma {:induction false} RestPrefix(v: Json, w: Json, x: string, y: string)
    requires Tag(v) == Tag(w) && Rest(v) + x == Rest(w) + y
    ensures v == w && x == y
    decreases v, 1
  {
    match v
    case Null => assert "" + x == x && "" + y == y;
    case Bool(_) => assert "" + x == x && "" + y == y;
    case Num(n) =>
      var m := w.n;
      Regroup(IntCode(n.whole), NatCode(n.part), x);
      Regroup(IntCode(m.whole), NatCode(m.part), y);
      IntPrefix(n.whole, m.whole, NatCode(n.part) + x, NatCode(m.part) + y);
      NatPrefix(n.part, m.part, x, y);
    case Str(text) => TextPrefix(text, w.s, x, y);
    case Arr(items) => ItemsPrefix(items, w.items, x, y);
    case Obj(es) => EntriesPrefix(es, w.entries, x, y);
  }

  lemma Heads(a: seq<Json>, b: seq<Json>, x: string, y: string)
    requires ItemsCode(a) + x == ItemsCode(b) + y
    ensures a == [] <==> b == []
    ensures a == [] ==> x == y
  {
    assert (ItemsCode(a) + x)[0] == ItemsCode(a)[0] && (ItemsCode(b) + y)[0] == ItemsCode(b)[0];
    if a == [] { assert (ItemsCode(a) + x)[1..] == x && (ItemsCode(b) + y)[1..] == y; }
  }

  lemma {:induction false} ItemsPrefix(a: seq<Json>, b: seq<Json>, x: string, y: string)
    requires ItemsCode(a) + x == ItemsCode(b) + y
    ensures a == b && x == y
    decreases a, 0
  {
    Heads(a, b, x, y);
    if a != [] {
      var p, q := ItemsCode(a[1..]), ItemsCode(b[1..]);
      assert (ItemsCode(a) + x)[1..] == JsonCode(a[0]) + p + x;
      assert (ItemsCode(b) + y)[1..] == JsonCode(b[0]) + q + y;
      Regroup(JsonCode(a[0]), p, x);
      Regroup(JsonCode(b[0]), q, y);
      JsonPrefix(a[0], b[0], p + x, q + y);
      ItemsPrefix(a[1..], b[1..], x, y);
      assert a == [a[0]] + a[1..] && b == [b[0]] + b[1..];
    }
  }

  lemma EntryHeads(a: seq<Entry>, b: seq<Entry>, x: string, y: string)
    requires EntriesCode(a) + x == EntriesCode(b) + y
    ensures a == [] <==> b == []
    ensures a == [] ==> x == y
  {
    assert (EntriesCode(a) + x)[0] == EntriesCode(a)[0] && (EntriesCode(b) + y)[0] == EntriesCode(b)[0];
    if a == [] { assert (EntriesCode(a) + x)[1..] == x && (EntriesCode(b) + y)[1..] == y; }
  }

  lemma EntrySplit(es: seq<Entry>, x: string)
    requires es != []
    ensures (EntriesCode(es) + x)[1..] == TextCode(es[0].key) + (JsonCode(es[0].value) + (EntriesCode(es[1..]) + x))
  {
    var k, v, r := TextCode(es[0].key), JsonCode(es[0].value), EntriesCode(es[1..]);
    assert EntriesCode(es) == "," + (k + (v + r));
    assert (EntriesCode(es) + x)[1..] == k + (v + r) + x;
    Regroup(k, v + r, x);
    Regroup(v, r, x);
  }

  lemma {:induction false} EntriesPrefix(a: seq<Entry>, b: seq<Entry>, x: string, y: string)
    requires EntriesCode(a) + x == EntriesCode(b) + y
    ensures a == b && x == y
    decreases a, 0
  {
    EntryHeads(a, b, x, y);
    if a != [] {
      var p, q := EntriesCode(a[1..]), EntriesCode(b[1..]);
      EntrySplit(a, x);
      EntrySplit(b, y);
      TextPrefix(a[0].key, b[0].key, JsonCode(a[0].value) + (p + x), JsonCode(b[0].value) + (q + y));
      JsonPrefix(a[0].value, b[0].value, p + x, q + y);
      EntriesPrefix(a[1..], b[1..], x, y);
      assert a == [a[0]] + a[1..] && b == [b[0]] + b[1..];
    }
  }

  /** A printer that is injective on all JSON values. */
  lemma JsonInjective(v: Json, w: Json)
    requires JsonCode(v) == JsonCode(w)
    ensures v == w
  {
    assert JsonCode(v) + "" == JsonCode(v) && JsonCode(w) + "" == JsonCode(w);
    JsonPrefix(v, w, "", "");
  }

  // ---------- Bytes ----------

  /** Three bytes a character. */
  function Utf24(s: string): bytes {
    if s == "" then [] else BigEndian(s[0] as int, 3) + Utf24(s[1..])
  }

  lemma CharBytes(c: char, d: char)
    requires BigEndian(c as int, 3) == BigEndian(d as int, 3)
    ensures c == d
  {
    assert Pow256(3) == 0x100_0000 by { assert Pow256(3) == 256 * (256 * (256 * Pow256(0))); }
    WriteThenRead(c as int, 3);
    WriteThenRead(d as int, 3);
    assert (c as int) as char == c && (d as int) as char == d;
  }

  lemma {:induction false} Utf24Injective(s: string, t: string)
    requires Utf24(s) == Utf24(t)
    ensures s == t
  {
    if s != "" && t != "" {
      var a, b := Utf24(s), Utf24(t);
      assert a[..3] == BigEndian(s[0] as int, 3) && b[..3] == BigEndian(t[0] as int, 3);
      assert a[3..] == Utf24(s[1..]) && b[3..] == Utf24(t[1..]);
      CharBytes(s[0], t[0]);
      Utf24Injective(s[1..], t[1..]);
      assert s == [s[0]] + s[1..] && t == [t[0]] + t[1..];
    }
  }

  /** A letter per byte, none of them a control character. */
  function Letters(b: bytes): string {
    if b == [] then "" else [(b[0] as int + 256) as char] + Letters(b[1..])
  }

  lemma {:induction false} LettersInjective(a: bytes, b: bytes)
    requires Letters(a) == Letters(b)
    ensures a == b
  {
    if a != [] && b != [] {
      assert Letters(a)[0] == Letters(b)[0] && Letters(a)[1..] == Letters(a[1..]) && Letters(b)[1..] == Letters(b[1..]);
      assert ((a[0] as int + 256) as char) as int == a[0] as int + 256;
      assert ((b[0] as int + 256) as char) as int == b[0] as int + 256;
      LettersInjective(a[1..], b[1..]);
      assert a == [a[0]] + a[1..] && b == [b[0]] + b[1..];
    }
  }

  lemma {:induction false} LettersArePlain(b: bytes)
    ensures '\n' !in Letters(b)
  {
    if b != [] {
      LettersArePlain(b[1..]);
      assert ((b[0] as int + 256) as char) as int >= 256;
    }
  }

  /** A code that can be read from its end. */
  function EndCode(b: bytes): bytes { if b == [] then [0] else EndCode(b[1..]) + [b[0], 1] }

  lemma {:induction false} EndPrefix(a: bytes, b: bytes, x: bytes, y: bytes)
    requires x + EndCode(a) == y + EndCode(b)
    ensures a == b
  {
    var s, t := x + EndCode(a), y + EndCode(b);
    assert s[|s| - 1] == EndCode(a)[|EndCode(a)| - 1] && t[|t| - 1] == EndCode(b)[|EndCode(b)| - 1];
    if a != [] && b != [] {
      assert s[|s| - 2] == a[0] && t[|t| - 2] == b[0];
      assert s[..|s| - 2] == x + EndCode(a[1..]) && t[..|t| - 2] == y + EndCode(b[1..]);
      EndPrefix(a[1..], b[1..], x, y);
      assert a == [a[0]] + a[1..] && b == [b[0]] + b[1..];
    }
  }
}
