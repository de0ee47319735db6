/** The verdict on an address, and the resolution of a target, with its short-lived cache. */
module SsrfVerdict {
  import opened Wrappers
  import opened Strings
  import opened Numerals
  import opened Ssrf

  // ---------- Private ranges ----------

  function Octet(p: string): Option<nat> {
    if p != "" && All(p, Digit) then Some(ReadNumber(p, 10)) else None
  }

  predicate Listed(a: nat, b: nat, c: nat) {
    || a == 127 || a == 0 || a == 10
    || (a == 172 && 16 <= b <= 31) || (a == 192 && b == 168) || (a == 169 && b == 254) || (a == 100 && 64 <= b <= 127)
    || (a == 192 && b == 0 && c == 2) || (a == 198 && b == 51 && c == 100) || (a == 203 && b == 0 && c == 113)
  }

  predicate IsPrivateIPv4(ip: string) {
    var p := Split(ip, '.');
    |p| == 4 &&
    match (Octet(p[0]), Octet(p[1]), Octet(p[2]), Octet(p[3]))
    case (Some(a), Some(b), Some(c), Some(d)) => a <= 255 && b <= 255 && c <= 255 && d <= 255 && Listed(a, b, c)
    case _ => false
  }

  function Number(a: nat, b: nat, c: nat, d: nat): nat { a * 0x100_0000 + b * 0x1_0000 + c * 0x100 + d }

  /** The addresses of a CIDR block: a prefix of 32 - k bits leaves 2^k of them, from `first`. */
  predicate InBlock(v: nat, first: nat, size: nat) { first <= v < first + size }

  const SLASH_8: nat := 0x100_0000
  const SLASH_10: nat := 0x40_0000
  const SLASH_12: nat := 0x10_0000
  const SLASH_16: nat := 0x1_0000
  const SLASH_24: nat := 0x100

  /** Loopback, this network, the private blocks of section 3 of RFC 1918, link-local, shared
      address space, and the test networks of section 3 of RFC 5737. */
  predicate InSomeBlock(v: nat) {
    || InBlock(v, 0x7f00_0000, SLASH_8)   // 127.0.0.0/8
    || InBlock(v, 0x0000_0000, SLASH_8)   // 0.0.0.0/8
    || InBlock(v, 0x0a00_0000, SLASH_8)   // 10.0.0.0/8
    || InBlock(v, 0xac10_0000, SLASH_12)  // 172.16.0.0/12
    || InBlock(v, 0xc0a8_0000, SLASH_16)  // 192.168.0.0/16
    || InBlock(v, 0xa9fe_0000, SLASH_16)  // 169.254.0.0/16
    || InBlock(v, 0x6440_0000, SLASH_10)  // 100.64.0.0/10
    || InBlock(v, 0xc000_0200, SLASH_24)  // 192.0.2.0/24
    || InBlock(v, 0xc633_6400, SLASH_24)  // 198.51.100.0/24
    || InBlock(v, 0xcb00_7100, SLASH_24)  // 203.0.113.0/24
  }

  /** The list of comparisons is exactly membership in the listed blocks. */
  lemma ListedIffInBlock(a: nat, b: nat, c: nat, d: nat)
    requires a < 256 && b < 256 && c < 256 && d < 256
    ensures Listed(a, b, c) <==> InSomeBlock(Number(a, b, c, d))
  {
  }

  // ---------- Quads ----------

  lemma DecimalPart(n: nat)
    ensures Part(Decimal(n)) == Some(n) && Octet(Decimal(n)) == Some(n)
    ensures '.' !in Decimal(n) && ':' !in Decimal(n) && Decimal(n) != ""
  {
    DecimalReads(n);
    var s := Decimal(n);
    assert forall i :: 0 <= i < |s| ==> s[i] in s;
    assert All(s, Digit);
    assert |s| > 1 ==> Digit(s[1]);
  }

  /** One number, three spellings: decimal, octal with a leading zero, hexadecimal. */
  lemma SpellingsAgree(n: nat)
    ensures Part(Decimal(n)) == Some(n)
    ensures Part("0" + OctalText(n)) == Some(n)
    ensures Part("0x" + HexText(n)) == Some(n)
  {
    DecimalPart(n);
    OctalPart(OctalText(n), n);
    HexPart(HexText(n), n);
  }

  lemma OctalPart(s: string, n: nat)
    requires s == OctalText(n)
    ensures Part("0" + s) == Some(n)
  {
    OctalReads(n);
    LeadingZero(s, 8);
    var t := "0" + s;
    assert t[0] == '0' && |t| > 1 && t[1] == s[0] && Octal(s[0]);
    assert All(t, Octal);
  }

  lemma HexPart(s: string, n: nat)
    requires s == HexText(n)
    ensures Part("0x" + s) == Some(n)
  {
    HexReads(n);
    var t := "0x" + s;
    assert t[2..] == s && StartsWith(t, "0x");
    assert All(t[2..], Hex);
  }

  lemma SplitDotted(a: nat, b: nat, c: nat, d: nat)
    ensures Split(Dotted(a, b, c, d), '.') == [Decimal(a), Decimal(b), Decimal(c), Decimal(d)]
  {
    DecimalPart(a);
    DecimalPart(b);
    DecimalPart(c);
    DecimalPart(d);
    SplitJoin([Decimal(a), Decimal(b), Decimal(c), Decimal(d)], '.');
  }

  /** Dotted text is private exactly when its address is in a listed block. */
  lemma PrivateIffInBlock(a: nat, b: nat, c: nat, d: nat)
    requires a < 256 && b < 256 && c < 256 && d < 256
    ensures IsPrivateIPv4(Dotted(a, b, c, d)) <==> InSomeBlock(Number(a, b, c, d))
  {
    SplitDotted(a, b, c, d);
    DecimalPart(a);
    DecimalPart(b);
    DecimalPart(c);
    DecimalPart(d);
    ListedIffInBlock(a, b, c, d);
  }

  lemma Digits256(v: nat, x: nat, y: nat, z: nat)
    requires x == v / 0x100 && y == x / 0x100 && z == y / 0x100
    ensures v / 0x1_0000 == y && v / 0x100_0000 == z
    ensures v == ((z * 0x100 + y % 0x100) * 0x100 + x % 0x100) * 0x100 + v % 0x100
  {
  }

  lemma NumberOfDigits(v: nat, x: nat, y: nat, z: nat)
    requires x == v / 0x100 && y == x / 0x100 && z == y / 0x100 && v < TWO_32
    ensures Number(z % 256, y % 256, x % 256, v % 256) == v
  {
    assert v == 256 * x + v % 256 && x == 256 * y + x % 256 && y == 256 * z + y % 256;
    assert z < 256 && z % 256 == z;
  }

  lemma QuadNumber(v: nat)
    requires v < TWO_32
    ensures Number(v / 0x100_0000 % 256, v / 0x1_0000 % 256, v / 0x100 % 256, v % 256) == v
  {
    var x := v / 0x100;
    var y := x / 0x100;
    var z := y / 0x100;
    Digits256(v, x, y, z);
    NumberOfDigits(v, x, y, z);
  }

  lemma QuadVerdict(v: nat)
    requires v < TWO_32
    ensures IsPrivateIPv4(Quad(v)) <==> InSomeBlock(v)
  {
    QuadNumber(v);
    PrivateIffInBlock(v / 0x100_0000 % 256, v / 0x1_0000 % 256, v / 0x100 % 256, v % 256);
  }

  lemma QuadInjective(v: nat, w: nat)
    requires v < TWO_32 && w < TWO_32 && Quad(v) == Quad(w)
    ensures v == w
  {
    SplitDotted(v / 0x100_0000 % 256, v / 0x1_0000 % 256, v / 0x100 % 256, v % 256);
    SplitDotted(w / 0x100_0000 % 256, w / 0x1_0000 % 256, w / 0x100 % 256, w % 256);
    var x, y := Split(Quad(v), '.'), Split(Quad(w), '.');
    assert x[0] == y[0] && x[1] == y[1] && x[2] == y[2] && x[3] == y[3];
    DecimalInjective(v / 0x100_0000 % 256, w / 0x100_0000 % 256);
    DecimalInjective(v / 0x1_0000 % 256, w / 0x1_0000 % 256);
    DecimalInjective(v / 0x100 % 256, w / 0x100 % 256);
    DecimalInjective(v % 256, w % 256);
    QuadNumber(v);
    QuadNumber(w);
  }

  // ---------- Normalising again ----------

  predicate QuadChar(c: char) { Digit(c) || c == '.' }

  lemma DottedIsPlain(a: nat, b: nat, c: nat, d: nat)
    ensures var s := Dotted(a, b, c, d); s != "" && forall i :: 0 <= i < |s| ==> QuadChar(s[i])
  {
    DecimalReads(a);
    DecimalReads(b);
    DecimalReads(c);
    DecimalReads(d);
    var x, y, z := Decimal(c) + ['.'] + Decimal(d), Decimal(b), Decimal(a);
    JoinFour(Decimal(a), Decimal(b), Decimal(c), Decimal(d));
    AllPlain(Decimal(c), Decimal(d));
    AllPlain(y, x);
    AllPlain(z, y + ['.'] + x);
  }

  lemma JoinCons(p: string, rest: seq<string>)
    ensures Join([p] + rest, '.') == if rest == [] then p else p + ['.'] + Join(rest, '.')
  {
    assert ([p] + rest)[1..] == rest;
  }

  lemma JoinFour(p: string, q: string, r: string, s: string)
    ensures Join([p, q, r, s], '.') == p + ['.'] + (q + ['.'] + (r + ['.'] + s))
  {
    JoinCons(s, []);
    JoinCons(r, [s]);
    JoinCons(q, [r, s]);
    JoinCons(p, [q, r, s]);
    assert [s] + [] == [s] && [r] + [s] == [r, s] && [q] + [r, s] == [q, r, s] && [p] + [q, r, s] == [p, q, r, s];
  }

  lemma AllPlain(s: string, t: string)
    requires (forall c :: c in s ==> Digit(c)) && forall c :: c in t ==> QuadChar(c)
    ensures forall c :: c in s + ['.'] + t ==> QuadChar(c)
    ensures forall i :: 0 <= i < |s + ['.'] + t| ==> QuadChar((s + ['.'] + t)[i])
  {
    var u := s + ['.'] + t;
    forall i | 0 <= i < |u| ensures QuadChar(u[i]) {
      if i < |s| { assert u[i] in s; } else if i > |s| { assert u[i] == t[i - |s| - 1]; }
    }
  }

  lemma PlainIsUnchanged(s: string)
    requires s != "" && forall i :: 0 <= i < |s| ==> QuadChar(s[i])
    ensures ToLower(StripBrackets(s)) == s && Mapped(s).None?
  {
    assert s[0] != '[' && s[|s| - 1] != ']';
    forall i | 0 <= i < |s| ensures LowerChar(s[i]) == s[i] && s[i] != ':' {}
    SplitPlain(s, ':');
  }

  /** Normalising its own output changes nothing. */
  lemma QuadIsNormal(v: nat)
    requires v < TWO_32
    ensures NormalizeToIPv4(Quad(v)) == Some(Quad(v))
  {
    var a, b, c, d := v / 0x100_0000 % 256, v / 0x1_0000 % 256, v / 0x100 % 256, v % 256;
    assert ToLower(StripBrackets(Quad(v))) == Quad(v) && Mapped(Quad(v)).None? by {
      DottedIsPlain(a, b, c, d);
      PlainIsUnchanged(Quad(v));
    }
    SplitDotted(a, b, c, d);
    QuadParts(a, b, c, d);
    QuadNumber(v);
  }

  lemma QuadParts(a: nat, b: nat, c: nat, d: nat)
    requires a < 256 && b < 256 && c < 256 && d < 256
    ensures NormalizeParts([Decimal(a), Decimal(b), Decimal(c), Decimal(d)]) == Some(Quad(Number(a, b, c, d)))
  {
    FourParts(a, b, c, d);
    NormalizeIsQuad([Decimal(a), Decimal(b), Decimal(c), Decimal(d)]);
    AddressOfFour([a, b, c, d]);
  }

  lemma AddressOfFour(nums: seq<nat>)
    requires |nums| == 4 && forall i :: 0 <= i < 4 ==> nums[i] < 256
    ensures Address(nums) == Some(Number(nums[0], nums[1], nums[2], nums[3]))
  {
    LeadingCases(nums[..3]);
    Last(3);
  }

  lemma FourParts(a: nat, b: nat, c: nat, d: nat)
    ensures Parts([Decimal(a), Decimal(b), Decimal(c), Decimal(d)]) == Some([a, b, c, d])
  {
    DecimalPart(a);
    DecimalPart(b);
    DecimalPart(c);
    DecimalPart(d);
    PartsCons(Decimal(d), []);
    PartsCons(Decimal(c), [Decimal(d)]);
    PartsCons(Decimal(b), [Decimal(c), Decimal(d)]);
    PartsCons(Decimal(a), [Decimal(b), Decimal(c), Decimal(d)]);
    SameList(Decimal(a), Decimal(b), Decimal(c), Decimal(d));
    assert [a] + [b, c, d] == [a, b, c, d] && [b] + [c, d] == [b, c, d] && [c] + [d] == [c, d] && [d] + [] == [d];
  }

  lemma SameList(p: string, q: string, r: string, s: string)
    ensures [p] + [q, r, s] == [p, q, r, s] && [q] + [r, s] == [q, r, s] && [r] + [s] == [r, s] && [s] + [] == [s]
  {
  }

  lemma PartsCons(p: string, rest: seq<string>)
    requires Part(p).Some? && Parts(rest).Some?
    ensures Parts([p] + rest) == Some([Part(p).value] + Parts(rest).value)
  {
    assert ([p] + rest)[1..] == rest;
  }

  // ---------- Mapped addresses ----------

  lemma {:induction false} HexBound(s: string)
    requires |s| <= 4 && All(s, Hex)
    ensures ReadNumber(s, 16) < Pow2(4 * |s|) <= 0x1_0000
  {
    Powers();
    if s != "" {
      HexBound(s[..|s| - 1]);
      assert Pow2(4 * |s|) == 16 * Pow2(4 * (|s| - 1)) by {
        assert Pow2(4 * |s|) == 2 * (2 * (2 * (2 * Pow2(4 * |s| - 4))));
      }
      HexPowers(|s|);
    }
  }

  lemma HexPowers(n: nat)
    requires n <= 4
    ensures Pow2(4 * n) <= 0x1_0000
  {
    assert Pow2(4) == 16;
    assert Pow2(8) == 2 * (2 * (2 * (2 * Pow2(4))));
    assert Pow2(12) == 2 * (2 * (2 * (2 * Pow2(8))));
    assert Pow2(16) == 2 * (2 * (2 * (2 * Pow2(12))));
  }

  /** Two hexadecimal groups print the quad of the address they hold. */
  lemma MappedGroupsAreQuad(hi: nat, lo: nat)
    requires hi < 0x1_0000 && lo < 0x1_0000
    ensures PrintGroups(hi, lo) == Quad(hi * 0x1_0000 + lo)
  {
    ShrByte(hi, 8);
    ShrByte(lo, 8);
    AndByte(hi);
    AndByte(lo);
    SmallWord(hi);
    SmallWord(lo);
    GroupBytes(hi, lo);
  }

  lemma GroupBytes(hi: nat, lo: nat)
    requires hi < 0x1_0000 && lo < 0x1_0000
    ensures var v := hi * 0x1_0000 + lo;
            && v / 0x100_0000 % 256 == hi / 0x100 && v / 0x1_0000 % 256 == hi % 0x100
            && v / 0x100 % 256 == lo / 0x100 && v % 256 == lo % 0x100
  {
    var v := hi * 0x1_0000 + lo;
    Digits256(v, v / 0x100, v / 0x100 / 0x100, v / 0x100 / 0x100 / 0x100);
    assert v / 0x1_0000 == hi;
    assert v / 0x100 == hi * 0x100 + lo / 0x100;
  }

  /** A mapped form with two hexadecimal groups. */
  predicate Grouped(g: seq<string>) {
    |g| == 5 && g[0] == "" && g[1] == "" && g[2] == "ffff" && HexGroup(g[3]) && HexGroup(g[4])
  }

  lemma MappedIsGroups(g: seq<string>)
    requires Grouped(g)
    ensures MappedOf(g) == Some(PrintGroups(ReadNumber(g[3], 16), ReadNumber(g[4], 16)))
  {
  }

  lemma GroupVerdict(hi: nat, lo: nat)
    requires hi < 0x1_0000 && lo < 0x1_0000
    ensures IsPrivateIPv4(PrintGroups(hi, lo)) <==> InSomeBlock(hi * 0x1_0000 + lo)
  {
    MappedGroupsAreQuad(hi, lo);
    QuadVerdict(hi * 0x1_0000 + lo);
  }

  /** The mapped form of an address gets the verdict of that address. */
  lemma MappedVerdict(g: seq<string>, hi: nat, lo: nat)
    requires Grouped(g) && hi == ReadNumber(g[3], 16) && lo == ReadNumber(g[4], 16)
    ensures hi < 0x1_0000 && lo < 0x1_0000 && MappedOf(g) == Some(PrintGroups(hi, lo))
    ensures IsPrivateIPv4(PrintGroups(hi, lo)) <==> InSomeBlock(hi * 0x1_0000 + lo)
  {
    HexBound(g[3]);
    HexBound(g[4]);
    MappedIsGroups(g);
    GroupVerdict(hi, lo);
  }

  predicate Reads(p: seq<string>, a: nat, b: nat, c: nat, d: nat) {
    && |p| == 4
    && ReadNumber(p[0], 10) == a && ReadNumber(p[1], 10) == b && ReadNumber(p[2], 10) == c && ReadNumber(p[3], 10) == d
  }

  lemma PrivateIsListed(s: string, a: nat, b: nat, c: nat, d: nat)
    requires DottedText(s) && Reads(Split(s, '.'), a, b, c, d)
    ensures IsPrivateIPv4(s) <==> a < 256 && b < 256 && c < 256 && d < 256 && Listed(a, b, c)
  {
  }

  /** Any four runs of decimal digits, leading zeros or not: private exactly when they are four
      bytes, and the address they spell in decimal is in a listed block. */
  lemma DottedTextVerdict(s: string, a: nat, b: nat, c: nat, d: nat)
    requires DottedText(s) && Reads(Split(s, '.'), a, b, c, d)
    ensures IsPrivateIPv4(s) <==> a < 256 && b < 256 && c < 256 && d < 256 && InSomeBlock(Number(a, b, c, d))
  {
    PrivateIsListed(s, a, b, c, d);
    if a < 256 && b < 256 && c < 256 && d < 256 { ListedIffInBlock(a, b, c, d); }
  }

  // ---------- Raw text ----------

  /** The text that is looked at: without brackets, in lower case. */
  function Bare(raw: string): string { ToLower(StripBrackets(raw)) }

  /** A mapped form whose last group is dotted text; the source returns that text unchecked. */
  predicate DottedMapped(g: seq<string>) { MappedOf(g).Some? && !Grouped(g) }

  /** The address a list of dotted parts spells. */
  function AddressOf(ps: seq<string>): Option<nat> {
    if |ps| > 4 then None
    else match Parts(ps) case None => None case Some(nums) => Address(nums)
  }

  /** The address that raw text spells, by its definition. */
  function Spelled(raw: string): Option<nat> {
    var g := Split(Bare(raw), ':');
    if Grouped(g) then Some(ReadNumber(g[3], 16) * 0x1_0000 + ReadNumber(g[4], 16))
    else AddressOf(Split(Bare(raw), '.'))
  }

  lemma NormalizePartsIsQuad(ps: seq<string>)
    requires ps != []
    ensures NormalizeParts(ps) == match AddressOf(ps) case None => None case Some(v) => Some(Quad(v))
    ensures AddressOf(ps).Some? ==> AddressOf(ps).value < TWO_32
  {
    if |ps| <= 4 {
      NormalizeIsQuad(ps);
      if Parts(ps).Some? {
        PartsLength(ps);
        Ip32IsAddress(Parts(ps).value);
      }
    }
  }

  lemma GroupsAreQuad(g: seq<string>)
    requires Grouped(g)
    ensures var v := ReadNumber(g[3], 16) * 0x1_0000 + ReadNumber(g[4], 16); v < TWO_32 && MappedOf(g) == Some(Quad(v))
  {
    HexBound(g[3]);
    HexBound(g[4]);
    MappedIsGroups(g);
    MappedGroupsAreQuad(ReadNumber(g[3], 16), ReadNumber(g[4], 16));
  }

  /** Raw text in any accepted spelling comes to the quad of the address it spells, and to
      nothing when it spells none. */
  lemma RawIsQuad(raw: string)
    requires !DottedMapped(Split(Bare(raw), ':'))
    ensures NormalizeToIPv4(raw) == match Spelled(raw) case None => None case Some(v) => Some(Quad(v))
    ensures Spelled(raw).Some? ==> Spelled(raw).value < TWO_32
  {
    ChosenIsQuad(Split(Bare(raw), ':'), Split(Bare(raw), '.'));
  }

  lemma ChosenIsQuad(g: seq<string>, ps: seq<string>)
    requires !DottedMapped(g) && ps != []
    ensures var v := if Grouped(g) then Some(ReadNumber(g[3], 16) * 0x1_0000 + ReadNumber(g[4], 16)) else AddressOf(ps);
            && (v.Some? ==> v.value < TWO_32)
            && (match MappedOf(g) case Some(text) => Some(text) case None => NormalizeParts(ps)) ==
               match v case None => None case Some(n) => Some(Quad(n))
  {
    if Grouped(g) { GroupsAreQuad(g); } else { NormalizePartsIsQuad(ps); }
  }

  /** Main result, on raw text: two spellings have one normal form exactly when they spell one
      address, and the verdict is whether that address is in a listed block. */
  lemma RawVerdict(raw: string, other: string)
    requires !DottedMapped(Split(Bare(raw), ':')) && !DottedMapped(Split(Bare(other), ':'))
    requires NormalizeToIPv4(raw).Some? && NormalizeToIPv4(other).Some?
    ensures Spelled(raw).Some? && Spelled(other).Some?
    ensures NormalizeToIPv4(raw) == NormalizeToIPv4(other) <==> Spelled(raw) == Spelled(other)
    ensures IsPrivateIPv4(NormalizeToIPv4(raw).value) <==> InSomeBlock(Spelled(raw).value)
  {
    RawIsQuad(raw);
    RawIsQuad(other);
    var v, w := Spelled(raw).value, Spelled(other).value;
    QuadVerdict(v);
    if Quad(v) == Quad(w) { QuadInjective(v, w); }
  }

  /** Normalising raw text twice is normalising it once. */
  lemma RawNormalizeTwice(raw: string)
    requires !DottedMapped(Split(Bare(raw), ':')) && NormalizeToIPv4(raw).Some?
    ensures NormalizeToIPv4(NormalizeToIPv4(raw).value) == NormalizeToIPv4(raw)
  {
    RawIsQuad(raw);
    QuadIsNormal(Spelled(raw).value);
  }
}
