/** Which targets the node may fetch: every spelling of an IPv4 address comes to one value,
    private ranges are refused, and a name is refused if any of its addresses is private. */
module Ssrf {
  import opened Wrappers
  import opened Strings
  import opened Numerals

  // ---------- Spellings of an IPv4 address ----------

  function StripBrackets(s: string): string {
    var t := if s != "" && s[0] == '[' then s[1..] else s;
    if t != "" && t[|t| - 1] == ']' then t[..|t| - 1] else t
  }

  predicate All(s: string, p: char -> bool) { forall i :: 0 <= i < |s| ==> p(s[i]) }

  /** One dotted part: hexadecimal, octal, or decimal. */
  function Part(p: string): Option<nat> {
    if StartsWith(p, "0x") && |p| > 2 && All(p[2..], Hex) then Some(ReadNumber(p[2..], 16))
    else if p != "" && p[0] == '0' && All(p, Octal) then Some(ReadNumber(p, if |p| > 1 then 8 else 10))
    else if p != "" && p[0] != '0' && All(p, Digit) then Some(ReadNumber(p, 10))
    else None
  }

  function Parts(ps: seq<string>): Option<seq<nat>> {
    if ps == [] then Some([])
    else
      match (Part(ps[0]), Parts(ps[1..]))
      case (Some(n), Some(rest)) => Some([n] + rest)
      case _ => None
  }

  /** The 32-bit number, built with signed shifts. */
  function Ip32(nums: seq<nat>): Option<int> {
    if |nums| == 1 then if nums[0] > 0xffff_ffff then None else Some(nums[0])
    else if |nums| == 2 then
      if nums[0] > 0xff || nums[1] > 0xff_ffff then None else Some(Or(Shl(nums[0], 24), nums[1]))
    else if |nums| == 3 then
      if nums[0] > 0xff || nums[1] > 0xff || nums[2] > 0xffff then None
      else Some(Or(Or(Shl(nums[0], 24), Shl(nums[1], 16)), nums[2]))
    else if |nums| == 4 then
      if nums[0] > 0xff || nums[1] > 0xff || nums[2] > 0xff || nums[3] > 0xff then None
      else Some(Or(Or(Or(Shl(nums[0], 24), Shl(nums[1], 16)), Shl(nums[2], 8)), nums[3]))
    else None
  }

  /** Four bytes, printed. */
  function Dotted(a: nat, b: nat, c: nat, d: nat): string {
    Join([Decimal(a), Decimal(b), Decimal(c), Decimal(d)], '.')
  }

  function Nat(x: int): nat { if x < 0 then 0 else x }

  function PrintIp(ip: int): string {
    Dotted(Nat(And(Shr(ip, 24), 0xff)), Nat(And(Shr(ip, 16), 0xff)), Nat(And(Shr(ip, 8), 0xff)), Nat(And(ip, 0xff)))
  }

  predicate ZeroGroup(s: string) { 1 <= |s| <= 4 && forall i :: 0 <= i < |s| ==> s[i] == '0' }

  predicate ThreeDigits(s: string) { 1 <= |s| <= 3 && All(s, Digit) }

  predicate DottedText(s: string) {
    var ps := Split(s, '.');
    |ps| == 4 && ThreeDigits(ps[0]) && ThreeDigits(ps[1]) && ThreeDigits(ps[2]) && ThreeDigits(ps[3])
  }

  predicate HexGroup(s: string) { 1 <= |s| <= 4 && All(s, Hex) }

  /** An IPv6 address that maps an IPv4 one: its dotted text, as it stands, or two groups. */
  function Mapped(s: string): Option<string> { MappedOf(Split(s, ':')) }

  function MappedOf(g: seq<string>): Option<string> {
    if |g| == 7 && ZeroGroup(g[0]) && ZeroGroup(g[1]) && ZeroGroup(g[2]) && ZeroGroup(g[3]) && ZeroGroup(g[4])
       && g[5] == "ffff" && DottedText(g[6]) then Some(g[6])
    else if |g| == 4 && g[0] == "" && g[1] == "" && g[2] == "ffff" && DottedText(g[3]) then Some(g[3])
    else if |g| == 5 && g[0] == "" && g[1] == "" && g[2] == "ffff" && HexGroup(g[3]) && HexGroup(g[4]) then
      Some(PrintGroups(ReadNumber(g[3], 16), ReadNumber(g[4], 16)))
    else None
  }

  function PrintGroups(hi: nat, lo: nat): string {
    Dotted(Nat(Shr(hi, 8)), Nat(And(hi, 0xff)), Nat(Shr(lo, 8)), Nat(And(lo, 0xff)))
  }

  function NormalizeToIPv4(raw: string): Option<string> {
    var s := ToLower(StripBrackets(raw));
    match Mapped(s)
    case Some(text) => Some(text)
    case None => NormalizeParts(Split(s, '.'))
  }

  function NormalizeParts(ps: seq<string>): Option<string> {
    if |ps| > 4 then None
    else
      match Parts(ps)
      case None => None
      case Some(nums) =>
        match Ip32(nums) case None => None case Some(ip) => Some(PrintIp(ip))
  }

  // ---------- The address, by its definition ----------

  /** Every part but the last is one byte; the last fills the rest (IPv4 parser, section 3.5 of
      the WHATWG URL Standard). */
  function Address(nums: seq<nat>): Option<nat> {
    if !(1 <= |nums| <= 4) then None
    else
      var n := |nums| - 1;
      if exists i :: 0 <= i < n && nums[i] > 255 then None
      else if nums[n] >= Pow2(8 * (4 - n)) then None
      else Some(nums[n] + Leading(nums[..n], 24))
  }

  /** `bytes` at descending byte positions. */
  function Leading(bytes: seq<nat>, shift: int): nat {
    if bytes == [] then 0 else bytes[0] * Pow2(if shift < 0 then 0 else shift) + Leading(bytes[1..], shift - 8)
  }

  /** Four bytes, most significant first. */
  function Quad(v: nat): string { Dotted(v / 0x100_0000 % 256, v / 0x1_0000 % 256, v / 0x100 % 256, v % 256) }

  lemma {:induction false} LeadingCases(b: seq<nat>)
    ensures |b| == 0 ==> Leading(b, 24) == 0
    ensures |b| == 1 ==> Leading(b, 24) == b[0] * 0x100_0000
    ensures |b| == 2 ==> Leading(b, 24) == b[0] * 0x100_0000 + b[1] * 0x1_0000
    ensures |b| == 3 ==> Leading(b, 24) == b[0] * 0x100_0000 + b[1] * 0x1_0000 + b[2] * 0x100
  {
    Powers();
    if |b| >= 1 {
      assert Leading(b, 24) == b[0] * Pow2(24) + Leading(b[1..], 16);
      if |b| >= 2 {
        assert Leading(b[1..], 16) == b[1] * Pow2(16) + Leading(b[1..][1..], 8);
        if |b| >= 3 { assert Leading(b[1..][1..], 8) == b[2] * Pow2(8) + Leading(b[1..][1..][1..], 0); }
      }
    }
  }

  lemma Last(n: nat)
    requires n < 4
    ensures Pow2(8 * (4 - n)) ==
            if n == 0 then TWO_32 else if n == 1 then 0x100_0000 else if n == 2 then 0x1_0000 else 0x100
  {
    Powers();
  }

  // ---------- Signed shifts, unsigned values ----------

  lemma Or24(a: nat, y: int)
    requires a < 256 && ToUint32(y) < 0x100_0000
    ensures ToUint32(Or(Shl(a, 24), y)) == a * 0x100_0000 + ToUint32(y)
  {
    Powers();
    ShlByte(a, 24);
    OrUnsigned(Shl(a, 24), y, a, 24);
  }

  lemma Or16(x: int, a: nat, b: nat, y: int)
    requires a < 256 && b < 256 && ToUint32(x) == a * 0x100_0000 + b * 0x1_0000 && ToUint32(y) < 0x1_0000
    ensures ToUint32(Or(x, y)) == a * 0x100_0000 + b * 0x1_0000 + ToUint32(y)
  {
    Powers();
    assert ToUint32(x) == (a * 256 + b) * Pow2(16);
    OrUnsigned(x, y, a * 256 + b, 16);
  }

  lemma Or8(x: int, q: nat, y: int)
    requires q < 0x100_0000 && ToUint32(x) == q * 0x100 && ToUint32(y) < 0x100
    ensures ToUint32(Or(x, y)) == q * 0x100 + ToUint32(y)
  {
    Powers();
    OrUnsigned(x, y, q, 8);
  }

  lemma Two(a: nat, n: nat)
    requires a < 256 && n < 0x100_0000
    ensures ToUint32(Or(Shl(a, 24), n)) == a * 0x100_0000 + n
  {
    SmallWord(n);
    Or24(a, n);
  }

  lemma Three(a: nat, b: nat, n: nat)
    requires a < 256 && b < 256 && n < 0x1_0000
    ensures ToUint32(Or(Or(Shl(a, 24), Shl(b, 16)), n)) == a * 0x100_0000 + b * 0x1_0000 + n
  {
    Powers();
    ShlByte(b, 16);
    Or24(a, Shl(b, 16));
    SmallWord(n);
    Or16(Or(Shl(a, 24), Shl(b, 16)), a, b, n);
  }

  lemma Four(a: nat, b: nat, c: nat, n: nat)
    requires a < 256 && b < 256 && c < 256 && n < 0x100
    ensures ToUint32(Or(Or(Or(Shl(a, 24), Shl(b, 16)), Shl(c, 8)), n)) == a * 0x100_0000 + b * 0x1_0000 + c * 0x100 + n
  {
    Powers();
    ShlByte(b, 16);
    Or24(a, Shl(b, 16));
    ShlByte(c, 8);
    Or16(Or(Shl(a, 24), Shl(b, 16)), a, b, Shl(c, 8));
    SmallWord(n);
    Or8(Or(Or(Shl(a, 24), Shl(b, 16)), Shl(c, 8)), a * 0x1_0000 + b * 0x100 + c, n);
  }

  lemma AddressValue(nums: seq<nat>)
    requires 1 <= |nums| <= 4
    ensures Address(nums).Some? <==> Ip32(nums).Some?
    ensures Address(nums).Some? ==> Address(nums).value == nums[|nums| - 1] + Leading(nums[..|nums| - 1], 24)
  {
    var n := |nums| - 1;
    Last(n);
    if n == 0 { assert Address(nums).Some? <==> nums[0] <= 0xffff_ffff; }
    if n == 1 { assert Address(nums).Some? <==> nums[0] <= 255 && nums[1] <= 0xff_ffff; }
    if n == 2 { assert Address(nums).Some? <==> nums[0] <= 255 && nums[1] <= 255 && nums[2] <= 0xffff; }
    if n == 3 { assert Address(nums).Some? <==> nums[0] <= 255 && nums[1] <= 255 && nums[2] <= 255 && nums[3] <= 255; }
  }

  /** The signed computation gives the address the definition gives, or nothing when it does. */
  lemma Ip32IsAddress(nums: seq<nat>)
    requires 1 <= |nums| <= 4
    ensures Ip32(nums).Some? <==> Address(nums).Some?
    ensures Ip32(nums).Some? ==> ToUint32(Ip32(nums).value) == Address(nums).value < TWO_32
  {
    AddressValue(nums);
    if Ip32(nums).Some? {
      LeadingCases(nums[..|nums| - 1]);
      Ip32Value(nums);
    }
  }

  lemma Ip32Value(nums: seq<nat>)
    requires 1 <= |nums| <= 4 && Ip32(nums).Some?
    ensures |nums| == 1 ==> ToUint32(Ip32(nums).value) == nums[0]
    ensures |nums| == 2 ==> ToUint32(Ip32(nums).value) == nums[0] * 0x100_0000 + nums[1]
    ensures |nums| == 3 ==> ToUint32(Ip32(nums).value) == nums[0] * 0x100_0000 + nums[1] * 0x1_0000 + nums[2]
    ensures |nums| == 4 ==>
              ToUint32(Ip32(nums).value) == nums[0] * 0x100_0000 + nums[1] * 0x1_0000 + nums[2] * 0x100 + nums[3]
  {
    if |nums| == 1 { SmallWord(nums[0]); }
    if |nums| == 2 { Two(nums[0], nums[1]); }
    if |nums| == 3 { Three(nums[0], nums[1], nums[2]); }
    if |nums| == 4 { Four(nums[0], nums[1], nums[2], nums[3]); }
  }

  lemma AndOfSigned(ip: int)
    ensures And(ip, 0xff) == ToUint32(ip) % 256
  {
    AndByte(ToUint32(ip));
    SmallWord(ToUint32(ip));
  }

  lemma ShrByte(ip: int, k: nat)
    requires k in {8, 16, 24}
    ensures Shr(ip, k) == ToUint32(ip) / Pow2(k) && 0 <= Shr(ip, k) < TWO_32
  {
    Powers();
  }

  /** Printing with signed masks and shifts prints the unsigned quad. */
  lemma PrintIsQuad(ip: int)
    ensures PrintIp(ip) == Quad(ToUint32(ip))
  {
    Powers();
    ShrByte(ip, 24);
    ShrByte(ip, 16);
    ShrByte(ip, 8);
    AndByte(Shr(ip, 24));
    AndByte(Shr(ip, 16));
    AndByte(Shr(ip, 8));
    AndOfSigned(ip);
  }

  /** Main result: one to four parts, each in any radix, come to the big-endian quad of the
      address they spell, and to nothing when they spell none. */
  lemma NormalizeIsQuad(ps: seq<string>)
    requires 1 <= |ps| <= 4
    ensures NormalizeParts(ps) ==
            match Parts(ps)
            case None => None
            case Some(nums) => match Address(nums) case None => None case Some(v) => Some(Quad(v))
  {
    if Parts(ps).Some? {
      var nums := Parts(ps).value;
      PartsLength(ps);
      Ip32IsAddress(nums);
      if Ip32(nums).Some? { PrintIsQuad(Ip32(nums).value); }
    }
  }

  lemma {:induction false} PartsLength(ps: seq<string>)
    ensures Parts(ps).Some? ==> |Parts(ps).value| == |ps|
  {
    if ps != [] { PartsLength(ps[1..]); }
  }
}
