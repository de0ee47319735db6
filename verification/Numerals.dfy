/** Numbers in text, and the 32-bit bitwise operators of JavaScript. */
module Numerals {
  import opened Strings

  // ---------- Digits ----------

  function Decimal(n: nat): string {
    if n < 10 then [('0' as int + n) as char] else Decimal(n / 10) + [('0' as int + n % 10) as char]
  }

  function DigitValue(c: char): nat {
    if '0' <= c <= '9' then (c - '0') as nat
    else if 'a' <= c <= 'f' then (c - 'a') as nat + 10
    else 0
  }

  predicate Octal(c: char) { '0' <= c <= '7' }

  predicate Digit(c: char) { '0' <= c <= '9' }

  predicate Hex(c: char) { '0' <= c <= '9' || 'a' <= c <= 'f' }

  function ReadNumber(s: string, radix: nat): nat {
    if s == "" then 0 else ReadNumber(s[..|s| - 1], radix) * radix + DigitValue(s[|s| - 1])
  }

  lemma {:induction false} DecimalReads(n: nat)
    ensures var s := Decimal(n);
            && s != "" && (forall c :: c in s ==> Digit(c)) && ReadNumber(s, 10) == n
            && (s[0] == '0' ==> n == 0 && s == "0")
  {
    var s := Decimal(n);
    if n < 10 {
      assert ReadNumber(s[..0], 10) == 0;
    } else {
      DecimalReads(n / 10);
      assert s[..|s| - 1] == Decimal(n / 10);
    }
  }

  function DigitChar(d: nat): char
    requires d < 16
  {
    if d < 10 then ('0' as int + d) as char else ('a' as int + (d - 10)) as char
  }

  function OctalText(n: nat): string {
    if n < 8 then [DigitChar(n)] else OctalText(n / 8) + [DigitChar(n % 8)]
  }

  function HexText(n: nat): string {
    if n < 16 then [DigitChar(n)] else HexText(n / 16) + [DigitChar(n % 16)]
  }

  lemma DigitReads(d: nat)
    requires d < 16
    ensures DigitValue(DigitChar(d)) == d && Hex(DigitChar(d)) && (d < 8 ==> Octal(DigitChar(d)))
  {
  }

  lemma OneDigit(c: char, radix: nat)
    ensures ReadNumber([c], radix) == DigitValue(c)
  {
    assert [c][..0] == "" && ReadNumber("", radix) == 0;
  }

  lemma AppendDigit(s: string, c: char, radix: nat)
    ensures ReadNumber(s + [c], radix) == ReadNumber(s, radix) * radix + DigitValue(c)
  {
    assert (s + [c])[..|s|] == s;
  }

  lemma {:induction false} OctalReads(n: nat)
    ensures var s := OctalText(n); s != "" && ReadNumber(s, 8) == n && forall i :: 0 <= i < |s| ==> Octal(s[i])
  {
    DigitReads(n % 8);
    if n < 8 {
      OneDigit(DigitChar(n), 8);
    } else {
      OctalReads(n / 8);
      AppendDigit(OctalText(n / 8), DigitChar(n % 8), 8);
    }
  }

  lemma {:induction false} HexReads(n: nat)
    ensures var s := HexText(n); s != "" && ReadNumber(s, 16) == n && forall i :: 0 <= i < |s| ==> Hex(s[i])
  {
    DigitReads(n % 16);
    if n < 16 {
      OneDigit(DigitChar(n), 16);
    } else {
      HexReads(n / 16);
      AppendDigit(HexText(n / 16), DigitChar(n % 16), 16);
    }
  }

  /** A leading zero does not change the number. */
  lemma {:induction false} LeadingZero(s: string, radix: nat)
    ensures ReadNumber("0" + s, radix) == ReadNumber(s, radix)
  {
    var t := "0" + s;
    if s == "" {
      assert t == "0" && t[..0] == "";
      assert ReadNumber(t[..0], radix) == 0;
    } else {
      assert t[..|t| - 1] == "0" + s[..|s| - 1];
      LeadingZero(s[..|s| - 1], radix);
    }
  }

  lemma DecimalInjective(a: nat, b: nat)
    requires Decimal(a) == Decimal(b)
    ensures a == b
  {
    DecimalReads(a);
    DecimalReads(b);
  }

  // ---------- 32-bit operators ----------

  const TWO_32: nat := 0x1_0000_0000

  function Pow2(n: nat): (r: nat)
    ensures r > 0
  {
    if n == 0 then 1 else 2 * Pow2(n - 1)
  }

  function ToUint32(x: int): (r: nat)
    ensures r < TWO_32
  {
    x % TWO_32
  }

  function ToInt32(x: int): int {
    var u := ToUint32(x);
    if u >= 0x8000_0000 then u - TWO_32 else u
  }

  /** `x << k`, a signed result. */
  function Shl(x: int, k: nat): int { ToInt32(ToInt32(x) * Pow2(k)) }

  /** `x >>> k`, an unsigned result. */
  function Shr(x: int, k: nat): int { ToUint32(x) / Pow2(k) }

  /** Bit by bit, from the low end. */
  function OrBits(a: nat, b: nat, n: nat): nat {
    if n == 0 then 0 else (if a % 2 == 1 || b % 2 == 1 then 1 else 0) + 2 * OrBits(a / 2, b / 2, n - 1)
  }

  function AndBits(a: nat, b: nat, n: nat): nat {
    if n == 0 then 0 else (if a % 2 == 1 && b % 2 == 1 then 1 else 0) + 2 * AndBits(a / 2, b / 2, n - 1)
  }

  function Or(x: int, y: int): int { ToInt32(OrBits(ToUint32(x), ToUint32(y), 32)) }

  function And(x: int, y: int): int { ToInt32(AndBits(ToUint32(x), ToUint32(y), 32)) }

  lemma Powers()
    ensures Pow2(8) == 0x100 && Pow2(16) == 0x1_0000 && Pow2(24) == 0x100_0000 && Pow2(32) == TWO_32
  {
    assert Pow2(4) == 2 * (2 * (2 * (2 * Pow2(0))));
    assert Pow2(8) == 2 * (2 * (2 * (2 * Pow2(4))));
    assert Pow2(12) == 2 * (2 * (2 * (2 * Pow2(8))));
    assert Pow2(16) == 2 * (2 * (2 * (2 * Pow2(12))));
    assert Pow2(20) == 2 * (2 * (2 * (2 * Pow2(16))));
    assert Pow2(24) == 2 * (2 * (2 * (2 * Pow2(20))));
    assert Pow2(28) == 2 * (2 * (2 * (2 * Pow2(24))));
    assert Pow2(32) == 2 * (2 * (2 * (2 * Pow2(28))));
  }

  lemma HalfOfMultiple(a: nat, q: nat, p: nat)
    requires a == q * (2 * p)
    ensures a % 2 == 0 && a / 2 == q * p
  {
    assert a == 2 * (q * p);
  }

  /** Where no bit is set on both sides, `|` adds. */
  lemma {:induction false} OrAdds(q: nat, b: nat, k: nat, n: nat)
    requires k <= n && b < Pow2(k) && q < Pow2(n - k)
    ensures OrBits(q * Pow2(k), b, n) == q * Pow2(k) + b
    decreases n
  {
    var a := q * Pow2(k);
    if n > 0 {
      if k == 0 {
        OrZero(q, n);
      } else {
        HalfOfMultiple(a, q, Pow2(k - 1));
        OrAdds(q, b / 2, k - 1, n - 1);
      }
    }
  }

  lemma {:induction false} OrZero(a: nat, n: nat)
    requires a < Pow2(n)
    ensures OrBits(a, 0, n) == a
  {
    if n > 0 { OrZero(a / 2, n - 1); }
  }

  /** Masking with the low `k` bits is the remainder. */
  lemma {:induction false} AndMasks(a: nat, k: nat, n: nat)
    requires k <= n && a < Pow2(n)
    ensures AndBits(a, Pow2(k) - 1, n) == a % Pow2(k)
    decreases n
  {
    if k == 0 {
      AndZero(a, n);
      assert a % 1 == 0;
    } else {
      assert (Pow2(k) - 1) % 2 == 1 && (Pow2(k) - 1) / 2 == Pow2(k - 1) - 1;
      AndMasks(a / 2, k - 1, n - 1);
      HalvesMod(a, Pow2(k - 1));
    }
  }

  lemma {:induction false} AndZero(a: nat, n: nat)
    ensures AndBits(a, 0, n) == 0
  {
    if n > 0 { AndZero(a / 2, n - 1); }
  }

  lemma HalvesMod(a: nat, p: nat)
    requires p > 0
    ensures a % (2 * p) == a % 2 + 2 * ((a / 2) % p)
  {
    var h := a / 2;
    assert h == p * (h / p) + h % p;
    assert a == 2 * h + a % 2;
    assert a == (2 * p) * (h / p) + (2 * (h % p) + a % 2);
    ModUnique(a, 2 * p, h / p, 2 * (h % p) + a % 2);
  }

  lemma ModUnique(a: nat, m: nat, q: nat, r: nat)
    requires m > 0 && a == m * q + r && r < m
    ensures a % m == r && a / m == q
  {
    var d := a / m - q;
    assert m * d == r - a % m by { assert m * d == m * (a / m) - m * q; }
    AtLeastOne(m, d);
  }

  lemma AtLeastOne(m: nat, d: int)
    ensures d >= 1 ==> m * d >= m
    ensures d <= -1 ==> m * d + m <= 0
  {
    if d >= 1 { assert m * d == m + m * (d - 1); }
    if d <= -1 { assert m * d == m * (d + 1) - m; }
  }

  /** Converting to signed and back loses nothing. */
  lemma SignRoundTrip(x: int)
    ensures ToUint32(ToInt32(x)) == ToUint32(x)
  {
    var u := ToUint32(x);
    if u >= 0x8000_0000 { assert (u - TWO_32) % TWO_32 == u; }
  }

  /** A byte in the top position, whatever its sign becomes. */
  lemma ShlByte(x: nat, k: nat)
    requires x < 256 && k in {8, 16, 24}
    ensures ToUint32(Shl(x, k)) == x * Pow2(k)
  {
    Powers();
    ByteFits(x, Pow2(k));
    SignRoundTrip(x * Pow2(k));
    SmallWord(x);
    SmallWord(x * Pow2(k));
  }

  lemma ByteFits(x: nat, p: nat)
    requires x < 256 && p <= 0x100_0000
    ensures x * p < TWO_32 && ToInt32(x) == x
  {
    assert x * p <= 255 * p;
  }

  lemma OrUnsigned(x: int, y: int, q: nat, k: nat)
    requires k in {8, 16, 24} && ToUint32(x) == q * Pow2(k) && q < Pow2(32 - k) && ToUint32(y) < Pow2(k)
    ensures ToUint32(Or(x, y)) == q * Pow2(k) + ToUint32(y)
  {
    OrAdds(q, ToUint32(y), k, 32);
    FitsWord(q, ToUint32(y), k);
    SmallOr(x, y, q * Pow2(k) + ToUint32(y));
  }

  lemma FitsWord(q: nat, b: nat, k: nat)
    requires k in {8, 16, 24} && q < Pow2(32 - k) && b < Pow2(k)
    ensures q * Pow2(k) + b < TWO_32
  {
    Powers();
  }

  lemma SmallOr(x: int, y: int, sum: nat)
    requires OrBits(ToUint32(x), ToUint32(y), 32) == sum < TWO_32
    ensures ToUint32(Or(x, y)) == sum
  {
    SignRoundTrip(sum);
  }

  lemma AndByte(x: nat)
    requires x < TWO_32
    ensures And(x, 0xff) == x % 256
  {
    Powers();
    AndMasks(x, 8, 32);
    SmallWord(x);
    SmallWord(0xff);
  }

  lemma SmallWord(x: nat)
    requires x < TWO_32
    ensures ToUint32(x) == x
  {
  }
}
