/** Bytes and the fixed-width big-endian integers of Node's Buffer. */
module Bytes {
  newtype byte = x: int | 0 <= x < 256

  type bytes = seq<byte>

  const U32_MAX: nat := 0xffff_ffff
  const U64_MAX: nat := 0xffff_ffff_ffff_ffff

  /** The `width` low-order bytes of `n`, most significant first. */
  function BigEndian(n: nat, width: nat): (r: bytes)
    ensures |r| == width
  {
    if width == 0 then [] else BigEndian(n / 256, width - 1) + [(n % 256) as byte]
  }

  function ReadBigEndian(b: bytes): nat {
    if b == [] then 0 else ReadBigEndian(b[..|b| - 1]) * 256 + b[|b| - 1] as nat
  }

  function Pow256(n: nat): (r: nat)
    ensures r > 0
  {
    if n == 0 then 1 else 256 * Pow256(n - 1)
  }

  lemma {:induction false} WriteThenRead(n: nat, width: nat)
    requires n < Pow256(width)
    ensures ReadBigEndian(BigEndian(n, width)) == n
  {
    if width > 0 {
      WriteThenRead(n / 256, width - 1);
      var b := BigEndian(n, width);
      assert b[..|b| - 1] == BigEndian(n / 256, width - 1);
    }
  }

  lemma {:induction false} ReadThenWrite(b: bytes)
    ensures ReadBigEndian(b) < Pow256(|b|)
    ensures BigEndian(ReadBigEndian(b), |b|) == b
  {
    if b != [] {
      var n := |b| - 1;
      var high, low := ReadBigEndian(b[..n]), b[n] as nat;
      ReadThenWrite(b[..n]);
      assert ReadBigEndian(b) == high * 256 + low;
      assert (high * 256 + low) / 256 == high && (high * 256 + low) % 256 == low;
      assert b == b[..n] + [b[n]];
    }
  }

  lemma FixedWidths()
    ensures Pow256(4) == U32_MAX + 1
    ensures Pow256(8) == U64_MAX + 1
  {
    assert Pow256(4) == 256 * (256 * (256 * (256 * Pow256(0))));
    assert Pow256(8) == 256 * (256 * (256 * (256 * Pow256(4))));
  }
}
