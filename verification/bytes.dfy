/** Fixed-width machine values and the little-endian uint32 layout written by
    `binary.LittleEndian.PutUint32` in hashcache.go. */
module Bytes {

  type byte = x: int | 0 <= x < 0x100

  type uint32 = x: int | 0 <= x < 0x1_0000_0000

  type int64 = x: int | -0x8000_0000_0000_0000 <= x < 0x8000_0000_0000_0000

  /** A 32-byte value: a transaction id (`chainhash.Hash`) or a digest. */
  type Hash32 = s: seq<byte> | |s| == 32 witness ZeroHash()

  /** The zero value of a Go `chainhash.Hash`. */
  function ZeroHash(): (z: seq<byte>)
    ensures |z| == 32 && forall i :: 0 <= i < 32 ==> z[i] == 0
  {
    seq(32, _ => 0)
  }

  /** 256 to the power `n`: the number of values `n` bytes can hold. */
  function Pow256(n: nat): (p: nat)
    ensures p > 0
  {
    if n == 0 then 1 else 0x100 * Pow256(n - 1)
  }

  /** The low `n` bytes of `x`, least significant byte first. */
  function LeBytes(x: nat, n: nat): (r: seq<byte>)
    ensures |r| == n
  {
    if n == 0 then [] else [x % 0x100] + LeBytes(x / 0x100, n - 1)
  }

  /** Reads bytes as an unsigned integer, least significant byte first. */
  function LeValue(b: seq<byte>): nat {
    if |b| == 0 then 0 else b[0] + 0x100 * LeValue(b[1..])
  }

  /** `n` bytes hold values below `Pow256(n)`. */
  lemma {:induction false} LeValueBound(b: seq<byte>)
    ensures LeValue(b) < Pow256(|b|)
  {
    if |b| > 0 {
      LeValueBound(b[1..]);
    }
  }

  /** A value that fits in `n` bytes is read back from its `n` bytes. */
  lemma {:induction false} LeValueOfLeBytes(x: nat, n: nat)
    requires x < Pow256(n)
    ensures LeValue(LeBytes(x, n)) == x
  {
    if n > 0 {
      var r := LeBytes(x, n);
      assert r[1..] == LeBytes(x / 0x100, n - 1);
      LeValueOfLeBytes(x / 0x100, n - 1);
    }
  }

  /** Bytes are written back exactly as they were read. */
  lemma {:induction false} LeBytesOfLeValue(b: seq<byte>)
    ensures LeBytes(LeValue(b), |b|) == b
  {
    if |b| > 0 {
      var v := LeValue(b[1..]);
      assert (b[0] + 0x100 * v) % 0x100 == b[0];
      assert (b[0] + 0x100 * v) / 0x100 == v;
      LeBytesOfLeValue(b[1..]);
    }
  }

  /** `binary.LittleEndian.Uint32`: four bytes, least significant first. */
  function Uint32FromBytes(b: seq<byte>): (x: uint32)
    requires |b| == 4
  {
    LeValueBound(b);
    LeValue(b)
  }

  /** `binary.LittleEndian.PutUint32`: the four bytes stored for `x`, least
      significant first.  Reading them back gives `x`. */
  function Uint32ToBytes(x: uint32): (r: seq<byte>)
    ensures |r| == 4
    ensures Uint32FromBytes(r) == x
  {
    LeValueOfLeBytes(x, 4);
    LeBytes(x, 4)
  }

  /** Every four-byte string is the encoding of the value it decodes to, so
      the encoding is onto and decoding is its exact inverse. */
  lemma BytesRoundTrip(b: seq<byte>)
    requires |b| == 4
    ensures Uint32ToBytes(Uint32FromBytes(b)) == b
  {
    LeBytesOfLeValue(b);
  }

  /** Distinct values have distinct encodings. */
  lemma Uint32ToBytesInjective(x: uint32, y: uint32)
    ensures Uint32ToBytes(x) == Uint32ToBytes(y) <==> x == y
  {
  }

  /** The encoding is least significant byte first: index 1 is `01 00 00 00`,
      not `00 00 00 01`, and the most significant byte is written last. */
  lemma LittleEndianExamples()
    ensures Uint32ToBytes(1) == [1, 0, 0, 0]
    ensures Uint32ToBytes(0x0403_0201) == [1, 2, 3, 4]
    ensures Uint32ToBytes(0xff00_0000) == [0, 0, 0, 0xff]
  {
  }
}
