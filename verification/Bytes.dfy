/** Bytes, 32-bit unsigned arithmetic and little-endian fields, as the driver and the agent share them. */
module Bytes {

  type byte = x: int | 0 <= x < 256
  type bytes = seq<byte>

  const U32_MOD := 0x1_0000_0000

  /** ULONG addition: the sum wraps modulo 2^32. */
  function AddU32(a: nat, b: nat): nat {
    if a + b < U32_MOD then a + b else (a + b) % U32_MOD
  }

  /** The little-endian ULONG stored at offset `at`. */
  function U32At(b: bytes, at: nat): nat
    requires at + 4 <= |b|
  {
    var b0: int, b1: int, b2: int, b3: int := b[at], b[at + 1], b[at + 2], b[at + 3];
    b0 + 0x100 * b1 + 0x1_0000 * b2 + 0x100_0000 * b3
  }

  /** The four bytes of a ULONG, least significant first. */
  function U32Bytes(n: nat): (b: bytes)
    requires n < U32_MOD
    ensures |b| == 4 && U32At(b, 0) == n
  {
    var q1 := n / 0x100;
    var q2 := q1 / 0x100;
    [n % 0x100, q1 % 0x100, q2 % 0x100, q2 / 0x100]
  }

  /** The ULONG at an offset is the one number below 2^32 whose k-th byte, its quotient by 256^k modulo 256, is stored k
      bytes further on. */
  lemma U32AtBytes(b: bytes, at: nat, n: nat)
    requires at + 4 <= |b| && n < U32_MOD
    ensures n == U32At(b, at) <==>
            b[at] == n % 0x100 && b[at + 1] == n / 0x100 % 0x100 && b[at + 2] == n / 0x1_0000 % 0x100
            && b[at + 3] == n / 0x100_0000
  {
    Quotients(n);
    var b0: int, b1: int, b2: int, b3: int := b[at], b[at + 1], b[at + 2], b[at + 3];
    if n == U32At(b, at) {
      LowByte(b0, b1 + 0x100 * b2 + 0x1_0000 * b3);
      LowByte(b1, b2 + 0x100 * b3);
      LowByte(b2, b3);
    }
  }

  lemma LowByte(low: byte, rest: nat)
    ensures (low + 0x100 * rest) % 0x100 == low && (low + 0x100 * rest) / 0x100 == rest
  {
  }

  lemma Quotients(n: nat)
    ensures n / 0x1_0000 == n / 0x100 / 0x100 && n / 0x100_0000 == n / 0x100 / 0x100 / 0x100
  {
  }
}
