/** Bytes and the little-endian unsigned fields of binary headers (Python's `struct` codes `H` and `I`). */
module Bytes {

  type Byte = b: int | 0 <= b < 256

  const U16Limit: int := 0x1_0000
  const U32Limit: int := 0x1_0000_0000

  /** `struct.pack("<H", n)`. */
  function U16LE(n: int): (r: seq<Byte>)
    requires 0 <= n < U16Limit
    ensures |r| == 2
  {
    [n % 256, n / 256]
  }

  /** `struct.pack("<I", n)`. */
  function U32LE(n: int): (r: seq<Byte>)
    requires 0 <= n < U32Limit
    ensures |r| == 4
  {
    [n % 256, (n / 256) % 256, (n / 0x1_0000) % 256, n / 0x100_0000]
  }

  /** The little-endian 16-bit value at offset `k`. */
  function ReadU16(b: seq<Byte>, k: nat): int
    requires k + 2 <= |b|
  {
    b[k] as int + 256 * b[k + 1] as int
  }

  /** The little-endian 32-bit value at offset `k`. */
  function ReadU32(b: seq<Byte>, k: nat): int
    requires k + 4 <= |b|
  {
    b[k] as int + 256 * b[k + 1] as int + 0x1_0000 * b[k + 2] as int + 0x100_0000 * b[k + 3] as int
  }

  lemma U16RoundTrip(n: int)
    requires 0 <= n < U16Limit
    ensures ReadU16(U16LE(n), 0) == n
  {
  }

  lemma U32RoundTrip(n: int)
    requires 0 <= n < U32Limit
    ensures ReadU32(U32LE(n), 0) == n
  {
    var b := U32LE(n);
    var q1 := n / 256;
    var q2 := q1 / 256;
    assert n == b[0] as int + 256 * q1;
    assert q1 == b[1] as int + 256 * q2;
    assert q2 == b[2] as int + 256 * b[3] as int by {
      assert n / 0x1_0000 == q2;
      assert n / 0x100_0000 == q2 / 256;
    }
  }

  /** A field read inside `x` is unaffected by what follows `x`, and one read inside `y` by what precedes it. */
  lemma ReadInConcat(x: seq<Byte>, y: seq<Byte>, k: nat)
    ensures k + 2 <= |x| ==> ReadU16(x + y, k) == ReadU16(x, k)
    ensures k + 4 <= |x| ==> ReadU32(x + y, k) == ReadU32(x, k)
    ensures k + 2 <= |y| ==> ReadU16(x + y, |x| + k) == ReadU16(y, k)
    ensures k + 4 <= |y| ==> ReadU32(x + y, |x| + k) == ReadU32(y, k)
  {
  }

  /** The bytes of an ASCII tag such as "RIFF". */
  function Ascii(s: string): (r: seq<Byte>)
    requires forall i :: 0 <= i < |s| ==> s[i] as int < 256
    ensures |r| == |s| && forall i :: 0 <= i < |s| ==> r[i] == s[i] as int
  {
    seq(|s|, i requires 0 <= i < |s| => s[i] as int)
  }
}
