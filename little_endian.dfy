/**
 * Octets and the little-endian integer codecs the drive code relies on:
 * `int.from_bytes(bs, 'little', signed=True)`, `n.to_bytes(2, 'little', signed=True)`,
 * `struct.pack('<h', n)` and `struct.pack('<H', n)`.
 */
module LittleEndian {

  /** One element of a Python `bytes` object. */
  type byte = x: int | 0 <= x < 256

  function Pow256(n: nat): (r: nat)
    ensures r >= 1
  {
    if n == 0 then 1 else 256 * Pow256(n - 1)
  }

  /** Unsigned little-endian value: the first byte is the least significant. */
  function UnsignedValue(bs: seq<byte>): nat
  {
    if bs == [] then 0 else bs[0] + 256 * UnsignedValue(bs[1..])
  }

  /** `int.from_bytes(bs, 'little', signed=True)`: two's complement over all |bs| bytes. */
  function SignedValue(bs: seq<byte>): int
  {
    if |bs| > 0 && bs[|bs| - 1] >= 128 then UnsignedValue(bs) - Pow256(|bs|) else UnsignedValue(bs)
  }

  predicate InInt16Range(x: int)
  {
    -32768 <= x < 32768
  }

  /** `struct.pack('<H', u)` for a u that fits in 16 bits. */
  function Uint16LE(u: int): (r: seq<byte>)
    requires 0 <= u < 65536
    ensures |r| == 2
  {
    [u % 256, u / 256]
  }

  /** `struct.pack('<h', x)` and `x.to_bytes(2, 'little', signed=True)` for an x that fits. */
  function Int16LE(x: int): (r: seq<byte>)
    requires InInt16Range(x)
    ensures |r| == 2
  {
    Uint16LE(x % 65536)
  }

  lemma TwoByteValues(a: byte, b: byte)
    ensures UnsignedValue([a, b]) == a + 256 * b
    ensures SignedValue([a, b]) == if b >= 128 then a + 256 * b - 65536 else a + 256 * b
  {
    assert [a, b][1..] == [b];
    assert [b][1..] == [];
    assert UnsignedValue([b]) == b + 256 * UnsignedValue([]);
    assert Pow256(2) == 65536 by {
      assert Pow256(1) == 256 * Pow256(0);
    }
  }

  lemma Uint16RoundTrip(u: int)
    requires 0 <= u < 65536
    ensures UnsignedValue(Uint16LE(u)) == u
  {
    TwoByteValues(u % 256, u / 256);
  }

  /** Encoding a 16-bit value and decoding it as signed gives it back. */
  lemma Int16RoundTrip(x: int)
    requires InInt16Range(x)
    ensures SignedValue(Int16LE(x)) == x
  {
    var u := x % 65536;
    TwoByteValues(u % 256, u / 256);
  }

  /** Every two bytes decode to a 16-bit value, and re-encoding that value gives the same two bytes. */
  lemma TwoByteDecodeRoundTrip(bs: seq<byte>)
    requires |bs| == 2
    ensures InInt16Range(SignedValue(bs))
    ensures Int16LE(SignedValue(bs)) == bs
  {
    assert bs == [bs[0], bs[1]];
    TwoByteValues(bs[0], bs[1]);
  }
}
