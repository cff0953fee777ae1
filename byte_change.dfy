/**
 * The speed-byte helpers of byteChange.py: `get_high_byte` and `get_low_byte`
 * split an integer into the two bytes of its 16-bit little-endian form, and the
 * module-level `prepControls2` request appends them to a fixed 32-byte prefix.
 *
 * Python's `v >> 8` is a floor shift and `v & 0xFF` is the non-negative residue,
 * also for negative v; Dafny's `/` and `%` by a positive constant are the same.
 */
module ByteChange {

  import opened LittleEndian

  /** `bytes([(value >> 8) & 0xFF])` */
  function GetHighByte(value: int): (r: seq<byte>)
    ensures |r| == 1
  {
    [(value / 256) % 256]
  }

  /** `bytes([value & 0xFF])` */
  function GetLowByte(value: int): (r: seq<byte>)
    ensures |r| == 1
  {
    [value % 256]
  }

  /** Division facts by 256 used by the lemmas below. */
  lemma ShiftByMultiple(a: int, q: int)
    ensures (a + 256 * q) % 256 == a % 256
    ensures (a + 256 * q) / 256 == a / 256 + q
  {
    var r := a % 256;
    assert a == 256 * (a / 256) + r;
    assert a + 256 * q == 256 * (a / 256 + q) + r;
  }

  /** For a 16-bit value the pair is a lossless split: low + 256 * high gives the value back. */
  lemma SplitJoin(v: int)
    requires 0 <= v < 65536
    ensures GetLowByte(v)[0] as int + 256 * GetHighByte(v)[0] as int == v
  {
  }

  /** The pair is exactly the unsigned 16-bit little-endian encoding of a 16-bit value. */
  lemma SplitIsUint16LE(v: int)
    requires 0 <= v < 65536
    ensures GetLowByte(v) + GetHighByte(v) == Uint16LE(v)
  {
  }

  /** Splitting what two bytes denote gives the same two bytes back. */
  lemma JoinSplit(lo: byte, hi: byte)
    ensures GetLowByte(lo + 256 * hi) == [lo]
    ensures GetHighByte(lo + 256 * hi) == [hi]
  {
    ShiftByMultiple(lo, hi);
    assert (lo + 256 * hi) / 256 == hi;
  }

  /**
   * For any integer, negative ones included, low + 256 * high agrees with the value
   * modulo 65536: the pair is the value's 16-bit little-endian form.
   */
  lemma SplitCongruent(v: int)
    ensures (v - (GetLowByte(v)[0] as int + 256 * GetHighByte(v)[0] as int)) % 65536 == 0
  {
    var q := v / 256;
    assert v == 256 * q + v % 256;
    assert q == 256 * (q / 256) + q % 256;
    assert v - (v % 256 + 256 * (q % 256)) == 65536 * (q / 256);
  }

  /** Values that differ by a multiple of 65536 give the same pair. */
  lemma SplitPeriodic(v: int, k: int)
    ensures GetLowByte(v + 65536 * k) == GetLowByte(v)
    ensures GetHighByte(v + 65536 * k) == GetHighByte(v)
  {
    ShiftByMultiple(v, 256 * k);
    assert (v + 65536 * k) / 256 == v / 256 + 256 * k;
    ShiftByMultiple(v / 256, k);
  }

  /** A negative value is split as its two's complement form: -1 becomes 0xFF, 0xFF. */
  lemma NegativeOneSplit()
    ensures GetLowByte(-1) == [0xFF] && GetHighByte(-1) == [0xFF]
  {
  }

  /** The speed the script sends, in 0.01 Hz units: 60.00 Hz. */
  const Speed: int := 6000

  /** The 32 fixed bytes of `prepControls2` before the speed. */
  const PrepControls2Prefix: seq<byte> :=
    [0x07, 0x4D, 0x00, 0x31, 0x55, 0x8b, 0x09, 0x0f, 0x00, 0x03, 0xe9, 0x67, 0x00, 0x00, 0x03, 0x00,
     0x00, 0x24, 0x4E, 0x34, 0x31, 0x3A, 0x30, 0x00, 0x99, 0x09, 0x07, 0x42, 0x00, 0x00, 0x00, 0x00]

  /** The request: the prefix, then the low byte, then the high byte of the speed. */
  function PrepControls2(speed: int): (r: seq<byte>)
    ensures |r| == 34 && r[..32] == PrepControls2Prefix
    ensures r[32..] == GetLowByte(speed) + GetHighByte(speed)
    ensures (speed - UnsignedValue(r[32..])) % 65536 == 0
  {
    var r := PrepControls2Prefix + GetLowByte(speed) + GetHighByte(speed);
    assert r[32..] == [GetLowByte(speed)[0], GetHighByte(speed)[0]];
    TwoByteValues(GetLowByte(speed)[0], GetHighByte(speed)[0]);
    SplitCongruent(speed);
    r
  }

  /** With the script's speed 6000 = 0x1770 the request ends in 0x70, 0x17. */
  lemma PrepControls2Example()
    ensures GetLowByte(Speed) == [0x70] && GetHighByte(Speed) == [0x17]
    ensures PrepControls2(Speed)[32..] == [0x70, 0x17]
  {
  }
}
