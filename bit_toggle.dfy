/**
 * test.py: read parameter N41 as a signed little-endian integer, set or clear its
 * bit 1 with `current | mask` / `current & ~mask` where `mask = 1 << BIT_NUM`, and
 * write the result back as two signed little-endian bytes.
 *
 * Python integers are unbounded two's complement, so a bit of a negative number is
 * well defined; `Bit` reads it with floor division, which Dafny's `/` by 2 is.
 */
module BitToggle {

  import opened Wrappers
  import opened LittleEndian

  const ParamNum: nat := 41
  const BitNum: nat := 1

  function Pow2(k: nat): (r: nat)
    ensures r >= 1
  {
    if k == 0 then 1 else 2 * Pow2(k - 1)
  }

  /** `1 << k` */
  function Mask(k: nat): nat
  {
    Pow2(k)
  }

  /** Bit k of x in two's complement. */
  function Bit(x: int, k: nat): (b: int)
    ensures b == 0 || b == 1
    decreases k
  {
    if k == 0 then x % 2 else Bit(x / 2, k - 1)
  }

  /** `x | (1 << k)`: add the mask when bit k is clear. */
  function SetBit(x: int, k: nat): int
  {
    if Bit(x, k) == 1 then x else x + Pow2(k)
  }

  /** `x & ~(1 << k)`: subtract the mask when bit k is set. */
  function ClearBit(x: int, k: nat): int
  {
    if Bit(x, k) == 1 then x - Pow2(k) else x
  }

  lemma MaskOfBitNum()
    ensures Mask(BitNum) == 2
  {
  }

  /** Adding or removing 2 * m shifts the half by m and keeps the lowest bit. */
  lemma HalfOfShift(x: int, m: int)
    ensures (x + 2 * m) / 2 == x / 2 + m && (x + 2 * m) % 2 == x % 2
  {
  }

  /** Setting bit k makes it 1 and leaves every other bit as it was. */
  lemma {:induction false} SetBitBits(x: int, k: nat, j: nat)
    ensures Bit(SetBit(x, k), j) == if j == k then 1 else Bit(x, j)
    decreases k
  {
    if Bit(x, k) == 1 {
    } else if k == 0 {
      assert SetBit(x, 0) == x + 1;
      assert x % 2 == 0;
      if j > 0 {
        assert (x + 1) / 2 == x / 2;
      }
    } else {
      HalfOfShift(x, Pow2(k - 1));
      assert SetBit(x, k) / 2 == SetBit(x / 2, k - 1);
      if j > 0 {
        SetBitBits(x / 2, k - 1, j - 1);
      }
    }
  }

  /** Clearing bit k makes it 0 and leaves every other bit as it was. */
  lemma {:induction false} ClearBitBits(x: int, k: nat, j: nat)
    ensures Bit(ClearBit(x, k), j) == if j == k then 0 else Bit(x, j)
    decreases k
  {
    if Bit(x, k) == 0 {
    } else if k == 0 {
      assert ClearBit(x, 0) == x - 1;
      assert x % 2 == 1;
      if j > 0 {
        assert (x - 1) / 2 == x / 2;
      }
    } else {
      HalfOfShift(x, -(Pow2(k - 1) as int));
      assert ClearBit(x, k) / 2 == ClearBit(x / 2, k - 1);
      if j > 0 {
        ClearBitBits(x / 2, k - 1, j - 1);
      }
    }
  }

  /** Two integers with the same bits are equal, so the bit lemmas pin the results down. */
  lemma {:induction false} BitsDetermineValue(x: int, y: int)
    requires forall j: nat :: Bit(x, j) == Bit(y, j)
    ensures x == y
    decreases (if x < 0 then -x else x) + (if y < 0 then -y else y)
  {
    assert Bit(x, 0) == Bit(y, 0);
    if !((x == 0 || x == -1) && (y == 0 || y == -1)) {
      forall j: nat
        ensures Bit(x / 2, j) == Bit(y / 2, j)
      {
        assert Bit(x, j + 1) == Bit(y, j + 1);
      }
      BitsDetermineValue(x / 2, y / 2);
    }
  }

  /** `x | (1 << k)` is the integer whose bit k is 1 and whose other bits are those of x. */
  lemma SetBitIsOr(x: int, k: nat, y: int)
    requires forall j: nat :: Bit(y, j) == if j == k then 1 else Bit(x, j)
    ensures y == SetBit(x, k)
  {
    forall j: nat
      ensures Bit(y, j) == Bit(SetBit(x, k), j)
    {
      SetBitBits(x, k, j);
    }
    BitsDetermineValue(y, SetBit(x, k));
  }

  /** `x & ~(1 << k)` is the integer whose bit k is 0 and whose other bits are those of x. */
  lemma ClearBitIsAndNot(x: int, k: nat, y: int)
    requires forall j: nat :: Bit(y, j) == if j == k then 0 else Bit(x, j)
    ensures y == ClearBit(x, k)
  {
    forall j: nat
      ensures Bit(y, j) == Bit(ClearBit(x, k), j)
    {
      ClearBitBits(x, k, j);
    }
    BitsDetermineValue(y, ClearBit(x, k));
  }

  lemma SetIdempotent(x: int, k: nat)
    ensures SetBit(SetBit(x, k), k) == SetBit(x, k)
  {
    SetBitBits(x, k, k);
  }

  lemma ClearIdempotent(x: int, k: nat)
    ensures ClearBit(ClearBit(x, k), k) == ClearBit(x, k)
  {
    ClearBitBits(x, k, k);
  }

  /** Clearing after setting is the same as clearing. */
  lemma ClearAfterSet(x: int, k: nat)
    ensures ClearBit(SetBit(x, k), k) == ClearBit(x, k)
  {
    SetBitBits(x, k, k);
  }

  /** Setting or clearing bit 1 of a 16-bit value stays in the 16-bit range. */
  lemma Bit1StaysInInt16(x: int)
    requires InInt16Range(x)
    ensures InInt16Range(SetBit(x, BitNum)) && InInt16Range(ClearBit(x, BitNum))
  {
    assert Bit(x, 1) == (x / 2) % 2;
  }

  datatype ReadResponse = ReadResponse(value: seq<byte>, error: Option<string>)

  datatype ScriptError =
    | ReadFailed(message: string)   // the read reported an error: the script exits
    | WriteOverflow(value: int)     // `to_bytes(2, ...)` raised OverflowError

  /** The new parameter value: bit BIT_NUM of the current value set or cleared. */
  function NewValue(current: int, setBit: bool): int
  {
    if setBit then SetBit(current, BitNum) else ClearBit(current, BitNum)
  }

  /** The two bytes the script writes back, or why it stops first. */
  function WriteBackRequest(response: ReadResponse, setBit: bool): (r: Result<seq<byte>, ScriptError>)
    ensures response.error.Some? ==> r == Failure(ReadFailed(response.error.value))
    ensures r.Success? ==> |r.value| == 2 && SignedValue(r.value) == NewValue(SignedValue(response.value), setBit)
    ensures response.error.None? && |response.value| == 2 ==> r.Success?
    ensures response.error.None? ==> (r.Success? <==> InInt16Range(NewValue(SignedValue(response.value), setBit)))
    ensures response.error.None? && r.Failure? ==> r.error == WriteOverflow(NewValue(SignedValue(response.value), setBit))
  {
    if response.error.Some? then
      Failure(ReadFailed(response.error.value))
    else
      var current := SignedValue(response.value);
      var newValue := NewValue(current, setBit);
      if InInt16Range(newValue) then
        Int16RoundTrip(newValue);
        Success(Int16LE(newValue))
      else
        if |response.value| == 2 then
          TwoByteDecodeRoundTrip(response.value);
          Bit1StaysInInt16(current);
          assert false;
          Failure(WriteOverflow(newValue))
        else
          Failure(WriteOverflow(newValue))
  }

  /** A two-byte read that is written back changes only bit 1 of the parameter. */
  lemma WriteBackChangesOnlyBit1(response: ReadResponse, setBit: bool, j: nat)
    requires response.error.None? && |response.value| == 2
    ensures var r := WriteBackRequest(response, setBit);
      r.Success? && Bit(SignedValue(r.value), j) ==
        if j == BitNum then (if setBit then 1 else 0) else Bit(SignedValue(response.value), j)
  {
    var current := SignedValue(response.value);
    SetBitBits(current, BitNum, j);
    ClearBitBits(current, BitNum, j);
  }
}
