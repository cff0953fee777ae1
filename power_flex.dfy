/**
 * The byte-level part of AB525.py's `PowerFlex525` drive wrapper: the speed bytes
 * in 0.01 Hz units, the three PCCC start/stop requests and their 20-round send loop,
 * the `speed`/`toggleState` fields, and the choice of write formats in
 * `write_param_diagnostic`. Every send through the CIP driver is modelled by the
 * payload it is handed; whether a send raises is a parameter.
 */
module PowerFlex {

  import opened Wrappers
  import opened LittleEndian
  import opened PyInt
  import ByteChange

  /** The drive takes frequencies in 0.01 Hz units, so the byte helpers scale by 100. */
  const SpeedScale: int := 100

  /** `bytes([((value * 100) >> 8) & 0xFF])` */
  function GetHighByte(value: int): (r: seq<byte>)
    ensures r == ByteChange.GetHighByte(value * SpeedScale)
  {
    [((value * 100) / 256) % 256]
  }

  /** `bytes([(value * 100) & 0xFF])` */
  function GetLowByte(value: int): (r: seq<byte>)
    ensures r == ByteChange.GetLowByte(value * SpeedScale)
  {
    [(value * 100) % 256]
  }

  /** Up to 655 Hz the two bytes hold value * 100 without loss. */
  lemma SpeedBytesLossless(v: int)
    requires 0 <= v <= 655
    ensures GetLowByte(v)[0] as int + 256 * GetHighByte(v)[0] as int == v * SpeedScale
    ensures GetLowByte(v) + GetHighByte(v) == Uint16LE(v * SpeedScale)
  {
    ByteChange.SplitJoin(v * 100);
    ByteChange.SplitIsUint16LE(v * 100);
  }

  // ---------------------------------------------------------------------------
  // PCCC requests of write_PCCC_param

  /** Position of the start/stop selector in the 32-byte prefix. */
  const SelectorIndex: nat := 28

  /** Prefix of requests 1 and 2 when starting: selector 0x02. */
  const StartPrefix: seq<byte> :=
    [0x07, 0x4D, 0x00, 0x31, 0x55, 0x8b, 0x09, 0x0f, 0x00, 0x6f, 0x91, 0x67, 0x00, 0x00, 0x03, 0x00,
     0x00, 0x24, 0x4E, 0x34, 0x31, 0x3A, 0x30, 0x00, 0x99, 0x09, 0x07, 0x42, 0x02, 0x00, 0x00, 0x00]

  /** Prefix of requests 1 and 2 when stopping: selector 0x09. */
  const StopPrefix: seq<byte> :=
    [0x07, 0x4D, 0x00, 0x31, 0x55, 0x8b, 0x09, 0x0f, 0x00, 0x6f, 0x91, 0x67, 0x00, 0x00, 0x03, 0x00,
     0x00, 0x24, 0x4E, 0x34, 0x31, 0x3A, 0x30, 0x00, 0x99, 0x09, 0x07, 0x42, 0x09, 0x00, 0x00, 0x00]

  /** Prefix of request 3 in both cases: selector 0x00. */
  const ReleasePrefix: seq<byte> :=
    [0x07, 0x4D, 0x00, 0x31, 0x55, 0x8b, 0x09, 0x0f, 0x00, 0x6f, 0x91, 0x67, 0x00, 0x00, 0x03, 0x00,
     0x00, 0x24, 0x4E, 0x34, 0x31, 0x3A, 0x30, 0x00, 0x99, 0x09, 0x07, 0x42, 0x00, 0x00, 0x00, 0x00]

  /** The selector byte of request `index` (0, 1 or 2) for the given toggle state. */
  function Selector(toggleState: bool, index: nat): byte
  {
    if index < 2 then (if toggleState then 0x02 else 0x09) else 0x00
  }

  /** The three requests one round of write_PCCC_param sends, in order. */
  function PcccRequests(toggleState: bool, speed: int): (r: seq<seq<byte>>)
    ensures |r| == 3
    ensures forall i | 0 <= i < 3 :: |r[i]| == 34
    ensures forall i | 0 <= i < 3 :: r[i][SelectorIndex] == Selector(toggleState, i)
    ensures forall i, j | 0 <= i < 3 && 0 <= j < 32 && j != SelectorIndex :: r[i][j] == ReleasePrefix[j]
    ensures forall i | 0 <= i < 3 :: r[i][32..] == GetLowByte(speed) + GetHighByte(speed)
  {
    var tail := GetLowByte(speed) + GetHighByte(speed);
    assert forall j | 0 <= j < 32 && j != SelectorIndex :: StartPrefix[j] == StopPrefix[j] == ReleasePrefix[j];
    if toggleState then
      [StartPrefix + tail, StartPrefix + tail, ReleasePrefix + tail]
    else
      [StopPrefix + tail, StopPrefix + tail, ReleasePrefix + tail]
  }

  /** The two speed bytes of every request decode to speed * 100 while it fits. */
  lemma RequestSpeedDecodes(toggleState: bool, speed: int, i: nat)
    requires 0 <= speed <= 655 && i < 3
    ensures UnsignedValue(PcccRequests(toggleState, speed)[i][32..]) == speed * SpeedScale
  {
    SpeedBytesLossless(speed);
    Uint16RoundTrip(speed * 100);
  }

  const Rounds: nat := 20
  const RequestsPerRound: nat := 3

  /** Every send of an uninterrupted call: request (k mod 3) of round (k div 3). */
  function Schedule(toggleState: bool, speed: int): (r: seq<seq<byte>>)
    ensures |r| == Rounds * RequestsPerRound
  {
    var requests := PcccRequests(toggleState, speed);
    seq(Rounds * RequestsPerRound, k => requests[k % RequestsPerRound])
  }

  /**
   * The payloads handed to the driver when send number `firstFailure` (counting
   * from 0, across all rounds) is the first that raises: that send is attempted and
   * the call returns. With no failing send all 60 are attempted.
   */
  function Attempted(toggleState: bool, speed: int, firstFailure: Option<nat>): seq<seq<byte>>
  {
    var all := Schedule(toggleState, speed);
    if firstFailure.Some? && firstFailure.value < |all| then all[..firstFailure.value + 1] else all
  }

  /** A call stops at the first raising send, and every message it sends is one of the three requests. */
  lemma AttemptedShape(toggleState: bool, speed: int, firstFailure: Option<nat>)
    ensures var a := Attempted(toggleState, speed, firstFailure);
      |a| == (if firstFailure.Some? && firstFailure.value < 60 then firstFailure.value + 1 else 60) &&
      forall k | 0 <= k < |a| :: a[k] == PcccRequests(toggleState, speed)[k % 3] && |a[k]| == 34
  {
  }

  /** Stands for the driver object `connect` creates for a drive path; opening it is not modelled. */
  datatype CipSession = CipSession(path: string)

  class PowerFlex525 {
    var ip: string
    var drivePath: string
    var session: Option<CipSession>
    /** The commanded frequency in Hz; sent in 0.01 Hz units. */
    var speed: int
    /** True once the drive was last told to start. */
    var toggleState: bool

    constructor (ip: string)
      ensures this.ip == ip && drivePath == ip && session == None
      ensures speed == 0 && !toggleState
    {
      this.ip := ip;
      drivePath := ip;
      session := None;
      speed := 0;
      toggleState := false;
    }

    /** `connect`: the session is the driver for the drive path; opening it is not modelled. */
    method Connect()
      modifies this`session
      ensures session == Some(CipSession(drivePath))
    {
      session := Some(CipSession(drivePath));
    }

    /** Stores the speed; resends the start requests only while the drive is started. */
    method SetSpeed(v: int, firstFailure: Option<nat>) returns (attempted: seq<seq<byte>>)
      modifies this`speed, this`toggleState
      ensures speed == v && toggleState == old(toggleState)
      ensures attempted == if toggleState then Attempted(true, v, firstFailure) else []
    {
      speed := v;
      attempted := [];
      if toggleState {
        attempted := WritePcccParam(toggleState, firstFailure);
      }
    }

    /**
     * Twenty rounds of the three requests for `toggleState`; the flag is stored before
     * the first send, and the loop ends at the first send that raises.
     */
    method WritePcccParam(toggleState: bool, firstFailure: Option<nat>) returns (attempted: seq<seq<byte>>)
      modifies this`toggleState
      ensures this.toggleState == toggleState
      ensures attempted == Attempted(toggleState, speed, firstFailure)
    {
      ghost var all := Schedule(toggleState, speed);
      attempted := [];
      var i := 0;
      while i < Rounds
        invariant 0 <= i <= Rounds
        invariant i > 0 ==> this.toggleState == toggleState
        invariant attempted == all[..RequestsPerRound * i]
        invariant firstFailure.Some? ==> firstFailure.value >= RequestsPerRound * i
      {
        var requests := PcccRequests(toggleState, speed);
        this.toggleState := toggleState;
        var j := 0;
        while j < RequestsPerRound
          invariant 0 <= j <= RequestsPerRound
          invariant attempted == all[..RequestsPerRound * i + j]
          invariant firstFailure.Some? ==> firstFailure.value >= RequestsPerRound * i + j
        {
          assert all[RequestsPerRound * i + j] == requests[j];
          attempted := attempted + [requests[j]];
          assert attempted == all[..RequestsPerRound * i + j + 1];
          if firstFailure == Some(RequestsPerRound * i + j) {
            return;
          }
          j := j + 1;
        }
        i := i + 1;
      }
      assert attempted == all;
    }
  }

  // ---------------------------------------------------------------------------
  // Write formats of write_param_diagnostic

  /** What the read before the write returned: a byte string, or something else (None included). */
  datatype RawValue = RawBytes(bytes: seq<byte>) | NotBytes

  datatype Format = Real32 | Int16 | Uint16 | Real32Fallback

  /** A packed payload; `Float32Of(x)` stands for `struct.pack('<f', x)`, which is not computed. */
  datatype Payload = Packed(bytes: seq<byte>) | Float32Of(x: real)

  datatype Candidate = Candidate(format: Format, payload: Payload)

  /** `struct.pack('<h', int(value))` raised: int(value) is outside the signed 16-bit range. */
  datatype DiagError = Int16PackError(value: int)

  /** The formats tried, in order, for each kind of value read back. */
  function CandidateFormats(raw: RawValue): seq<Format>
  {
    match raw
    case NotBytes => [Real32, Int16]
    case RawBytes(b) =>
      if |b| == 4 then [Real32, Real32Fallback]
      else if |b| == 2 then [Int16, Uint16, Real32Fallback]
      else [Real32Fallback]
  }

  predicate Packable(format: Format, value: real)
  {
    format == Int16 ==> InInt16Range(Trunc(value))
  }

  /** The payload of one format: a float, int(value) signed, or int(value) & 0xFFFF unsigned. */
  function Pack(format: Format, value: real): Payload
    requires Packable(format, value)
  {
    match format
    case Real32 => Float32Of(value)
    case Real32Fallback => Float32Of(value)
    case Int16 => Packed(Int16LE(Trunc(value)))
    case Uint16 => Packed(Uint16LE(Trunc(value) % 65536))
  }

  /** The integer payloads decode back to int(value), signed, and to int(value) mod 65536, unsigned. */
  lemma PackedIntegersDecode(value: real)
    ensures InInt16Range(Trunc(value)) ==>
              Pack(Int16, value) == Packed(Int16LE(Trunc(value))) && SignedValue(Pack(Int16, value).bytes) == Trunc(value)
    ensures UnsignedValue(Pack(Uint16, value).bytes) == Trunc(value) % 65536
  {
    if InInt16Range(Trunc(value)) {
      Int16RoundTrip(Trunc(value));
    }
    Uint16RoundTrip(Trunc(value) % 65536);
  }

  /**
   * Builds the candidate list as the source does, by appending; packing INT16 outside
   * its range raises before anything is sent.
   */
  method Candidates(raw: RawValue, value: real) returns (r: Result<seq<Candidate>, DiagError>)
    ensures r.Failure? <==> Int16 in CandidateFormats(raw) && !InInt16Range(Trunc(value))
    ensures r.Failure? ==> r.error == Int16PackError(Trunc(value))
    ensures r.Success? ==> |r.value| == |CandidateFormats(raw)|
    ensures r.Success? ==> forall i | 0 <= i < |r.value| ::
      r.value[i].format == CandidateFormats(raw)[i] &&
      Packable(r.value[i].format, value) && r.value[i].payload == Pack(r.value[i].format, value)
  {
    var n := Trunc(value);
    if raw.RawBytes? {
      var candidates: seq<Candidate> := [];
      var len := |raw.bytes|;
      if len == 4 {
        candidates := candidates + [Candidate(Real32, Float32Of(value))];
      }
      if len == 2 {
        if !InInt16Range(n) {
          return Failure(Int16PackError(n));
        }
        candidates := candidates + [Candidate(Int16, Packed(Int16LE(n)))];
        candidates := candidates + [Candidate(Uint16, Packed(Uint16LE(n % 65536)))];
      }
      candidates := candidates + [Candidate(Real32Fallback, Float32Of(value))];
      r := Success(candidates);
    } else {
      if !InInt16Range(n) {
        return Failure(Int16PackError(n));
      }
      r := Success([Candidate(Real32, Float32Of(value)), Candidate(Int16, Packed(Int16LE(n)))]);
    }
  }

  /**
   * Tries every candidate in order. A write that raises is swallowed and the next is
   * tried, so the writes attempted, which are the result, do not depend on which of
   * them raise; the responses are not modelled.
   */
  method WriteParamDiagnostic(raw: RawValue, value: real) returns (r: Result<seq<Candidate>, DiagError>)
    ensures r.Failure? <==> Int16 in CandidateFormats(raw) && !InInt16Range(Trunc(value))
    ensures r.Failure? ==> r.error == Int16PackError(Trunc(value))
    ensures r.Success? ==> |r.value| == |CandidateFormats(raw)|
    ensures r.Success? ==> forall i | 0 <= i < |r.value| ::
      r.value[i].format == CandidateFormats(raw)[i] &&
      Packable(r.value[i].format, value) && r.value[i].payload == Pack(r.value[i].format, value)
  {
    var built := Candidates(raw, value);
    if built.Failure? {
      return Failure(built.error);
    }
    var candidates := built.value;
    var written: seq<Candidate> := [];
    for i := 0 to |candidates|
      invariant written == candidates[..i]
    {
      written := written + [candidates[i]];
    }
    assert written == candidates;
    r := Success(written);
  }
}
