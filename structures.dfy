/**
 * Shared entities of the stream monitor: the ordered error taxonomy, stream
 * types, control commands, the 32-byte identity key and the records that flow
 * between the probers, the stats keeper and the problem analyzer.
 *
 * Time is an integer count of nanoseconds and a duration is a difference of
 * two such counts; the zero `time.Time` of the program is modelled as 0.
 */
module Structures {
  import opened Wrappers

  // ---------------------------------------------------------------------------
  // Units of time (nanoseconds), as in Go's time package.

  const Second: int := 1_000_000_000
  const Minute: int := 60 * Second
  const Hour: int := 60 * Minute

  // ---------------------------------------------------------------------------
  // Kinds of streams. Must stay consistent with the string conversions.

  type StreamType = nat

  const UNKSTREAM: StreamType := 0
  const SAMPLE: StreamType := 1
  const HTTP: StreamType := 2
  const HLS: StreamType := 3
  const HDS: StreamType := 4
  const WV: StreamType := 5

  /** The stream types in declaration order. */
  const DeclaredStreamTypes: seq<StreamType> := [UNKSTREAM, SAMPLE, HTTP, HLS, HDS, WV]

  // ---------------------------------------------------------------------------
  // Log severities.

  type Severity = nat

  const INFO: Severity := 0
  const WARNING: Severity := 1
  const ERROR: Severity := 2
  const CRITICAL: Severity := 3

  // ---------------------------------------------------------------------------
  // Error codes, ordered by importance. The *_LEVEL values are thresholds
  // that partition the scale; policy compares against them.

  type ErrType = nat

  const SUCCESS: ErrType := 0
  const DEBUG_LEVEL: ErrType := 1
  const TTLEXPIRED: ErrType := 2
  const HLSPARSER: ErrType := 3
  const BADREQUEST: ErrType := 4
  const WARNING_LEVEL: ErrType := 5
  const SLOW: ErrType := 6
  const VERYSLOW: ErrType := 7
  const ERROR_LEVEL: ErrType := 8
  const CTIMEOUT: ErrType := 9
  const RTIMEOUT: ErrType := 10
  const BADLENGTH: ErrType := 11
  const BODYREAD: ErrType := 12
  const CRITICAL_LEVEL: ErrType := 13
  const REFUSED: ErrType := 14
  const BADSTATUS: ErrType := 15
  const BADURI: ErrType := 16
  const LISTEMPTY: ErrType := 17
  const BADFORMAT: ErrType := 18
  const UNKERR: ErrType := 19

  /** The error codes in declaration order. */
  const DeclaredErrTypes: seq<ErrType> :=
    [SUCCESS, DEBUG_LEVEL, TTLEXPIRED, HLSPARSER, BADREQUEST, WARNING_LEVEL, SLOW, VERYSLOW,
     ERROR_LEVEL, CTIMEOUT, RTIMEOUT, BADLENGTH, BODYREAD, CRITICAL_LEVEL, REFUSED, BADSTATUS,
     BADURI, LISTEMPTY, BADFORMAT, UNKERR]

  /** The declared error codes that are not thresholds and not UNKERR. */
  predicate IsNamedErr(e: ErrType) {
    e <= BADFORMAT && e !in {DEBUG_LEVEL, WARNING_LEVEL, ERROR_LEVEL, CRITICAL_LEVEL}
  }

  // ---------------------------------------------------------------------------
  // Commands broadcast to the stream boxes.

  type Command = nat

  const STOP_MON: Command := 0
  const START_MON: Command := 1
  const RELOAD_CONFIG: Command := 2
  const LOAD_GROUP: Command := 3
  const LOAD_STREAM: Command := 4
  const DROP_GROUP: Command := 5
  const DROP_STREAM: Command := 6

  // ---------------------------------------------------------------------------
  // The 32-byte identity key of streams and groups.

  type Byte = b: int | 0 <= b < 256
  type Key = k: seq<Byte> | |k| == 32 witness [0, 0, 0, 0, 0, 0, 0, 0, 0, 0, 0, 0, 0, 0, 0, 0, 0, 0, 0, 0, 0, 0, 0, 0, 0, 0, 0, 0, 0, 0, 0, 0]

  const ZeroKey: Key := [0, 0, 0, 0, 0, 0, 0, 0, 0, 0, 0, 0, 0, 0, 0, 0, 0, 0, 0, 0, 0, 0, 0, 0, 0, 0, 0, 0, 0, 0, 0, 0]

  const HexAlphabet: string := "0123456789abcdef"

  /** Two lower-case hex digits per byte, high nibble first (`%x`). */
  function HexBytes(bs: seq<Byte>): (s: string)
    ensures |s| == 2 * |bs|
  {
    if bs == [] then []
    else [HexAlphabet[bs[0] / 16], HexAlphabet[bs[0] % 16]] + HexBytes(bs[1..])
  }

  /** `Key.String`: the key rendered as 64 lower-case hex digits. */
  function KeyString(k: Key): (s: string)
    ensures |s| == 64
  {
    HexBytes(k)
  }

  /** Every character of a rendering is a lower-case hex digit. */
  lemma {:induction false} HexBytesAlphabet(bs: seq<Byte>)
    ensures forall i :: 0 <= i < |HexBytes(bs)| ==> HexBytes(bs)[i] in HexAlphabet
  {
    if bs != [] {
      HexBytesAlphabet(bs[1..]);
      var s := HexBytes(bs);
      assert s[2..] == HexBytes(bs[1..]);
      forall i | 0 <= i < |s| ensures s[i] in HexAlphabet {
        if i >= 2 {
          assert s[i] == HexBytes(bs[1..])[i - 2];
        }
      }
    }
  }

  /** `Key.String` yields 64 lower-case hex digits. */
  lemma KeyStringIsLowerHex(k: Key)
    ensures |KeyString(k)| == 64
    ensures forall i :: 0 <= i < 64 ==> KeyString(k)[i] in HexAlphabet
  {
    HexBytesAlphabet(k);
  }

  // ---------------------------------------------------------------------------
  // Entities.

  datatype Stream = Stream(streamKey: Key, uri: string, streamType: StreamType,
                           name: string, title: string, group: string)

  const ZeroStream := Stream(ZeroKey, "", UNKSTREAM, "", "", "")

  /** A stream check task; the reply channel is the caller of the prober. */
  datatype Task = Task(stream: Stream, readBody: bool, ttl: int, tid: int)

  /**
   * Outcome of one executed task. `hasParent` stands for a non-nil parent
   * pointer: it is set on the sub-results of a multi-level check.
   */
  datatype Result = Result(errType: ErrType, httpCode: int, httpStatus: string,
                           contentLength: int, realContentLength: int,
                           started: int, elapsed: int, totalErrs: nat,
                           hasParent: bool, subResults: seq<Result>)

  /** A Result as it is persisted, with its task id and stream identity. */
  datatype KeepedResult = KeepedResult(tid: int, stream: Stream, master: bool, errType: ErrType,
                                       httpCode: int, httpStatus: string,
                                       contentLength: int, realContentLength: int,
                                       body: seq<Byte>, started: int, elapsed: int,
                                       totalErrs: nat)

  const ZeroKeepedResult := KeepedResult(0, ZeroStream, false, SUCCESS, 0, "", 0, 0, [], 0, 0, 0)

  /** Rolling counters of one stream box. */
  datatype Stats = Stats(checks: int, errors: int, errors6min: int, errors6hours: int,
                         lastCheck: int, nextCheck: int)

  const ZeroStats := Stats(0, 0, 0, 0, 0, 0)

  /** A report about errors found by the problem analyzer. */
  datatype Report = Report(error: ErrType, severity: Severity, title: string, body: string,
                           generated: int)

  /** A run of failing tasks of one stream. */
  datatype ErrRange = ErrRange(fromTid: int, toTid: int, occured: int, discontinued: int, err: ErrType)

  /** How far the problem analyzer has progressed through a stream's history. */
  datatype CheckPoint = CheckPoint(tid: int, occured: int, openedRange: Option<ErrRange>)

  // ---------------------------------------------------------------------------
  // Facts about the constants.

  /** The error codes strictly increase in declaration order. */
  lemma ErrTypesIncrease()
    ensures |DeclaredErrTypes| == 20 && DeclaredErrTypes[0] == SUCCESS && DeclaredErrTypes[19] == UNKERR
    ensures forall i, j :: 0 <= i < j < |DeclaredErrTypes| ==> DeclaredErrTypes[i] < DeclaredErrTypes[j]
  {
  }

  /** Every named error code lies in exactly one band between the thresholds. */
  lemma SeverityBands()
    ensures DEBUG_LEVEL < TTLEXPIRED < HLSPARSER < BADREQUEST < WARNING_LEVEL
    ensures WARNING_LEVEL < SLOW < VERYSLOW < ERROR_LEVEL
    ensures ERROR_LEVEL < CTIMEOUT < RTIMEOUT < BADLENGTH < BODYREAD < CRITICAL_LEVEL
    ensures CRITICAL_LEVEL < REFUSED < BADSTATUS < BADURI < LISTEMPTY < BADFORMAT < UNKERR
    ensures SUCCESS < DEBUG_LEVEL
  {
  }

  /** Log severities are ordered. */
  lemma SeveritiesOrdered()
    ensures INFO < WARNING < ERROR < CRITICAL
  {
  }

  /** Stream types run from UNKSTREAM = 0 to WV = 5 without gaps. */
  lemma StreamTypesDense()
    ensures forall i :: 0 <= i < |DeclaredStreamTypes| ==> DeclaredStreamTypes[i] == i
    ensures |DeclaredStreamTypes| == 6 && DeclaredStreamTypes[5] == WV
  {
  }

  /** The two monitoring commands are distinct. */
  lemma CommandsDistinct()
    ensures STOP_MON == 0 && START_MON == 1 && STOP_MON != START_MON
  {
  }
}
