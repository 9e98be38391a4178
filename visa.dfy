/** The parts of the VISA library and of asyn that the port driver relies on.
    The VISA calls themselves are foreign: the model never performs them, it
    receives their outcomes as values and records, in a call log, which of them
    the driver issued. */
module Visa {

  type byte = bv8

  /** ViStatus: a signed 32-bit completion code; negative codes are errors. */
  newtype ViStatus = x: int | -0x8000_0000 <= x < 0x8000_0000

  /** ViSession: an unsigned 32-bit session handle. */
  newtype ViSession = x: int | 0 <= x < 0x1_0000_0000

  const ViSuccess: ViStatus := 0
  const ViSuccessTermChar: ViStatus := 0x3FFF_0005
  const ViSuccessMaxCnt: ViStatus := 0x3FFF_0006
  const ViNull: ViSession := 0
  /** Completion codes with which viOpen opens a session although it is not VI_SUCCESS. */
  const ViSuccessDevNPresent: ViStatus := 0x3FFF_007D
  const ViWarnConfigNLoaded: ViStatus := 0x3FFF_0077

  /** One call into the VISA library, as issued by the driver. */
  datatype Call =
    | ViOpenDefaultRM
    | ViOpen(resource: string)
    | ViClose(vi: ViSession)
    | ViWrite(vi: ViSession, bytes: seq<byte>)
    | ViRead(vi: ViSession, count: nat)

  /** What viOpenDefaultRM and viOpen report: their two statuses and the
      session value viOpen stores through its out-parameter. */
  datatype OpenOutcome = OpenOutcome(rmStatus: ViStatus, openStatus: ViStatus, session: ViSession)

  /** What viWrite reports: its status and the count it stores in `actual`. */
  datatype WriteOutcome = WriteOutcome(status: ViStatus, actual: nat)

  /** What viRead reports: its status and the bytes it stored at the start of
      the caller's buffer (their number is the count it stores in `actual`). */
  datatype ReadOutcome = ReadOutcome(status: ViStatus, bytes: seq<byte>)

  /** A library that behaves as VISA documents viOpen: a non-negative status
      (VI_SUCCESS, or a completion code such as VI_SUCCESS_DEV_NPRESENT or
      VI_WARN_CONFIG_NLOADED) comes with an open, non-null session, an error
      status with VI_NULL. */
  predicate WellBehavedOpen(o: OpenOutcome) {
    o.openStatus >= 0 <==> o.session != ViNull
  }

  /** The effect of viRead on the caller's buffer: `bytes` land at its start and
      nothing else changes. */
  method TransportRead(data: array<byte>, bytes: seq<byte>)
    requires |bytes| <= data.Length
    modifies data
    ensures data[..] == bytes + old(data[|bytes|..])
  {
    forall i | 0 <= i < |bytes| {
      data[i] := bytes[i];
    }
    assert data[..] == bytes + old(data[|bytes|..]) by {
      assert data[..] == data[..|bytes|] + data[|bytes|..];
    }
  }
}

/** The asyn status codes and end-of-message reason bits the driver returns. */
module Asyn {

  /** asynStatus; this driver only ever returns these two. */
  datatype AsynStatus = AsynSuccess | AsynError

  /** End-of-message reasons, combinable with bitwise or. */
  const AsynEomCnt: bv32 := 0x0001  // request count reached
  const AsynEomEos: bv32 := 0x0002  // end-of-string (termination character) detected
  const AsynEomEnd: bv32 := 0x0004  // end indicator detected
}
