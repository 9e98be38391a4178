# VISA asyn port driver: a verified model

EPICS-VISA's `drvAsynVISAPort` lets asyn's octet interface talk to instruments through a
VISA session. Each configured port owns a `visaDriver_t` record. Four fields of that record
matter here: the `connected` flag, the session handle `vi`, and the byte counters `nRead` and
`nWritten`. This project models how the driver's routines change that record:
`closeConnection`, `connectIt`, `asynCommonConnect`, `asynCommonDisconnect`, `writeIt`,
`readIt` and `flushIt`.

Layout:

- `visa.dfy`
  - module `Visa`: the VISA status and session types, the constants the driver tests
    (`VI_SUCCESS`, `VI_SUCCESS_TERM_CHAR`, `VI_SUCCESS_MAX_CNT`, `VI_NULL`), a log entry per
    VISA call, and the outcomes those calls report.
  - module `Asyn`: `asynStatus` and the end-of-message reason bits `ASYN_EOM_CNT`/`EOS`/`END`.
- `port_spec.dfy`, module `PortSpec`: each routine as a pure function. It maps the record, and
  the outcomes of the VISA calls, to the new record, the values returned to asyn, and the VISA
  calls issued. The contracts state the driver's promises:
  - state gating comes before argument checks;
  - an error after a transport call always ends disconnected;
  - the counters grow by exactly the reported count;
  - the VISA status maps to combinable reason bits;
  - the read buffer is null-terminated only inside `maxchars`.
- `port.dfy`, module `Port`: class `VisaPort`, the record as an object. Its methods update the
  fields in place, as the C routines do. Each is proved to agree with its `PortSpec` function.
  A ghost `calls` field logs every VISA call issued, so "no transport call" is provable.
- `port_trace.dfy`, module `PortTrace`: arbitrary sequences of these operations.
  - As written, a record marked connected always holds a session.
  - The full invariant "a handle is held exactly while connected" holds only with the
    corrected connect described under "## Findings".
  - `nRead` and `nWritten` account for every byte reported, modulo 2^32.

Each VISA call (`viOpenDefaultRM`, `viOpen`, `viClose`, `viWrite`, `viRead`) becomes an input:
the status it reports, plus the count or session it stores through its out-parameter. The proofs
assume three things of the library:

- A count never exceeds the request: `viWrite`'s `actual` is at most `numchars`, and `viRead`
  returns at most `maxchars` bytes. Every operation and lemma relies on this.
- `viRead` stores exactly the bytes it reports, at the start of the buffer, and writes nothing
  beyond them (`Visa.TransportRead`). `PortSpec.ReadBuffer` and `Port.VisaPort.ReadIt` rely on this.
- `viOpen` opens a non-null session exactly when its status is non-negative, and stores VI_NULL
  on an error (`Visa.WellBehavedOpen`). This covers VI_SUCCESS and completion codes such as
  VI_SUCCESS_DEV_NPRESENT or VI_WARN_CONFIG_NLOADED. `PortSpec.Connect`'s validity clause,
  `PortSpec.ConnectChecked`, `PortTrace.RunKeepsSessionWhileConnected` and
  `PortTrace.RunKeepsValid` rely on this.

`unsigned long` is 32 bits wide on the Windows builds this driver targets, so the counters wrap
at 2^32.

`writeIt` is modelled as written. After `numchars -= actual` it tests `actual < numchars`, so
the write is rejected only when fewer than half of the bytes were accepted. A successful
`viWrite` of 6 bytes out of 10 is reported as `asynSuccess` (`PortSpec.PartialWriteCheck`).

## Model

| member | source | states |
|---|---|---|
| `Visa.TransportRead` | VISAdrvApp/src/drvAsynVISAPort.cpp:258 | viRead's effect on the caller's buffer: the bytes it returns land at the start, the rest is unchanged |
| `PortSpec.Close` | VISAdrvApp/src/drvAsynVISAPort.cpp:54-72 | always ends disconnected; on a closed record no call and no change; on an open one exactly one viClose, after which `connected` is false and `vi` is VI_NULL whatever viClose reported |
| `PortSpec.Connect` | VISAdrvApp/src/drvAsynVISAPort.cpp:126-160 | an open record: asynError, nothing changed, no call; otherwise success iff both viOpenDefaultRM and viOpen succeed, `connected` only on success, viOpen's session stored once the RM opened, counters untouched; for a valid closed record and a well-behaved library, the result is valid exactly unless viOpen reported a positive completion code (see Findings) |
| `PortSpec.ConnectChecked` | VISAdrvApp/src/drvAsynVISAPort.cpp:149-159 | the corrected connect: viOpen fails only on a negative status; same calls, gating and counters as connectIt, equal to it for every viOpen status other than a positive code, and it always keeps the record valid |
| `PortSpec.ConnectLeaksSessionOnWarning` | VISAdrvApp/src/drvAsynVISAPort.cpp:149-154 | as written: viOpen opens a session with VI_SUCCESS_DEV_NPRESENT, connectIt returns asynError and leaves the live handle in a record marked closed, and a later disconnect issues no viClose and keeps it |
| `PortSpec.Disconnect` | VISAdrvApp/src/drvAsynVISAPort.cpp:173-182 | always asynSuccess and always ends disconnected; the record is exactly closeConnection's, so a valid record becomes the closed record; counters untouched |
| `PortSpec.Write` | VISAdrvApp/src/drvAsynVISAPort.cpp:184-232 | disconnected: asynError, 0 transferred, no call, even for 0 bytes; connected and 0 bytes: asynSuccess, no call; otherwise one viWrite; a failed status closes the link and transfers 0; on success `transferred == actual` and success iff `actual >= numchars - actual`; after a call, error iff the link was closed; nWritten grows by exactly the count transferred |
| `PortSpec.ReadReason` | VISAdrvApp/src/drvAsynVISAPort.cpp:266-303 | END iff VI_SUCCESS, EOS iff VI_SUCCESS_TERM_CHAR, CNT iff VI_SUCCESS_MAX_CNT or the buffer is full; no other bit set |
| `PortSpec.Read` | VISAdrvApp/src/drvAsynVISAPort.cpp:234-306 | `connected` is checked before `maxchars`; either failure is asynError with no call and nothing written; otherwise one viRead; a negative status closes the link, reports 0 bytes and leaves the reason unwritten; a non-negative one reports `actual` and its reason, and succeeds iff `actual > 0`; after a call, error iff the link was closed; nRead grows by exactly the count reported |
| `PortSpec.ReadBuffer` | VISAdrvApp/src/drvAsynVISAPort.cpp:255-303 | untouched when no read was issued; otherwise viRead's bytes at the start, a 0 at `data[actual]` when the status is non-negative and `actual < maxchars`; after a negative status or into a full buffer exactly viRead's bytes followed by the old contents; nothing past `actual` or at or beyond `maxchars` changed |
| `PortSpec.CloseIdempotent` | VISAdrvApp/src/drvAsynVISAPort.cpp:59-63 | closing an already closed link changes nothing and issues no viClose |
| `PortSpec.ReconnectAfterFailedWrite` | VISAdrvApp/src/drvAsynVISAPort.cpp:208-226 | a write that used the transport and failed leaves the port closed, so a later successful open reconnects it |
| `PortSpec.PartialWriteCheck` | VISAdrvApp/src/drvAsynVISAPort.cpp:216-226 | the partial-write test as written: 6 of 10 bytes is a success with the link open, 4 of 10 an error that closes it; both count their bytes |
| `PortSpec.ReadReasonsCombine` | VISAdrvApp/src/drvAsynVISAPort.cpp:266-304 | VI_SUCCESS with 5 bytes into 10 reports END; into exactly 5, END and CNT together |
| `Port.VisaPort.constructor` | VISAdrvApp/src/drvAsynVISAPort.cpp:366-373 | a new port record is closed, holds VI_NULL, has zero counters and satisfies the invariant |
| `Port.VisaPort.CloseConnection` | VISAdrvApp/src/drvAsynVISAPort.cpp:54-72 | updates the fields and the call log exactly as `PortSpec.Close` |
| `Port.VisaPort.ConnectIt` | VISAdrvApp/src/drvAsynVISAPort.cpp:126-160 | updates the fields and the call log and returns exactly as `PortSpec.Connect` |
| `Port.VisaPort.AsynCommonConnect` | VISAdrvApp/src/drvAsynVISAPort.cpp:162-171 | same as connectIt |
| `Port.VisaPort.AsynCommonDisconnect` | VISAdrvApp/src/drvAsynVISAPort.cpp:173-182 | updates the fields and the call log and returns exactly as `PortSpec.Disconnect` |
| `Port.VisaPort.WriteIt` | VISAdrvApp/src/drvAsynVISAPort.cpp:184-232 | step-by-step update of the counters and `*nbytesTransfered`; agrees exactly with `PortSpec.Write` on `data[..numchars]` |
| `Port.VisaPort.ReadIt` | VISAdrvApp/src/drvAsynVISAPort.cpp:234-306 | builds the reason bit by bit and writes the terminator into the caller's array; agrees exactly with `PortSpec.Read`, and the buffer afterwards is `PortSpec.ReadBuffer` of the buffer before |
| `Port.VisaPort.FlushIt` | VISAdrvApp/src/drvAsynVISAPort.cpp:311-318 | always asynSuccess and changes nothing (no `modifies`) |
| `PortTrace.RunKeepsSessionWhileConnected` | VISAdrvApp/src/drvAsynVISAPort.cpp:54-160 | as written or corrected, after any sequence of connect, disconnect, write, read and flush, a record marked connected holds a non-null session |
| `PortTrace.RunKeepsValid` | VISAdrvApp/src/drvAsynVISAPort.cpp:54-160 | with the corrected connect, any sequence of connect, disconnect, write, read and flush keeps "connected iff a non-null session is held" for a library that opens sessions as VISA documents |
| `PortTrace.RunCountsBytes` | VISAdrvApp/src/drvAsynVISAPort.cpp:216-298 | after any sequence, `nRead` and `nWritten` equal their start values plus the totals reported as read and written, modulo 2^32 |
| `PortTrace.CountersMonotone` | VISAdrvApp/src/drvAsynVISAPort.cpp:38-39 | until a counter wraps, it never decreases over any sequence of operations |

## Findings

| source | as written | input that shows it | evidently intended | confidence | as-written member | corrected member |
|---|---|---|---|---|---|---|
| VISAdrvApp/src/drvAsynVISAPort.cpp:149-154 | connectIt treats every viOpen status other than VI_SUCCESS as a failure, after viOpen has already stored the session in `driver->vi` | viOpen returns VI_SUCCESS_DEV_NPRESENT (or VI_WARN_CONFIG_NLOADED) with session 7: asynError, `connected` false, `vi` 7; the following disconnect finds the link "already closed", issues no viClose and leaks the session | a session VISA reports as opened is not left in a record marked closed; viOpen fails only on a negative status, the test readIt applies to viRead (line 259) | medium, not executed | `PortSpec.ConnectLeaksSessionOnWarning` | `PortSpec.ConnectChecked` |

The class `Port.VisaPort` keeps connectIt as written. The corrected connect is used by the
sequence model in `PortTrace`, where `RunKeepsValid` is proved for it.

## Left out

- `asynCommonReport`: it only prints the state and counters.
- `visaCleanup` and `driverCleanup`: port locking and freeing memory.
- `drvAsynVISAPortConfigure` and the IOC shell registration: registration with asyn. Only the
  zero-filled initial record it creates is modelled, as the constructor.
- The VISA library itself: its calls are inputs (status, count or session), and `viStatusDesc`
  is not modelled. The three assumptions the proofs make of it are listed at the top of this file.
- Error messages, `asynPrint` tracing, `std::cerr` output, and the `exceptionConnect` /
  `exceptionDisconnect` notifications. These are side channels. Because `viClose`'s status only
  selects a message, the model takes no input for it.
- The resource-manager session that `connectIt` opens and never closes: it is not part of the
  driver record.
- Port.VisaPort.ReadIt: compares `actual` with `maxchars` directly. The source first casts
  `maxchars` to `int` (line 300), which differs only for requests of 2^31 bytes or more.
- Port.VisaPort.WriteIt: passes `numchars` to `viWrite` without the 32-bit truncation of VISA's
  count parameter. `Port.VisaPort.ReadIt` does the same with `maxchars` and `viRead`. Both differ
  only for requests of 2^32 bytes or more.
- Port.VisaPort.ReadIt: `*gotEom` is always treated as a valid pointer. The source's null check
  (line 304) only skips writing the reason.
- `drvAsynVISAPort.h` holds only the prototype of the configuration routine.
