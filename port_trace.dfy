/** Sequences of driver operations on one port, as asyn issues them one at a
    time. As written, a connected record always holds a session; with the
    corrected connect (PortSpec.ConnectChecked) the whole record invariant
    holds after any of them. The two counters account for every byte reported
    as transferred (modulo the width of unsigned long). */
module PortTrace {
  import opened Visa
  import opened Asyn
  import opened PortSpec

  /** One call from asyn into the driver, with the outcomes of the VISA calls it makes. */
  datatype Op =
    | OpConnect(open: OpenOutcome)
    | OpDisconnect
    | OpWrite(bytes: seq<byte>, write: WriteOutcome)
    | OpRead(maxchars: nat, read: ReadOutcome)
    | OpFlush

  /** Which connect the port runs: connectIt as written, or the corrected one. */
  datatype Revision = AsWritten | Checked

  function ConnectIn(rev: Revision, d: Driver, o: OpenOutcome): ConnectResult {
    if rev == AsWritten then Connect(d, o) else ConnectChecked(d, o)
  }

  /** The VISA library keeps its side of the contract: counts never exceed the request. */
  predicate Admissible(op: Op) {
    match op
    case OpWrite(bytes, w) => w.actual <= |bytes|
    case OpRead(maxchars, rd) => |rd.bytes| <= maxchars
    case _ => true
  }

  /** The record after `op`, and the bytes the driver reported as read and as written. */
  datatype Step = Step(driver: Driver, bytesRead: nat, bytesWritten: nat)

  function Apply(rev: Revision, d: Driver, op: Op): Step
    requires Admissible(op)
  {
    match op
    case OpConnect(o) => Step(ConnectIn(rev, d, o).driver, 0, 0)
    case OpDisconnect => Step(Disconnect(d).driver, 0, 0)
    case OpWrite(bytes, w) =>
      var r := Write(d, bytes, w);
      Step(r.driver, 0, r.transferred)
    case OpRead(maxchars, rd) =>
      var r := Read(d, maxchars, rd);
      Step(r.driver, if r.transferred.Some? then r.transferred.value else 0, 0)
    case OpFlush => Step(d, 0, 0)
  }

  /** The record after all of `ops`, and the totals reported as read and written. */
  function Run(rev: Revision, d: Driver, ops: seq<Op>): Step
    requires forall i :: 0 <= i < |ops| ==> Admissible(ops[i])
    decreases |ops|
  {
    if ops == [] then Step(d, 0, 0)
    else
      var first := Apply(rev, d, ops[0]);
      var rest := Run(rev, first.driver, ops[1..]);
      Step(rest.driver, first.bytesRead + rest.bytesRead, first.bytesWritten + rest.bytesWritten)
  }

  /** The VISA library opens sessions as it documents (WellBehavedOpen). */
  predicate OpensWell(ops: seq<Op>) {
    forall i :: 0 <= i < |ops| ==> ops[i].OpConnect? ==> WellBehavedOpen(ops[i].open)
  }

  /** As written (and as corrected), a record marked connected always holds a
      session, whatever sequence of operations it went through. */
  lemma {:induction false} RunKeepsSessionWhileConnected(rev: Revision, d: Driver, ops: seq<Op>)
    requires d.connected ==> d.vi != ViNull
    requires forall i :: 0 <= i < |ops| ==> Admissible(ops[i])
    requires OpensWell(ops)
    ensures Run(rev, d, ops).driver.connected ==> Run(rev, d, ops).driver.vi != ViNull
    decreases |ops|
  {
    if ops != [] {
      var first := Apply(rev, d, ops[0]);
      assert first.driver.connected ==> first.driver.vi != ViNull;
      RunKeepsSessionWhileConnected(rev, first.driver, ops[1..]);
    }
  }

  /** With the corrected connect, no sequence of operations leaves a connected
      record without a session or a closed one holding a session. */
  lemma {:induction false} RunKeepsValid(d: Driver, ops: seq<Op>)
    requires Valid(d)
    requires forall i :: 0 <= i < |ops| ==> Admissible(ops[i])
    requires OpensWell(ops)
    ensures Valid(Run(Checked, d, ops).driver)
    decreases |ops|
  {
    if ops != [] {
      var first := Apply(Checked, d, ops[0]);
      assert Valid(first.driver);
      RunKeepsValid(first.driver, ops[1..]);
    }
  }

  /** Adding in two steps to an unsigned long is adding the sum once. */
  lemma WrapAddTwice(a: nat, x: nat, y: nat)
    ensures ((a + x) % ULongModulus + y) % ULongModulus == (a + (x + y)) % ULongModulus
  {
  }

  /** nRead and nWritten grow by exactly the bytes the driver reported as read
      and as written, wrapping at the width of unsigned long. */
  lemma {:induction false} RunCountsBytes(rev: Revision, d: Driver, ops: seq<Op>)
    requires forall i :: 0 <= i < |ops| ==> Admissible(ops[i])
    ensures Run(rev, d, ops).driver.nRead == (d.nRead + Run(rev, d, ops).bytesRead) % ULongModulus
    ensures Run(rev, d, ops).driver.nWritten == (d.nWritten + Run(rev, d, ops).bytesWritten) % ULongModulus
    decreases |ops|
  {
    if ops != [] {
      var first := Apply(rev, d, ops[0]);
      var rest := Run(rev, first.driver, ops[1..]);
      assert Run(rev, d, ops) == Step(rest.driver, first.bytesRead + rest.bytesRead,
                                      first.bytesWritten + rest.bytesWritten);
      ApplyCountsBytes(rev, d, ops[0]);
      RunCountsBytes(rev, first.driver, ops[1..]);
      WrapAddTwice(d.nRead, first.bytesRead, rest.bytesRead);
      WrapAddTwice(d.nWritten, first.bytesWritten, rest.bytesWritten);
    }
  }

  /** One operation adds to each counter exactly what it reports. */
  lemma ApplyCountsBytes(rev: Revision, d: Driver, op: Op)
    requires Admissible(op)
    ensures Apply(rev, d, op).driver.nRead == (d.nRead + Apply(rev, d, op).bytesRead) % ULongModulus
    ensures Apply(rev, d, op).driver.nWritten == (d.nWritten + Apply(rev, d, op).bytesWritten) % ULongModulus
  {
  }

  /** Until a counter wraps, it never decreases. */
  lemma CountersMonotone(rev: Revision, d: Driver, ops: seq<Op>)
    requires forall i :: 0 <= i < |ops| ==> Admissible(ops[i])
    ensures d.nRead + Run(rev, d, ops).bytesRead < ULongModulus ==> d.nRead <= Run(rev, d, ops).driver.nRead
    ensures d.nWritten + Run(rev, d, ops).bytesWritten < ULongModulus ==>
      d.nWritten <= Run(rev, d, ops).driver.nWritten
  {
    RunCountsBytes(rev, d, ops);
  }
}
