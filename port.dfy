/** The port driver of drvAsynVISAPort.cpp: the visaDriver_t record as a class
    whose methods update its fields in place, as the C routines do. Each VISA
    call is replaced by an outcome parameter; the ghost `calls` log records the
    calls the driver issued. Every method is proved to agree with the function
    of the same operation in PortSpec. */
module Port {
  import opened Visa
  import opened Asyn
  import opened PortSpec

  class VisaPort {
    const resourceName: string
    var connected: bool
    var vi: ViSession
    var nRead: ULong
    var nWritten: ULong
    /** The VISA calls issued so far, oldest first. */
    ghost var calls: seq<Call>

    /** The record as a value. */
    function State(): Driver
      reads this
    {
      Driver(resourceName, connected, vi, nRead, nWritten)
    }

    /** A freshly configured port: the zero-filled record, closed. */
    constructor (resourceName: string)
      ensures State() == Driver(resourceName, false, ViNull, 0, 0) && Valid(State())
      ensures calls == []
    {
      this.resourceName := resourceName;
      connected := false;
      vi := ViNull;
      nRead, nWritten := 0, 0;
      calls := [];
    }

    /** closeConnection. viClose's status only selects the error message. */
    method CloseConnection()
      modifies this
      ensures State() == Close(old(State())).driver
      ensures calls == old(calls) + Close(old(State())).calls
    {
      if !connected {
        return;
      }
      calls := calls + [ViClose(vi)];
      connected := false;
      vi := ViNull;
    }

    /** connectIt. */
    method ConnectIt(o: OpenOutcome) returns (status: AsynStatus)
      modifies this
      ensures var r := Connect(old(State()), o);
        State() == r.driver && status == r.status && calls == old(calls) + r.calls
    {
      if connected {
        return AsynError;
      }
      calls := calls + [ViOpenDefaultRM];
      if o.rmStatus != ViSuccess {
        return AsynError;
      }
      calls := calls + [ViOpen(resourceName)];
      vi := o.session;  // viOpen stores through &driver->vi whatever it reports
      if o.openStatus != ViSuccess {
        return AsynError;
      }
      connected := true;
      return AsynSuccess;
    }

    /** asynCommonConnect: connectIt, then (on success) the connect notification. */
    method AsynCommonConnect(o: OpenOutcome) returns (status: AsynStatus)
      modifies this
      ensures var r := Connect(old(State()), o);
        State() == r.driver && status == r.status && calls == old(calls) + r.calls
    {
      status := ConnectIt(o);
    }

    /** asynCommonDisconnect. */
    method AsynCommonDisconnect() returns (status: AsynStatus)
      modifies this
      ensures var r := Disconnect(old(State()));
        State() == r.driver && status == r.status && calls == old(calls) + r.calls
    {
      CloseConnection();
      return AsynSuccess;
    }

    /** writeIt of the first `numchars` bytes of `data`. */
    method WriteIt(data: array<byte>, numchars: nat, o: WriteOutcome)
      returns (status: AsynStatus, nbytesTransfered: nat)
      requires numchars <= data.Length
      requires o.actual <= numchars
      modifies this
      ensures var r := Write(old(State()), data[..numchars], o);
        State() == r.driver && status == r.status && nbytesTransfered == r.transferred &&
        calls == old(calls) + r.calls
    {
      status := AsynSuccess;
      nbytesTransfered := 0;
      if !connected {
        return AsynError, nbytesTransfered;
      }
      if numchars == 0 {
        return AsynSuccess, nbytesTransfered;
      }
      calls := calls + [ViWrite(vi, data[..numchars])];
      if o.status != ViSuccess {
        CloseConnection();
        return AsynError, nbytesTransfered;
      }
      var actual := o.actual;
      nWritten := (nWritten + actual) % ULongModulus;
      nbytesTransfered := nbytesTransfered + actual;
      var remaining := numchars - actual;
      if actual < remaining {
        CloseConnection();
        status := AsynError;
      }
    }

    /** readIt into `data`, a buffer of at least `maxchars` bytes. */
    method ReadIt(data: array<byte>, maxchars: nat, o: ReadOutcome)
      returns (status: AsynStatus, nbytesTransfered: Option<nat>, gotEom: Option<bv32>)
      requires maxchars <= data.Length
      requires |o.bytes| <= maxchars
      modifies this, data
      ensures var r := Read(old(State()), maxchars, o);
        State() == r.driver && status == r.status && nbytesTransfered == r.transferred &&
        gotEom == r.eom && calls == old(calls) + r.calls
      ensures data[..] == ReadBuffer(old(data[..]), old(connected), maxchars, o)
    {
      var reason: bv32 := 0;
      status := AsynSuccess;
      nbytesTransfered, gotEom := None, None;
      if !connected {
        return AsynError, nbytesTransfered, gotEom;
      }
      if maxchars == 0 {
        return AsynError, nbytesTransfered, gotEom;
      }
      nbytesTransfered := Some(0);
      calls := calls + [ViRead(vi, maxchars)];
      TransportRead(data, o.bytes);
      var actual := |o.bytes|;
      if o.status < 0 {
        CloseConnection();
        return AsynError, nbytesTransfered, gotEom;
      }
      if o.status == ViSuccess {
        reason := reason | AsynEomEnd;
      } else if o.status == ViSuccessTermChar {
        reason := reason | AsynEomEos;
      } else if o.status == ViSuccessMaxCnt {
        reason := reason | AsynEomCnt;
      }
      if actual > 0 {
        nRead := (nRead + actual) % ULongModulus;
      } else {
        CloseConnection();
        status := AsynError;
      }
      nbytesTransfered := Some(actual);
      if actual < maxchars {
        data[actual] := 0;
      } else {
        reason := reason | AsynEomCnt;
      }
      gotEom := Some(reason);
    }

    /** flushIt: nothing to flush; always succeeds and changes nothing. */
    method FlushIt() returns (status: AsynStatus)
      ensures status == AsynSuccess
    {
      return AsynSuccess;
    }
  }
}
