/**
 * `serial_api.c`: the option parser writing through a pointer to the
 * caller's port record, the two table lookups, the three attribute
 * stages, and the open and close calls, which take the record by value.
 */
module SerialApi {
  import opened SerialTypes
  import opened Termios
  import opened OptionTables
  import opened Options
  import opened PosixOs

  // ---- the attribute stages ------------------------------------------------

  /** How `tcgetattr` and `tcsetattr` answer within one stage. */
  datatype StageReplies = StageReplies(getOk: bool, setOk: bool)

  /** A stage's result: `COMM_PORT_GET_ERROR` when the read fails, its own
      error code when the write fails. */
  function StageCode(r: StageReplies, setError: CommError): CommError {
    if !r.getOk then GetError else if !r.setOk then setError else CommOk
  }

  /** The device's attributes after a stage that would write `written`. */
  function StageAttrs(before: Termios, written: Termios, r: StageReplies): Termios {
    if r.getOk && r.setOk then written else before
  }

  /** The write a stage makes, if it gets as far as writing. */
  ghost function StageEvents(hd: int, written: Termios, r: StageReplies): seq<Event> {
    if r.getOk then [AttrsWritten(hd, written, r.setOk)] else []
  }

  /** `comm_Brt_Set`: read the attributes, set both speeds to the rate's
      constant, write them back. */
  method BrtSet(os: Os, port: PortObj, r: StageReplies) returns (res: CommError)
    modifies os
    ensures res == StageCode(r, StageError(Baud))
    ensures os.attrs == StageAttrs(old(os.attrs), StageWrite(Baud, old(os.attrs), port), r)
    ensures os.trace == old(os.trace) + StageEvents(port.hd, StageWrite(Baud, old(os.attrs), port), r)
  {
    var ok, setting := os.GetAttr(port.hd, r.getOk);
    if !ok {
      return GetError;
    }
    if port.brt == 115200 {
      setting := setting.(ispeed := B115200);
      setting := setting.(ospeed := B115200);
    } else if port.brt == 230400 {
      setting := setting.(ispeed := B230400);
      setting := setting.(ospeed := B230400);
    } else if port.brt == 460800 {
      setting := setting.(ispeed := B460800);
      setting := setting.(ospeed := B460800);
    } else if port.brt == 921600 {
      setting := setting.(ispeed := B921600);
      setting := setting.(ospeed := B921600);
    } else {
      setting := setting.(ispeed := B115200);
      setting := setting.(ospeed := B115200);
    }
    ok := os.SetAttr(port.hd, setting, r.setOk);
    if !ok {
      return SetFail;
    }
    return CommOk;
  }

  /** `comm_Icf_Set`: read the attributes, edit the framing bits of the
      control flags one mask at a time, write them back. */
  method IcfSet(os: Os, port: PortObj, r: StageReplies) returns (res: CommError)
    modifies os
    ensures res == StageCode(r, StageError(Framing))
    ensures os.attrs == StageAttrs(old(os.attrs), StageWrite(Framing, old(os.attrs), port), r)
    ensures os.trace == old(os.trace) + StageEvents(port.hd, StageWrite(Framing, old(os.attrs), port), r)
  {
    var ok, setting := os.GetAttr(port.hd, r.getOk);
    if !ok {
      return GetError;
    }
    var c := setting.cflag;
    ghost var read := c;
    match port.icf {
      case Icf8N1 =>
        c := c - PARENB;
        c := c - CSTOPB;
        c := c - CSIZE;
        c := c + CS8;
      case Icf7E1 =>
        c := c + PARENB;
        c := c - PARODD;
        c := c - CSTOPB;
        c := c - CSIZE;
        c := c + CS7;
      case Icf7O1 =>
        c := c + PARENB;
        c := c + PARODD;
        c := c - CSTOPB;
        c := c - CSIZE;
        c := c + CS7;
      case _ =>
        c := c - PARENB;
        c := c - CSTOPB;
        c := c - CSIZE;
        c := c + CS8;
    }
    assert c == FramingCflag(read, port.icf);
    setting := setting.(cflag := c);
    ok := os.SetAttr(port.hd, setting, r.setOk);
    if !ok {
      return SetIcfError;
    }
    return CommOk;
  }

  /** `comm_Fct_Set`: read the attributes, edit the flow-control bits,
      write them back; a failed write is reported with the framing stage's
      code. */
  method FctSet(os: Os, port: PortObj, r: StageReplies) returns (res: CommError)
    modifies os
    ensures res == StageCode(r, StageError(Flow))
    ensures os.attrs == StageAttrs(old(os.attrs), StageWrite(Flow, old(os.attrs), port), r)
    ensures os.trace == old(os.trace) + StageEvents(port.hd, StageWrite(Flow, old(os.attrs), port), r)
  {
    var ok, setting := os.GetAttr(port.hd, r.getOk);
    if !ok {
      return GetError;
    }
    match port.fct {
      case RtsCts =>
        setting := setting.(cflag := setting.cflag + CRTSCTS);
      case NoFlow =>
        setting := setting.(cflag := setting.cflag - CRTSCTS);
      case XonXoff =>
        setting := setting.(cflag := setting.cflag - CRTSCTS);
        setting := setting.(iflag := setting.iflag + (IXON + IXOFF + IXANY));
      case FctUnknown =>
    }
    ok := os.SetAttr(port.hd, setting, r.setOk);
    if !ok {
      return SetIcfError;
    }
    return CommOk;
  }

  // ---- open and close ------------------------------------------------------

  /** How the operating system answers the open sequence: the value `open`
      returns, the two calls of each stage, and the final `tcsetattr`. */
  datatype OpenReplies = OpenReplies(
    fd: int, baud: StageReplies, framing: StageReplies, flow: StageReplies, finalOk: bool)

  /** The code each of the five steps would return on its own: open, baud,
      framing, flow control, final write. */
  function OpenStepCodes(r: OpenReplies): seq<CommError> {
    [if r.fd < 0 then OpenError else CommOk,
     StageCode(r.baud, SetFail),
     StageCode(r.framing, SetIcfError),
     StageCode(r.flow, SetIcfError),
     if r.finalOk then CommOk else SetFail]
  }

  /** What the open sequence returns, and the device's attributes and the
      trace of system calls afterwards. */
  datatype OpenRun = OpenRun(code: CommError, attrs: Termios, trace: seq<Event>)

  /** The three attribute stages, in the order the open sequence runs them. */
  datatype Stage = Baud | Framing | Flow

  /** The value a stage writes, computed from the value it reads. */
  function StageWrite(k: Stage, t: Termios, port: PortObj): Termios {
    match k
    case Baud => WithBaud(t, port.brt)
    case Framing => WithFraming(t, port.icf)
    case Flow => WithFlow(t, port.fct)
  }

  /** The code a stage returns when its write fails: the baud stage has its
      own, the framing and flow-control stages share one. */
  function StageError(k: Stage): CommError {
    if k == Baud then SetFail else SetIcfError
  }

  /** One stage on the handle in `port`, run only if everything before it
      succeeded. */
  ghost function RunStage(k: Stage, run: OpenRun, port: PortObj, r: StageReplies): OpenRun {
    if run.code != CommOk then run
    else
      var w := StageWrite(k, run.attrs, port);
      OpenRun(StageCode(r, StageError(k)), StageAttrs(run.attrs, w, r), run.trace + StageEvents(port.hd, w, r))
  }

  /** The final write of the zeroed attributes, closing the handle if it
      fails. */
  ghost function FinalStep(run: OpenRun, hd: int, ok: bool): OpenRun {
    if run.code != CommOk then run
    else if ok then OpenRun(CommOk, FinalAttrs, run.trace + [AttrsWritten(hd, FinalAttrs, true)])
    else OpenRun(SetFail, run.attrs, run.trace + [AttrsWritten(hd, FinalAttrs, false), Closed(hd)])
  }

  /** `comm_Open_Port` from the device's attributes `a` and the calls made
      so far, `before`: open the path, run the three stages in order, stop at
      the first failure without closing, then write the zeroed attributes
      and close only if that write fails. */
  ghost function OpenSpec(a: Termios, before: seq<Event>, port: PortObj, r: OpenReplies): (run: OpenRun)
    ensures run.code in {CommOk, OpenError, GetError, SetFail, SetIcfError}
    ensures run.code == OpenError <==> r.fd < 0
    ensures |before| < |run.trace| && run.trace[..|before|] == before
    ensures run.trace[|before|] == if r.fd < 0 then OpenFailed(CStr(port.portName)) else Opened(CStr(port.portName), r.fd)
  {
    var path := CStr(port.portName);
    if r.fd < 0 then OpenRun(OpenError, a, before + [OpenFailed(path)])
    else
      var p := port.(hd := r.fd);
      var start := OpenRun(CommOk, a, before + [Opened(path, r.fd)]);
      var baud := RunStage(Baud, start, p, r.baud);
      var framing := RunStage(Framing, baud, p, r.framing);
      var flow := RunStage(Flow, framing, p, r.flow);
      FinalStep(flow, r.fd, r.finalOk)
  }

  /** `comm_Open_Port`.  The record is a copy: the handle it stores is lost
      when the call returns. */
  method OpenPort(os: Os, port: PortObj, r: OpenReplies) returns (res: CommError)
    modifies os
    ensures var run := OpenSpec(old(os.attrs), old(os.trace), port, r);
      res == run.code && os.attrs == run.attrs && os.trace == run.trace
  {
    var p := port;
    var hd := os.Open(CStr(p.portName), r.fd);
    p := p.(hd := hd);
    if p.hd < 0 {
      p := p.(hd := INVALID_HANDLE);
      return OpenError;
    }
    var setting := Zeroed;
    setting := setting.(cflag := CREAD + CLOCAL + HUPCL);
    ghost var run := OpenRun(CommOk, old(os.attrs), os.trace);
    res := BrtSet(os, p, r.baud);
    run := RunStage(Baud, run, p, r.baud);
    assert res == run.code && os.attrs == run.attrs && os.trace == run.trace;
    if res != CommOk {
      return;
    }
    res := IcfSet(os, p, r.framing);
    run := RunStage(Framing, run, p, r.framing);
    assert res == run.code && os.attrs == run.attrs && os.trace == run.trace;
    if res != CommOk {
      return;
    }
    res := FctSet(os, p, r.flow);
    run := RunStage(Flow, run, p, r.flow);
    assert res == run.code && os.attrs == run.attrs && os.trace == run.trace;
    if res != CommOk {
      return;
    }
    var ok := os.SetAttr(p.hd, setting, r.finalOk);
    if !ok {
      os.Close(p.hd);
      p := p.(hd := INVALID_HANDLE);
      return SetFail;
    }
    return res;
  }

  /** The close call `comm_Close_Port` makes for a handle. */
  ghost function CloseEvents(hd: int): seq<Event> {
    if hd != INVALID_HANDLE then [Closed(hd)] else []
  }

  /** `comm_Close_Port`: close unless the handle is INVALID_HANDLE; always
      success.  Invalidating the handle only touches the copy. */
  method ClosePort(os: Os, port: PortObj) returns (res: CommError)
    modifies os`trace
    ensures res == CommOk
    ensures os.trace == old(os.trace) + CloseEvents(port.hd)
  {
    var p := port;
    if p.hd != INVALID_HANDLE {
      os.Close(p.hd);
      p := p.(hd := INVALID_HANDLE);
    }
    return CommOk;
  }

  /** All three stages succeed, so the final write is reached. */
  predicate StagesSucceed(r: OpenReplies) {
    StageCode(r.baud, SetFail) == CommOk && StageCode(r.framing, SetIcfError) == CommOk
    && StageCode(r.flow, SetIcfError) == CommOk
  }

  /** The open sequence returns the code of the first of its five steps that
      fails. */
  lemma OpenReturnsFirstFailure(a: Termios, before: seq<Event>, port: PortObj, r: OpenReplies)
    ensures OpenSpec(a, before, port, r).code == FirstFailure(OpenStepCodes(r))
  {
    var cs := OpenStepCodes(r);
    assert cs[1..] == [cs[1], cs[2], cs[3], cs[4]];
    assert cs[1..][1..] == [cs[2], cs[3], cs[4]];
    assert cs[1..][1..][1..] == [cs[3], cs[4]];
    assert cs[1..][1..][1..][1..] == [cs[4]];
  }

  /** So the open succeeds exactly when every call it makes succeeds. */
  lemma OpenSucceedsIffAllCallsSucceed(a: Termios, before: seq<Event>, port: PortObj, r: OpenReplies)
    ensures OpenSpec(a, before, port, r).code == CommOk <==>
      r.fd >= 0 && r.baud == r.framing == r.flow == StageReplies(true, true) && r.finalOk
  {
    OpenReturnsFirstFailure(a, before, port, r);
    var cs := OpenStepCodes(r);
    assert cs[0] == CommOk <==> r.fd >= 0;
    assert cs[4] == CommOk <==> r.finalOk;
  }

  /** The calls a successful open makes: the open itself, the three stages'
      writes in order, each computed from what the previous one wrote, and
      the write of the zeroed attributes, which the device keeps. */
  lemma SuccessfulOpenTrace(a: Termios, before: seq<Event>, port: PortObj, r: OpenReplies)
    requires OpenSpec(a, before, port, r).code == CommOk
    ensures var run := OpenSpec(a, before, port, r);
      var b := WithBaud(a, port.brt);
      var f := WithFraming(b, port.icf);
      run.attrs == FinalAttrs
      && run.trace == before + [Opened(CStr(port.portName), r.fd), AttrsWritten(r.fd, b, true),
                                AttrsWritten(r.fd, f, true), AttrsWritten(r.fd, Configured(a, port), true),
                                AttrsWritten(r.fd, FinalAttrs, true)]
  {
    OpenSucceedsIffAllCallsSucceed(a, before, port, r);
  }

  /** A successful open writes the three stages' values in order and then
      the zeroed attributes, which replace all of them: the device ends with
      `FinalAttrs`, never with the configuration the port asked for.  The
      handle stays open. */
  lemma SuccessfulOpenOverwritesStages(a: Termios, before: seq<Event>, port: PortObj, r: OpenReplies)
    requires OpenSpec(a, before, port, r).code == CommOk
    ensures var run := OpenSpec(a, before, port, r);
      var b := WithBaud(a, port.brt);
      run.attrs == FinalAttrs && run.attrs != Configured(a, port)
      && Writes(run.trace) == Writes(before) + [b, WithFraming(b, port.icf), Configured(a, port), FinalAttrs]
      && IsOpen(run.trace, r.fd)
  {
    SuccessfulOpenTrace(a, before, port, r);
    FinalWriteDiscardsStages(a, port);
    var b := WithBaud(a, port.brt);
    OpenThenWrites(before, CStr(port.portName), r.fd, b, WithFraming(b, port.icf), Configured(a, port), FinalAttrs);
  }

  /** An open followed by four successful writes on its handle: the writes
      are recorded in order and the handle stays open. */
  lemma OpenThenWrites(before: seq<Event>, path: string, fd: int, b: Termios, f: Termios, c: Termios, z: Termios)
    ensures var trace := before + [Opened(path, fd), AttrsWritten(fd, b, true), AttrsWritten(fd, f, true),
                                   AttrsWritten(fd, c, true), AttrsWritten(fd, z, true)];
      Writes(trace) == Writes(before) + [b, f, c, z] && IsOpen(trace, fd)
  {
    var t0 := before + [Opened(path, fd)];
    var t1 := t0 + [AttrsWritten(fd, b, true)];
    var t2 := t1 + [AttrsWritten(fd, f, true)];
    var t3 := t2 + [AttrsWritten(fd, c, true)];
    var t4 := t3 + [AttrsWritten(fd, z, true)];
    assert t4 == before + [Opened(path, fd), AttrsWritten(fd, b, true), AttrsWritten(fd, f, true),
                           AttrsWritten(fd, c, true), AttrsWritten(fd, z, true)];
    WritesAppend(before, Opened(path, fd));
    WritesAppend(t0, AttrsWritten(fd, b, true));
    WritesAppend(t1, AttrsWritten(fd, f, true));
    WritesAppend(t2, AttrsWritten(fd, c, true));
    WritesAppend(t3, AttrsWritten(fd, z, true));
    IsOpenAppend(before, Opened(path, fd), fd);
    IsOpenAppend(t0, AttrsWritten(fd, b, true), fd);
    IsOpenAppend(t1, AttrsWritten(fd, f, true), fd);
    IsOpenAppend(t2, AttrsWritten(fd, c, true), fd);
    IsOpenAppend(t3, AttrsWritten(fd, z, true), fd);
  }

  /** When a stage fails after the open succeeded, the sequence returns
      without closing: the handle stays open, and since the caller's record
      never receives it, nothing can close it later. */
  lemma StageFailureLeaksHandle(a: Termios, before: seq<Event>, port: PortObj, r: OpenReplies)
    requires r.fd >= 0 && !StagesSucceed(r)
    ensures OpenSpec(a, before, port, r).code != CommOk
    ensures IsOpen(OpenSpec(a, before, port, r).trace, r.fd)
  {
    var t0 := before + [Opened(CStr(port.portName), r.fd)];
    var trace := OpenSpec(a, before, port, r).trace;
    var ws := trace[|t0|..];
    assert trace == t0 + ws;
    assert forall i :: 0 <= i < |ws| ==> ws[i].AttrsWritten?;
    IsOpenAppend(before, Opened(CStr(port.portName), r.fd), r.fd);
    IsOpenAcrossWrites(t0, ws, r.fd);
  }

  /** Only a failure of the final write closes the handle; the device then
      keeps the three stages' configuration. */
  lemma FinalFailureClosesHandle(a: Termios, before: seq<Event>, port: PortObj, r: OpenReplies)
    requires r.fd >= 0 && StagesSucceed(r) && !r.finalOk
    ensures OpenSpec(a, before, port, r).code == SetFail
    ensures OpenSpec(a, before, port, r).attrs == Configured(a, port)
    ensures !IsOpen(OpenSpec(a, before, port, r).trace, r.fd)
  {
    var trace := OpenSpec(a, before, port, r).trace;
    var init := trace[..|trace| - 1];
    assert trace == init + [Closed(r.fd)];
    IsOpenAppend(init, Closed(r.fd), r.fd);
  }

  /** Closing a valid handle leaves it closed and every other handle as it
      was; INVALID_HANDLE is never passed to `close`. */
  lemma CloseReleasesOnlyItsHandle(before: seq<Event>, hd: int, other: int)
    ensures hd != INVALID_HANDLE ==> !IsOpen(before + CloseEvents(hd), hd)
    ensures other != hd ==> IsOpen(before + CloseEvents(hd), other) == IsOpen(before, other)
    ensures hd == INVALID_HANDLE ==> before + CloseEvents(hd) == before
  {
    if hd != INVALID_HANDLE {
      IsOpenAppend(before, Closed(hd), hd);
      IsOpenAppend(before, Closed(hd), other);
    } else {
      assert before + CloseEvents(hd) == before;
    }
  }

  // ---- the port record behind the pointer ------------------------------------

  /** The caller's `portObj_t` that `comm_Get_Opt` and the map functions
      write through a pointer. */
  class PortRecord {
    var hd: int
    const portName: array<char>
    var brt: uint32
    var icf: Icf
    var fct: Fct

    ghost predicate Valid()
      reads this
    {
      portName.Length == PORT_PATH_MAX
    }

    /** The record's current contents. */
    function Value(): PortObj
      requires Valid()
      reads this, portName
    {
      PortObj(hd, portName[..], brt, icf, fct)
    }

    constructor(p: PortObj)
      ensures Valid() && Value() == p && fresh(portName)
    {
      hd := p.hd;
      brt := p.brt;
      icf := p.icf;
      fct := p.fct;
      portName := new char[PORT_PATH_MAX](i requires 0 <= i < PORT_PATH_MAX => p.portName[i]);
    }

    /** `comm_Icf_Map`: the framing of the first table row whose key is a
        prefix of `opt`; nothing else in the record changes. */
    method IcfMap(opt: string) returns (res: CommError)
      modifies this`icf
      ensures res == OptionCode(OptEvent('i', opt))
      ensures res == CommOk <==> exists i :: 0 <= i < |IcfTable| && IcfTable[i].key <= opt
      ensures icf == if res == CommOk then FirstMatch(IcfTable, opt).value else old(icf)
    {
      var found := FindPrefixEntry(IcfTable, opt);
      if found.Some? {
        icf := found.value;
        return CommOk;
      }
      return MapIcfError;
    }

    /** `comm_Fct_Map`: the flow control of the first table row whose key is a
        prefix of `opt`; nothing else in the record changes. */
    method FctMap(opt: string) returns (res: CommError)
      modifies this`fct
      ensures res == OptionCode(OptEvent('f', opt))
      ensures res == CommOk <==> exists i :: 0 <= i < |FctTable| && FctTable[i].key <= opt
      ensures fct == if res == CommOk then FirstMatch(FctTable, opt).value else old(fct)
    {
      var found := FindPrefixEntry(FctTable, opt);
      if found.Some? {
        fct := found.value;
        return CommOk;
      }
      return MapFctError;
    }

    /** One pass of `comm_Get_Opt`'s switch: an accepted option writes its
        field, a rejected one leaves the record as it was and reports its
        code. */
    method ApplyOption(e: OptEvent) returns (res: CommError)
      requires Valid()
      modifies this, portName
      ensures Valid()
      ensures res == OptionCode(e)
      ensures Value() == if res == CommOk then Update(old(Value()), e) else old(Value())
    {
      ghost var before := Value();
      match e.c {
        case 'p' =>
          if |e.arg| < PORT_PATH_MAX {
            Strncpy(portName, e.arg, |e.arg|);
            assert portName[..] == Overwrite(before.portName, e.arg);
          } else {
            return GetParmError;
          }
        case 'b' =>
          brt := ToUint32(Atoi(e.arg));
        case 'f' =>
          res := FctMap(e.arg);
          return;
        case 'i' =>
          res := IcfMap(e.arg);
          return;
        case _ =>
      }
      return CommOk;
    }

    /** `comm_Get_Opt`: the options in order, written into this record, then
        the leftover check. */
    method GetOpt(events: seq<OptEvent>, leftovers: seq<string>) returns (res: CommError)
      requires Valid()
      modifies this, portName
      ensures Valid()
      ensures ParseArgs(old(Value()), events, leftovers) == Parsed(res, Value())
    {
      var k := 0;
      while k < |events|
        invariant 0 <= k <= |events|
        invariant Valid()
        invariant RunOptions(old(Value()), events) == RunOptions(Value(), events[k..])
      {
        assert events[k..][1..] == events[k + 1..];
        res := ApplyOption(events[k]);
        if res != CommOk {
          return;
        }
        k := k + 1;
      }
      if |leftovers| > 0 {
        return GetParmError;
      }
      return CommOk;
    }
  }
}
