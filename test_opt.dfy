/**
 * `test_opt.c`: the same parser and table lookups as `serial_api.c`, but
 * every function receives the port record by value, so what the parser
 * and the lookups write lands on copies and only result codes come back.
 * `main` parses into a copy of the static record `g_portObj`, then opens
 * and closes `g_portObj` itself, which is still all zeros.  The open, close
 * and stage functions of this file match `serial_api.c`'s and are the ones
 * in `SerialApi`.
 */
module TestOpt {
  import opened SerialTypes
  import opened Termios
  import opened OptionTables
  import opened Options
  import opened PosixOs
  import opened SerialApi

  /** `g_portObj`: zero-initialised static storage that no statement writes. */
  const GPortObj: PortObj := ZeroPort

  /** `comm_Icf_Map` on a copy: success exactly when some table key is a
      prefix of `opt`; the framing it finds is written to the copy only. */
  method IcfMap(port: PortObj, opt: string) returns (res: CommError)
    ensures res == CommOk <==> exists i :: 0 <= i < |IcfTable| && IcfTable[i].key <= opt
    ensures res != CommOk ==> res == MapIcfError
    ensures res == OptionCode(OptEvent('i', opt))
  {
    var p := port;
    var found := FindPrefixEntry(IcfTable, opt);
    if found.Some? {
      p := p.(icf := found.value);
      return CommOk;
    }
    return MapIcfError;
  }

  /** `comm_Fct_Map` on a copy: success exactly when some table key is a
      prefix of `opt`; the flow control it finds is written to the copy
      only. */
  method FctMap(port: PortObj, opt: string) returns (res: CommError)
    ensures res == CommOk <==> exists i :: 0 <= i < |FctTable| && FctTable[i].key <= opt
    ensures res != CommOk ==> res == MapFctError
    ensures res == OptionCode(OptEvent('f', opt))
  {
    var p := port;
    var found := FindPrefixEntry(FctTable, opt);
    if found.Some? {
      p := p.(fct := found.value);
      return CommOk;
    }
    return MapFctError;
  }

  /** One pass of `comm_Get_Opt`'s switch on its local copy `p`: the
      option's own code, and the copy as the option leaves it.  The map
      functions receive a copy of the copy, so `-i` and `-f` do not reach
      even the local one. */
  method ApplyOption(p: PortObj, e: OptEvent) returns (res: CommError, q: PortObj)
    ensures res == OptionCode(e)
    ensures res == CommOk ==> q == if e.c == 'i' || e.c == 'f' then p else Update(p, e)
  {
    q := p;
    match e.c {
      case 'p' =>
        if |e.arg| < PORT_PATH_MAX {
          q := q.(portName := Overwrite(q.portName, e.arg));
        } else {
          return GetParmError, q;
        }
      case 'b' =>
        q := q.(brt := ToUint32(Atoi(e.arg)));
      case 'f' =>
        res := FctMap(q, e.arg);
        return;
      case 'i' =>
        res := IcfMap(q, e.arg);
        return;
      case _ =>
    }
    return CommOk, q;
  }

  /** `comm_Get_Opt` on a copy: the caller learns only the result code,
      which is the one the pointer version returns for the same options. */
  method GetOpt(port: PortObj, events: seq<OptEvent>, leftovers: seq<string>) returns (res: CommError)
    ensures res == ParseCode(events, leftovers)
    ensures res == ParseArgs(port, events, leftovers).code
  {
    ParseCodeIgnoresRecord(port, events, leftovers);
    var p := port;
    var k := 0;
    while k < |events|
      invariant 0 <= k <= |events|
      invariant FirstOptionFailure(events[k..]) == FirstOptionFailure(events)
    {
      assert events[k..][1..] == events[k + 1..];
      FirstOptionFailureStep(events[k..]);
      res, p := ApplyOption(p, events[k]);
      if res != CommOk {
        return;
      }
      k := k + 1;
    }
    if |leftovers| > 0 {
      return GetParmError;
    }
    return CommOk;
  }

  /** `main`: a failed parse ends the program with its code before any
      system call; otherwise `g_portObj` is opened and then closed whatever
      the open reported, and the program returns 0. */
  method TestOptMain(os: Os, events: seq<OptEvent>, leftovers: seq<string>, r: OpenReplies)
    returns (status: int)
    modifies os
    ensures ParseCode(events, leftovers) != CommOk ==>
      status == Code(ParseCode(events, leftovers)) as int
      && os.attrs == old(os.attrs) && os.trace == old(os.trace)
    ensures ParseCode(events, leftovers) == CommOk ==>
      var run := OpenSpec(old(os.attrs), old(os.trace), GPortObj, r);
      status == 0 && os.attrs == run.attrs && os.trace == run.trace + CloseEvents(GPortObj.hd)
  {
    var res := GetOpt(GPortObj, events, leftovers);
    if res != CommOk {
      return Code(res) as int;
    }
    var openRes := OpenPort(os, GPortObj, r);
    var closeRes := ClosePort(os, GPortObj);
    return 0;
  }

  /** What `main` asks of the device whatever the command line says: the
      empty path, baud 0 (configured as B115200), 8N1 and RTS/CTS; and the
      close it makes is `close(0)`, since the zero handle is not
      INVALID_HANDLE. */
  lemma MainUsesZeroRecord(a: Termios, before: seq<Event>, r: OpenReplies)
    ensures CStr(GPortObj.portName) == ""
    ensures OpenSpec(a, before, GPortObj, r).trace[|before|]
      == if r.fd >= 0 then Opened("", r.fd) else OpenFailed("")
    ensures var t := Configured(a, GPortObj);
      t.ispeed == t.ospeed == B115200 && t.cflag * CSIZE == CS8
      && t.cflag !! (PARENB + CSTOPB) && CRTSCTS <= t.cflag
    ensures CloseEvents(GPortObj.hd) == [Closed(0)]
  {
    assert GPortObj.portName[0] == '\0';
    var t0 := OpenSpec(a, before, GPortObj, r).trace;
    assert t0[..|before| + 1] == before + [t0[|before|]];
  }

  /** When the open gets a descriptor other than 0 and does not close it
      itself, `main`'s `close(0)` leaves that descriptor open. */
  lemma MainLeavesOpenedHandleOpen(a: Termios, before: seq<Event>, r: OpenReplies)
    requires r.fd > 0 && (!StagesSucceed(r) || r.finalOk)
    ensures IsOpen(OpenSpec(a, before, GPortObj, r).trace + CloseEvents(GPortObj.hd), r.fd)
    ensures !IsOpen(OpenSpec(a, before, GPortObj, r).trace + CloseEvents(GPortObj.hd), 0)
  {
    var run := OpenSpec(a, before, GPortObj, r);
    if StagesSucceed(r) {
      OpenReturnsFirstFailure(a, before, GPortObj, r);
      SuccessfulOpenOverwritesStages(a, before, GPortObj, r);
    } else {
      StageFailureLeaksHandle(a, before, GPortObj, r);
    }
    CloseReleasesOnlyItsHandle(run.trace, GPortObj.hd, r.fd);
  }
}
