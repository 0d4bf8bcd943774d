/**
 * What `comm_Get_Opt` does with the options `getopt_long` hands it, as
 * functions on the port record: each option's own result code, its effect
 * on the record, and the left-to-right run that stops at the first
 * failure.  Both source files implement this loop; they differ only in
 * whether the record they update is the caller's.
 */
module Options {
  import opened SerialTypes
  import opened OptionTables

  /** One option as `getopt_long` reports it: the short option character
      (the long forms report the same one, and anything unrecognised some
      other character) and its argument. */
  datatype OptEvent = OptEvent(c: char, arg: string)

  // ---- atoi --------------------------------------------------------------

  predicate IsSpace(ch: char) {
    ch == ' ' || ch == '\t' || ch == '\n' || ch == '\U{0B}' || ch == '\U{0C}' || ch == '\r'
  }

  predicate IsDigit(ch: char) {
    '0' <= ch <= '9'
  }

  function SkipSpaces(s: string): (t: string)
    ensures |t| <= |s|
    ensures t != [] ==> !IsSpace(t[0])
  {
    if s != [] && IsSpace(s[0]) then SkipSpaces(s[1..]) else s
  }

  /** The run of decimal digits at the start of `s`. */
  function LeadingDigits(s: string): (ds: string)
    ensures ds <= s
    ensures forall i :: 0 <= i < |ds| ==> IsDigit(ds[i])
    ensures |ds| < |s| ==> !IsDigit(s[|ds|])
  {
    if s != [] && IsDigit(s[0]) then [s[0]] + LeadingDigits(s[1..]) else []
  }

  function DigitValue(ch: char): nat
    requires IsDigit(ch)
  {
    ch as int - '0' as int
  }

  /** The value of a string of decimal digits. */
  function DecimalValue(ds: string): nat
    requires forall i :: 0 <= i < |ds| ==> IsDigit(ds[i])
  {
    if ds == [] then 0
    else DecimalValue(ds[..|ds| - 1]) * 10 + DigitValue(ds[|ds| - 1])
  }

  /** The digit run of a string is everything before its first non-digit. */
  lemma {:induction false} LeadingDigitsUpTo(s: string, n: nat)
    requires n <= |s| && (n == |s| || !IsDigit(s[n]))
    requires forall i :: 0 <= i < n ==> IsDigit(s[i])
    ensures LeadingDigits(s) == s[..n]
    decreases n
  {
    if n > 0 {
      LeadingDigitsUpTo(s[1..], n - 1);
      assert s[..n] == [s[0]] + s[1..][..n - 1];
    }
  }

  /** `atoi`: optional white space, an optional sign, then the longest run
      of decimal digits; 0 when there are no digits.  (Values beyond the
      range of `int` are undefined behaviour in C and are not bounded here.) */
  function Atoi(s: string): (n: int)
    ensures n < 0 ==> SkipSpaces(s) != [] && SkipSpaces(s)[0] == '-'
    ensures SkipSpaces(s) != [] && IsDigit(SkipSpaces(s)[0]) ==> n == DecimalValue(LeadingDigits(SkipSpaces(s)))
  {
    SignedValue(SkipSpaces(s))
  }

  /** The value of an optional sign followed by the digit run. */
  function SignedValue(t: string): int {
    if t != [] && t[0] == '-' then -(Magnitude(t[1..]) as int)
    else if t != [] && t[0] == '+' then Magnitude(t[1..])
    else Magnitude(t)
  }

  /** The value of the digit run at the start of `t`. */
  function Magnitude(t: string): nat {
    DecimalValue(LeadingDigits(t))
  }

  /** A value with no digit where the number should start converts to 0, so
      `-b fast` requests baud rate 0. */
  lemma AtoiWithoutDigits(s: string)
    requires var t := SkipSpaces(s);
      t == [] || (!IsDigit(t[0]) && ((t[0] != '-' && t[0] != '+') || |t| == 1 || !IsDigit(t[1])))
    ensures Atoi(s) == 0
  {
    var t := SkipSpaces(s);
    if t != [] && (t[0] == '-' || t[0] == '+') {
      assert LeadingDigits(t[1..]) == [];
    } else {
      assert LeadingDigits(t) == [];
    }
  }

  /** Appending a digit multiplies the value by ten and adds the digit. */
  lemma DecimalValueAppend(ds: string, d: char)
    requires forall i :: 0 <= i < |ds| ==> IsDigit(ds[i])
    requires IsDigit(d)
    ensures DecimalValue(ds + [d]) == DecimalValue(ds) * 10 + DigitValue(d)
  {
    assert (ds + [d])[..|ds|] == ds;
  }

  /** A string made only of digits is its own digit run. */
  lemma {:induction false} AllDigitsLead(s: string)
    requires forall i :: 0 <= i < |s| ==> IsDigit(s[i])
    ensures LeadingDigits(s) == s
    decreases |s|
  {
    if s != [] {
      AllDigitsLead(s[1..]);
      assert [s[0]] + s[1..] == s;
    }
  }

  /** A string of decimal digits converts to its value. */
  lemma AtoiOfDigits(s: string)
    requires s != [] && forall i :: 0 <= i < |s| ==> IsDigit(s[i])
    ensures Atoi(s) == DecimalValue(s)
  {
    AllDigitsLead(s);
    assert IsDigit(s[0]);
    assert !IsSpace(s[0]) && s[0] != '-' && s[0] != '+';
    assert SkipSpaces(s) == s;
    assert SignedValue(s) == Magnitude(s);
  }

  /** A minus sign followed by decimal digits converts to the negated value. */
  lemma AtoiOfNegative(ds: string)
    requires ds != [] && forall i :: 0 <= i < |ds| ==> IsDigit(ds[i])
    ensures Atoi(['-'] + ds) == -(DecimalValue(ds) as int)
  {
    var s := ['-'] + ds;
    assert SkipSpaces(s) == s;
    assert s[1..] == ds;
    LeadingDigitsUpTo(ds, |ds|);
    assert ds[..|ds|] == ds;
  }

  lemma AtoiOfBaudRate()
    ensures Atoi("115200") == 115200
  {
    AtoiOfDigits("115200");
    BaudRateDigits();
  }

  lemma BaudRateDigits()
    ensures DecimalValue("115200") == 115200
  {
    var d1 := ['1'];
    DecimalValueAppend([], '1');
    var d2 := d1 + ['1'];
    DecimalValueAppend(d1, '1');
    var d3 := d2 + ['5'];
    DecimalValueAppend(d2, '5');
    var d4 := d3 + ['2'];
    DecimalValueAppend(d3, '2');
    var d5 := d4 + ['0'];
    DecimalValueAppend(d4, '0');
    var d6 := d5 + ['0'];
    DecimalValueAppend(d5, '0');
    assert d6 == "115200";
  }

  /** Leading white space is skipped and the digits end at the first
      non-digit. */
  lemma AtoiStopsAtNonDigit()
    ensures Atoi(" 96x") == 96
  {
    var t := " 96x";
    assert SkipSpaces(t[1..]) == t[1..] == "96x";
    assert SkipSpaces(t) == "96x";
    LeadingDigitsUpTo("96x", 2);
    var ds := "96x"[..2];
    assert ds == ['9'] + ['6'];
    DecimalValueAppend(['9'], '6');
    assert DecimalValue(['9']) == 9;
  }

  /** Storing `-v` into the unsigned 32-bit baud field leaves 2^32 - v, so
      `-b -1` requests baud rate 0xFFFFFFFF. */
  lemma WrapNegative(v: int)
    requires 0 < v < 0x1_0000_0000
    ensures ToUint32(-v) as int == 0x1_0000_0000 - v
  {
    var m := 0x1_0000_0000 - v;
    assert -v == -1 * 0x1_0000_0000 + m;
    assert (-v) % 0x1_0000_0000 == m;
  }

  // ---- one option ----------------------------------------------------------

  /** The result code an option produces on its own: a path of 64 or more
      characters and a framing or flow-control string that no table row is a
      prefix of are rejected; `-b` and unrecognised options always pass. */
  function OptionCode(e: OptEvent): (r: CommError)
    ensures r == CommOk || (e.c == 'p' && r == GetParmError) || (e.c == 'f' && r == MapFctError)
                        || (e.c == 'i' && r == MapIcfError)
    ensures e.c == 'p' ==> (r == CommOk <==> |e.arg| < PORT_PATH_MAX)
    ensures e.c == 'f' ==> (r == CommOk <==> exists i :: 0 <= i < |FctTable| && FctTable[i].key <= e.arg)
    ensures e.c == 'i' ==> (r == CommOk <==> exists i :: 0 <= i < |IcfTable| && IcfTable[i].key <= e.arg)
  {
    match e.c
    case 'p' => if |e.arg| < PORT_PATH_MAX then CommOk else GetParmError
    case 'f' => if FirstMatch(FctTable, e.arg).Some? then CommOk else MapFctError
    case 'i' => if FirstMatch(IcfTable, e.arg).Some? then CommOk else MapIcfError
    case _ => CommOk
  }

  /** What an accepted option writes into the record. */
  function Update(p: PortObj, e: OptEvent): (q: PortObj)
    requires OptionCode(e) == CommOk
    ensures e.c != 'p' ==> q.portName == p.portName
    ensures e.c != 'b' ==> q.brt == p.brt
    ensures e.c != 'i' ==> q.icf == p.icf
    ensures e.c != 'f' ==> q.fct == p.fct
    ensures q.hd == p.hd
  {
    match e.c
    case 'p' => p.(portName := Overwrite(p.portName, e.arg))
    case 'b' => p.(brt := ToUint32(Atoi(e.arg)))
    case 'f' => p.(fct := FirstMatch(FctTable, e.arg).value)
    case 'i' => p.(icf := FirstMatch(IcfTable, e.arg).value)
    case _ => p
  }

  // ---- the option loop -------------------------------------------------------

  /** A result code together with the record as it stands when it is returned. */
  datatype Parsed = Parsed(code: CommError, port: PortObj)

  /** The options in order; the first one that fails ends the run with its
      code, and whatever earlier options wrote stays written. */
  function RunOptions(p: PortObj, evs: seq<OptEvent>): (r: Parsed)
    ensures r.code in {CommOk, GetParmError, MapFctError, MapIcfError}
    ensures r.port.hd == p.hd
    decreases |evs|
  {
    if evs == [] then Parsed(CommOk, p)
    else if OptionCode(evs[0]) != CommOk then Parsed(OptionCode(evs[0]), p)
    else RunOptions(Update(p, evs[0]), evs[1..])
  }

  /** The whole of `comm_Get_Opt`: the option run, then any leftover
      non-option argument turns success into `COMM_PORT_GET_PARM_ERROR`. */
  function ParseArgs(p: PortObj, evs: seq<OptEvent>, leftovers: seq<string>): (r: Parsed)
    ensures r.port == RunOptions(p, evs).port
    ensures r.port.hd == p.hd
    ensures leftovers != [] ==> r.code != CommOk
    ensures RunOptions(p, evs).code == CommOk && leftovers != [] ==> r.code == GetParmError
  {
    var r := RunOptions(p, evs);
    if r.code == CommOk && leftovers != [] then Parsed(GetParmError, r.port) else r
  }

  /** The code each option produces on its own, in order. */
  function OptionCodes(evs: seq<OptEvent>): (cs: seq<CommError>)
    ensures |cs| == |evs|
    ensures forall i :: 0 <= i < |evs| ==> cs[i] == OptionCode(evs[i])
  {
    seq(|evs|, i requires 0 <= i < |evs| => OptionCode(evs[i]))
  }

  /** The code of the first option that fails on its own, or success. */
  function FirstOptionFailure(evs: seq<OptEvent>): (r: CommError)
    ensures r == CommOk <==> forall i :: 0 <= i < |evs| ==> OptionCode(evs[i]) == CommOk
    ensures r != CommOk ==> exists i :: 0 <= i < |evs| && OptionCode(evs[i]) == r
                                 && (forall j :: 0 <= j < i ==> OptionCode(evs[j]) == CommOk)
  {
    FirstFailure(OptionCodes(evs))
  }

  /** The first failure is found one option at a time. */
  lemma FirstOptionFailureStep(evs: seq<OptEvent>)
    requires evs != []
    ensures FirstOptionFailure(evs)
         == if OptionCode(evs[0]) != CommOk then OptionCode(evs[0]) else FirstOptionFailure(evs[1..])
  {
    assert OptionCodes(evs)[1..] == OptionCodes(evs[1..]);
  }

  /** The result code defined without the record: the first failing option,
      then the leftover check. */
  function ParseCode(evs: seq<OptEvent>, leftovers: seq<string>): (r: CommError)
    ensures r == CommOk <==> leftovers == [] && forall i :: 0 <= i < |evs| ==> OptionCode(evs[i]) == CommOk
    ensures FirstOptionFailure(evs) != CommOk ==> r == FirstOptionFailure(evs)
    ensures FirstOptionFailure(evs) == CommOk && leftovers != [] ==> r == GetParmError
  {
    var c := FirstOptionFailure(evs);
    if c != CommOk then c else if leftovers != [] then GetParmError else CommOk
  }

  /** A stray argument after a valid path is rejected as a parameter error. */
  lemma StrayArgumentRejected()
    ensures ParseCode([OptEvent('p', "/dev/ttyS0")], ["extra"]) == GetParmError
  {
  }

  /** The record never influences the result code: whatever record is
      updated, `comm_Get_Opt` returns `ParseCode`. */
  lemma {:induction false} ParseCodeIgnoresRecord(p: PortObj, evs: seq<OptEvent>, leftovers: seq<string>)
    ensures ParseArgs(p, evs, leftovers).code == ParseCode(evs, leftovers)
  {
    RunCodeIsFirstFailure(p, evs);
  }

  lemma {:induction false} RunCodeIsFirstFailure(p: PortObj, evs: seq<OptEvent>)
    ensures RunOptions(p, evs).code == FirstOptionFailure(evs)
    decreases |evs|
  {
    if evs != [] {
      FirstOptionFailureStep(evs);
      if OptionCode(evs[0]) == CommOk {
        RunCodeIsFirstFailure(Update(p, evs[0]), evs[1..]);
      }
    }
  }

  /** When option `k` is the first to fail, parsing returns its code and the
      record as the options before it left it. */
  lemma {:induction false} FailureKeepsEarlierOptions(p: PortObj, evs: seq<OptEvent>, leftovers: seq<string>, k: nat)
    requires k < |evs| && OptionCode(evs[k]) != CommOk
    requires forall j :: 0 <= j < k ==> OptionCode(evs[j]) == CommOk
    ensures ParseArgs(p, evs, leftovers) == Parsed(OptionCode(evs[k]), RunOptions(p, evs[..k]).port)
    ensures RunOptions(p, evs[..k]).code == CommOk
    decreases k
  {
    if k > 0 {
      assert evs[1..][..k - 1] == evs[..k][1..];
      FailureKeepsEarlierOptions(Update(p, evs[0]), evs[1..], leftovers, k - 1);
    }
  }

  /** Options with another character leave a field alone. */
  lemma {:induction false} FieldKeptWithoutItsOption(p: PortObj, evs: seq<OptEvent>, c: char)
    requires forall j :: 0 <= j < |evs| ==> evs[j].c != c
    ensures var q := RunOptions(p, evs).port;
      (c == 'p' ==> q.portName == p.portName) && (c == 'b' ==> q.brt == p.brt)
      && (c == 'i' ==> q.icf == p.icf) && (c == 'f' ==> q.fct == p.fct)
    decreases |evs|
  {
    if evs != [] && OptionCode(evs[0]) == CommOk {
      FieldKeptWithoutItsOption(Update(p, evs[0]), evs[1..], c);
    }
  }

  /** A later `-b`, `-i` or `-f` overrides an earlier one: after a successful
      run the field holds what the LAST such option asked for. */
  lemma {:induction false} LastOptionWins(p: PortObj, evs: seq<OptEvent>, i: nat)
    requires RunOptions(p, evs).code == CommOk
    requires i < |evs| && evs[i].c in "bif"
    requires forall j :: i < j < |evs| ==> evs[j].c != evs[i].c
    ensures var q := RunOptions(p, evs).port;
      (evs[i].c == 'b' ==> q.brt == ToUint32(Atoi(evs[i].arg)))
      && (evs[i].c == 'i' ==> Some(q.icf) == FirstMatch(IcfTable, evs[i].arg))
      && (evs[i].c == 'f' ==> Some(q.fct) == FirstMatch(FctTable, evs[i].arg))
    decreases i
  {
    assert OptionCode(evs[0]) == CommOk;
    if i == 0 {
      FieldKeptWithoutItsOption(Update(p, evs[0]), evs[1..], evs[0].c);
    } else {
      LastOptionWins(Update(p, evs[0]), evs[1..], i - 1);
    }
  }

  /** `-p` overwrites only as many characters as the new path has and writes
      no terminator, so a second, shorter path keeps the tail of the first. */
  lemma SecondPathKeepsTail(p: PortObj, first: string, second: string)
    requires |second| < |first| < PORT_PATH_MAX
    ensures var q := RunOptions(p, [OptEvent('p', first), OptEvent('p', second)]);
      q.code == CommOk && q.port.portName[..|first|] == second + first[|second|..]
      && q.port.portName[|first|..] == p.portName[|first|..]
  {
    var evs := [OptEvent('p', first), OptEvent('p', second)];
    var q1 := Update(p, evs[0]);
    assert evs[1..] == [OptEvent('p', second)];
    var q2 := Update(q1, evs[1]);
    assert RunOptions(q1, evs[1..]) == RunOptions(q2, []) == Parsed(CommOk, q2);
    assert RunOptions(p, evs) == Parsed(CommOk, q2);
    assert q1.portName == first + p.portName[|first|..];
    assert q2.portName == second + q1.portName[|second|..];
    assert q1.portName[|second|..] == first[|second|..] + p.portName[|first|..];
  }

  /** From a zeroed record, `-p /dev/ttyUSB0 -p /dev/tty` leaves the path
      "/dev/ttyUSB0", not "/dev/tty". */
  lemma SecondPathExample()
    ensures CStr(RunOptions(ZeroPort, [OptEvent('p', "/dev/ttyUSB0"), OptEvent('p', "/dev/tty")]).port.portName)
      == "/dev/ttyUSB0"
  {
    var q := RunOptions(ZeroPort, [OptEvent('p', "/dev/ttyUSB0"), OptEvent('p', "/dev/tty")]);
    SecondPathKeepsTail(ZeroPort, "/dev/ttyUSB0", "/dev/tty");
    assert q.port.portName[..12] == "/dev/ttyUSB0" && q.port.portName[12] == '\0';
    CStrOfTerminated(q.port.portName, 12);
  }

  /** A buffer whose first `n` characters are not NUL and whose next one is
      holds the C string of those `n` characters. */
  lemma {:induction false} CStrOfTerminated(buf: seq<char>, n: nat)
    requires n < |buf| && buf[n] == '\0' && '\0' !in buf[..n]
    ensures CStr(buf) == buf[..n]
    decreases n
  {
    if n > 0 {
      assert buf[1..][..n - 1] == buf[..n][1..];
      CStrOfTerminated(buf[1..], n - 1);
    }
  }

  /** One option of each kind fills in each field from its own argument. */
  lemma OneOfEachOption(p: PortObj, path: string, baud: string, icf: string, fct: string)
    requires |path| < PORT_PATH_MAX
    requires FirstMatch(IcfTable, icf).Some? && FirstMatch(FctTable, fct).Some?
    ensures RunOptions(p, [OptEvent('p', path), OptEvent('b', baud), OptEvent('i', icf), OptEvent('f', fct)])
      == Parsed(CommOk, p.(portName := Overwrite(p.portName, path), brt := ToUint32(Atoi(baud)),
                           icf := FirstMatch(IcfTable, icf).value, fct := FirstMatch(FctTable, fct).value))
  {
    var evs := [OptEvent('p', path), OptEvent('b', baud), OptEvent('i', icf), OptEvent('f', fct)];
    assert evs[1..] == [OptEvent('b', baud), OptEvent('i', icf), OptEvent('f', fct)];
    assert evs[1..][1..] == [OptEvent('i', icf), OptEvent('f', fct)];
    assert evs[1..][1..][1..] == [OptEvent('f', fct)];
    assert evs[1..][1..][1..][1..] == [];
    var q1 := Update(p, evs[0]);
    var q2 := Update(q1, evs[1]);
    var q3 := Update(q2, evs[2]);
    var q4 := Update(q3, evs[3]);
    assert RunOptions(p, evs) == RunOptions(q1, evs[1..]);
    assert RunOptions(q1, evs[1..]) == RunOptions(q2, evs[1..][1..]);
    assert RunOptions(q2, evs[1..][1..]) == RunOptions(q3, evs[1..][1..][1..]);
    assert RunOptions(q3, evs[1..][1..][1..]) == RunOptions(q4, []);
  }

  lemma ExactKeysMatch()
    ensures FirstMatch(IcfTable, "8N1") == Some(Icf8N1) && FirstMatch(FctTable, "none") == Some(NoFlow)
  {
    TablesArePrefixFree();
    KeyWithAnySuffixSelectsRow(IcfTable, 0, "");
    KeyWithAnySuffixSelectsRow(FctTable, 2, "");
    assert IcfTable[0].key + "" == "8N1" && FctTable[2].key + "" == "none";
  }

  /** The command line `--port /dev/ttyUSB0 --baudrate 115200 --icf 8N1
      --flowcontrol none` fills in every field of a zeroed record (the path
      then reads back as itself, by `PathIntoZeroedBuffer`). */
  lemma CommandLineExample()
    ensures var r := RunOptions(ZeroPort, [OptEvent('p', "/dev/ttyUSB0"), OptEvent('b', "115200"),
                                           OptEvent('i', "8N1"), OptEvent('f', "none")]);
      r.code == CommOk && r.port.portName == Overwrite(ZeroPort.portName, "/dev/ttyUSB0")
      && r.port.brt == 115200 && r.port.icf == Icf8N1 && r.port.fct == NoFlow
  {
    ExactKeysMatch();
    AtoiOfBaudRate();
    OneOfEachOption(ZeroPort, "/dev/ttyUSB0", "115200", "8N1", "none");
  }

  /** A path copied into a zeroed buffer reads back as itself. */
  lemma PathIntoZeroedBuffer(path: string)
    requires |path| < PORT_PATH_MAX && '\0' !in path
    ensures CStr(Overwrite(ZeroPort.portName, path)) == path
  {
    var buf := Overwrite(ZeroPort.portName, path);
    assert buf[..|path|] == path && buf[|path|] == '\0';
    CStrOfTerminated(buf, |path|);
  }
}
