/**
 * The `struct termios` fields the program touches and the three
 * read-modify-write edits it performs on them: baud selection, character
 * framing and flow control.  Flag meanings follow POSIX.1-2017 Base
 * Definitions, chapter 11 (section 11.2.2 Input Modes, section 11.2.4
 * Control Modes); CRTSCTS is the Linux extension.
 *
 * A flag word (`tcflag_t`) is the set of positions of its one bits, so
 * `w &= ~M` is `w - M` and `w |= M` is `w + M`.  The positions and the
 * speed constants are Linux's.
 */
module Termios {
  import opened SerialTypes

  type Bit = b: nat | b < 32
  type Flags = set<Bit>

  // c_cflag masks (section 11.2.4 Control Modes)
  const CSIZE: Flags := {4, 5}      // 0x30
  const CS5: Flags := {}            // 0x00
  const CS7: Flags := {5}           // 0x20
  const CS8: Flags := {4, 5}        // 0x30
  const CSTOPB: Flags := {6}        // 0x40
  const CREAD: Flags := {7}         // 0x80
  const PARENB: Flags := {8}        // 0x100
  const PARODD: Flags := {9}        // 0x200
  const HUPCL: Flags := {10}        // 0x400
  const CLOCAL: Flags := {11}       // 0x800
  const CRTSCTS: Flags := {31}      // 0x80000000

  // c_iflag masks (section 11.2.2 Input Modes)
  const IXON: Flags := {10}         // 0x400
  const IXANY: Flags := {11}        // 0x800
  const IXOFF: Flags := {12}        // 0x1000
  const SOFT_FLOW: Flags := IXON + IXOFF + IXANY

  // speed_t values
  const B0: uint32 := 0
  const B115200: uint32 := 0x1002
  const B230400: uint32 := 0x1003
  const B460800: uint32 := 0x1004
  const B921600: uint32 := 0x1007

  /** Number of control characters in Linux's `struct termios`. */
  const NCCS: nat := 32

  datatype Termios = Termios(
    iflag: Flags, oflag: Flags, cflag: Flags, lflag: Flags,
    line: bv8, cc: seq<bv8>, ispeed: uint32, ospeed: uint32)

  /** `n` zero bytes. */
  function ZeroBytes(n: nat): (z: seq<bv8>)
    ensures |z| == n && forall i :: 0 <= i < n ==> z[i] == 0
  {
    if n == 0 then [] else ZeroBytes(n - 1) + [0]
  }

  /** `memset(&t, 0, sizeof t)`. */
  const Zeroed: Termios := Termios({}, {}, {}, {}, 0, ZeroBytes(NCCS), B0, B0)

  /** What the open sequence finally writes: a zeroed value whose only
      control bits are CREAD | CLOCAL | HUPCL. */
  const FinalAttrs: Termios := Zeroed.(cflag := CREAD + CLOCAL + HUPCL)

  /** The masks are laid out as POSIX requires: the single control bits are
      distinct from each other and from CSIZE, CS7 and CS8 are different
      values inside CSIZE, and the three software flow-control input bits
      are distinct. */
  lemma FlagLayout()
    ensures CS7 <= CSIZE && CS8 <= CSIZE && CS7 != CS8
    ensures CSIZE !! (PARENB + PARODD + CSTOPB + CREAD + CLOCAL + HUPCL + CRTSCTS)
    ensures PARENB !! (PARODD + CSTOPB + CREAD + CLOCAL + HUPCL + CRTSCTS)
    ensures PARODD !! (CSTOPB + CREAD + CLOCAL + HUPCL + CRTSCTS)
    ensures CSTOPB !! (CREAD + CLOCAL + HUPCL + CRTSCTS)
    ensures CREAD !! (CLOCAL + HUPCL + CRTSCTS)
    ensures CLOCAL !! (HUPCL + CRTSCTS) && HUPCL !! CRTSCTS
    ensures IXON !! (IXOFF + IXANY) && IXOFF !! IXANY
  {
  }

  /** The baud rates that have a constant of their own in the switch. */
  predicate Supported(brt: uint32) {
    brt == 115200 || brt == 230400 || brt == 460800 || brt == 921600
  }

  /** The speed constant chosen for a requested baud rate: the rate's own
      constant when it has one, B115200 for everything else. */
  function BaudConstant(brt: uint32): (k: uint32)
    ensures k == B115200 || k == B230400 || k == B460800 || k == B921600
    ensures !Supported(brt) ==> k == B115200
    ensures Supported(brt) ==> SpeedRate(k) == brt
  {
    match brt
    case 115200 => B115200
    case 230400 => B230400
    case 460800 => B460800
    case 921600 => B921600
    case _ => B115200
  }

  /** The baud rate a speed constant stands for (0 for any other value). */
  function SpeedRate(k: uint32): uint32 {
    if k == B115200 then 115200
    else if k == B230400 then 230400
    else if k == B460800 then 460800
    else if k == B921600 then 921600
    else 0
  }

  /** Distinct supported rates get distinct constants, and every constant
      the selection can produce comes back from its rate. */
  lemma BaudConstantRoundTrip(a: uint32, b: uint32, k: uint32)
    ensures Supported(a) && Supported(b) && BaudConstant(a) == BaudConstant(b) ==> a == b
    ensures (k == B115200 || k == B230400 || k == B460800 || k == B921600)
      ==> Supported(SpeedRate(k)) && BaudConstant(SpeedRate(k)) == k
  {
  }

  /** `cfsetispeed` and `cfsetospeed` with the selected constant. */
  function WithBaud(t: Termios, brt: uint32): (r: Termios)
    ensures r.ispeed == r.ospeed == BaudConstant(brt)
    ensures r.(ispeed := t.ispeed, ospeed := t.ospeed) == t
  {
    var k := BaudConstant(brt);
    t.(ispeed := k, ospeed := k)
  }

  predicate SevenBit(icf: Icf) {
    icf == Icf7E1 || icf == Icf7O1
  }

  /** The control bits a framing mode clears: only 7E1 clears PARODD. */
  function FramingClear(icf: Icf): Flags {
    if icf == Icf7E1 then PARENB + PARODD + CSTOPB + CSIZE else PARENB + CSTOPB + CSIZE
  }

  /** The control bits a framing mode sets: 8N1, 7S1 and any other value
      all get 8 data bits without parity. */
  function FramingSet(icf: Icf): Flags {
    match icf
    case Icf7E1 => PARENB + CS7
    case Icf7O1 => PARENB + PARODD + CS7
    case _ => CS8
  }

  /** The control flags after the framing edit. */
  function FramingCflag(c: Flags, icf: Icf): (r: Flags)
    ensures r !! CSTOPB
    ensures r * CSIZE == if SevenBit(icf) then CS7 else CS8
    ensures PARENB <= r <==> SevenBit(icf)
    ensures icf == Icf7O1 ==> PARODD <= r
    ensures icf == Icf7E1 ==> r !! PARODD
    ensures !SevenBit(icf) ==> r * PARODD == c * PARODD
    ensures r - (CSIZE + PARENB + PARODD + CSTOPB) == c - (CSIZE + PARENB + PARODD + CSTOPB)
  {
    (c - FramingClear(icf)) + FramingSet(icf)
  }

  /** The control flags after the flow-control edit: hardware flow control
      on for RTS/CTS, off for XON/XOFF and for no flow control, unchanged
      for any other value; no other control bit moves. */
  function FlowCflag(c: Flags, fct: Fct): (r: Flags)
    ensures CRTSCTS <= r <==> fct == RtsCts || (fct == FctUnknown && CRTSCTS <= c)
    ensures r - CRTSCTS == c - CRTSCTS
  {
    match fct
    case RtsCts => c + CRTSCTS
    case NoFlow => c - CRTSCTS
    case XonXoff => c - CRTSCTS
    case FctUnknown => c
  }

  /** The input flags after the flow-control edit: XON/XOFF turns on all
      three software flow-control bits; every other mode leaves the input
      flags alone. */
  function FlowIflag(i: Flags, fct: Fct): (r: Flags)
    ensures r * SOFT_FLOW == if fct == XonXoff then SOFT_FLOW else i * SOFT_FLOW
    ensures r - SOFT_FLOW == i - SOFT_FLOW
  {
    if fct == XonXoff then i + SOFT_FLOW else i
  }

  /** What the framing stage writes: the value it read with its control
      flags re-framed. */
  function WithFraming(t: Termios, icf: Icf): (r: Termios)
    ensures r.(cflag := t.cflag) == t
    ensures r.cflag !! CSTOPB
    ensures r.cflag * CSIZE == if SevenBit(icf) then CS7 else CS8
    ensures PARENB <= r.cflag <==> SevenBit(icf)
  {
    t.(cflag := FramingCflag(t.cflag, icf))
  }

  /** What the flow-control stage writes; an unknown mode writes back
      exactly what it read. */
  function WithFlow(t: Termios, fct: Fct): (r: Termios)
    ensures fct == FctUnknown ==> r == t
  {
    t.(cflag := FlowCflag(t.cflag, fct), iflag := FlowIflag(t.iflag, fct))
  }

  /** The three stages applied in the order the open sequence runs them,
      each reading back what the previous one wrote. */
  function Configured(t: Termios, port: PortObj): Termios {
    WithFlow(WithFraming(WithBaud(t, port.brt), port.icf), port.fct)
  }

  /** The final write undoes every stage: whatever the port asked for, the
      line ends with speed B0, character size CS5, no parity and no
      hardware or software flow control. */
  lemma FinalWriteDiscardsStages(t: Termios, port: PortObj)
    ensures Configured(t, port) != FinalAttrs
    ensures FinalAttrs.ispeed == FinalAttrs.ospeed == B0
    ensures FinalAttrs.cflag * CSIZE == CS5
    ensures FinalAttrs.cflag !! (PARENB + CRTSCTS + CSTOPB) && FinalAttrs.iflag !! SOFT_FLOW
  {
    assert Configured(t, port).ispeed == BaudConstant(port.brt) != B0;
  }
}
