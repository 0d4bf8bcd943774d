/**
 * The types of the serial-port API header: the result codes, the framing
 * (ICF) and flow-control (FCT) enumerations, and the port record
 * `portObj_t`, together with the C-string helpers the record's 64-byte
 * path buffer needs.
 */
module SerialTypes {

  /** C `unsigned int` on the platforms the program targets. */
  newtype uint32 = x: int | 0 <= x < 0x1_0000_0000

  /** `(unsigned int)` applied to an `int`: reduction modulo 2^32. */
  function ToUint32(n: int): (u: uint32)
    ensures (u as int - n) % 0x1_0000_0000 == 0
    ensures 0 <= n < 0x1_0000_0000 ==> u as int == n
  {
    (n % 0x1_0000_0000) as uint32
  }

  datatype Option<T> = None | Some(value: T)

  /** Capacity of the record's path buffer. */
  const PORT_PATH_MAX: nat := 64

  /** `(int)0xFFFFFFFF`: the handle value that means "not open". */
  const INVALID_HANDLE: int := -1

  /** `CommErrorCode_e`. */
  datatype CommError =
    | CommOk
    | OpenError
    | GetError
    | GetParmError
    | SetFail
    | SetBrtError
    | SetIcfError
    | SetFctError
    | CloseError
    | MapError
    | MapFctError
    | MapIcfError
    | UnknownError

  /** The numeric value of each result code. */
  function Code(e: CommError): uint32 {
    match e
    case CommOk => 0
    case OpenError => 0x100
    case GetError => 0x200
    case GetParmError => 0x201
    case SetFail => 0x300
    case SetBrtError => 0x301
    case SetIcfError => 0x302
    case SetFctError => 0x303
    case CloseError => 0x400
    case MapError => 0x500
    case MapFctError => 0x501
    case MapIcfError => 0x502
    case UnknownError => 0xFFFF_FFFF
  }

  /** The code of the first failing step in a sequence of steps, or success. */
  function FirstFailure(codes: seq<CommError>): (c: CommError)
    ensures c == CommOk <==> forall i :: 0 <= i < |codes| ==> codes[i] == CommOk
    ensures c != CommOk ==> exists i :: 0 <= i < |codes| && codes[i] == c
                                 && (forall j :: 0 <= j < i ==> codes[j] == CommOk)
  {
    if codes == [] then CommOk
    else if codes[0] != CommOk then codes[0]
    else
      var c := FirstFailure(codes[1..]);
      assert forall i :: 1 <= i < |codes| ==> codes[i] == codes[1..][i - 1];
      c
  }

  /** `CommIcf_e`: character framing. */
  datatype Icf = Icf8N1 | Icf7E1 | Icf7O1 | Icf7S1 | IcfUnknown

  /** `CommFct_e`: flow control. */
  datatype Fct = RtsCts | XonXoff | NoFlow | FctUnknown

  /** The 64-character `portName` buffer of the record. */
  type PathBuffer = s: seq<char> | |s| == PORT_PATH_MAX witness seq(64, _ => '\0')

  /** `portObj_t` as a value: what a by-value parameter carries. */
  datatype PortObj = PortObj(hd: int, portName: PathBuffer, brt: uint32, icf: Icf, fct: Fct)

  /** A record of static storage duration: every byte zero, so `hd == 0`,
      an empty path, baud 0, ICF_8N1 (0) and FCT_RTS_CTS (0). */
  const ZeroPort: PortObj := PortObj(0, seq(PORT_PATH_MAX, _ => '\0'), 0, Icf8N1, RtsCts)

  /** The C string held at the start of a character buffer: the characters
      before the first NUL.  A buffer with no NUL would have `open` read past
      its end, which C leaves undefined; here it yields the whole buffer. */
  function CStr(buf: seq<char>): (s: string)
    ensures s <= buf && '\0' !in s
    ensures |s| < |buf| ==> buf[|s|] == '\0'
  {
    if buf == [] || buf[0] == '\0' then [] else [buf[0]] + CStr(buf[1..])
  }

  /** What `strncpy(buf, s, strlen(s))` leaves in `buf`: the first `|s|`
      characters replaced by `s`, no terminator written, the rest as before. */
  function Overwrite(buf: PathBuffer, s: string): (r: PathBuffer)
    requires |s| <= PORT_PATH_MAX
    ensures r[..|s|] == s
    ensures r[|s|..] == buf[|s|..]
  {
    s + buf[|s|..]
  }

  /** `strncpy(dst, src, n)` on a character array, `src` being the characters
      of a C string: copies `src` and pads with NUL up to `n`, leaving
      everything from `n` onwards untouched. */
  method Strncpy(dst: array<char>, src: string, n: nat)
    requires n <= dst.Length
    modifies dst
    ensures forall i :: 0 <= i < n ==> dst[i] == if i < |src| then src[i] else '\0'
    ensures forall i :: n <= i < dst.Length ==> dst[i] == old(dst[i])
  {
    var i := 0;
    while i < n
      invariant i <= n
      invariant forall j :: 0 <= j < i ==> dst[j] == if j < |src| then src[j] else '\0'
      invariant forall j :: i <= j < dst.Length ==> dst[j] == old(dst[j])
    {
      dst[i] := if i < |src| then src[i] else '\0';
      i := i + 1;
    }
  }
}
