# Serial-port configuration, modelled in Dafny

This project models the part of the serial-port utility that sits between the
command line and the serial line's terminal attributes. It covers the code as it
appears in `serial_api.c` and in its near-copy `test_opt.c`:

- **Option parsing.** `comm_Get_Opt` takes the `(option, argument)` pairs that
  `getopt_long` reports, plus the non-option arguments that remain. It writes the
  path, baud rate, character framing (ICF) and flow control (FCT) into the port
  record.
- **Token lookup.** `comm_Icf_Map` and `comm_Fct_Map` look a token up by prefix
  in two static tables.
- **Attribute stages.** `comm_Brt_Set`, `comm_Icf_Set` and `comm_Fct_Set` each
  read the `struct termios`, edit it in place and write it back.
- **Open and close.** `comm_Open_Port` opens the device, runs the three stages
  and then makes a final attribute write. `comm_Close_Port` closes the handle.
- **`main` in `test_opt.c`.** It parses, opens and closes the static
  `g_portObj`.

The two files pass the record differently:

- In `serial_api.c`, `comm_Get_Opt` and the map functions write through a
  pointer. They are methods of the class `SerialApi.PortRecord`, whose 64-byte
  path buffer is an `array<char>`. Open, close and the stages take the record by
  value, as the datatype `SerialTypes.PortObj`.
- In `test_opt.c`, every function takes the record by value. `TestOpt.GetOpt`
  and the two map functions therefore return only a result code, and nothing
  they write reaches the caller.
- The open, close and stage functions of `test_opt.c` are the same code as
  those of `serial_api.c`, up to field names. Both files use the single
  definition in `SerialApi`.

The operating system is the class `PosixOs.Os`:

- It holds the device's terminal attributes and a ghost trace of opens,
  attribute writes and closes.
- The outcome of every `open`, `tcgetattr` and `tcsetattr` is an argument
  (`StageReplies`, `OpenReplies`). The contracts therefore hold for every
  possible answer of the system.

Terminal flags:

- A flag word (`tcflag_t`) is the set of its one-bit positions, so `w &= ~M`
  is `w - M` and `w |= M` is `w + M`.
- The flag and speed constants are Linux's.
- Their meanings follow POSIX.1-2017 Base Definitions, chapter 11 (section
  11.2.2 Input Modes and section 11.2.4 Control Modes). CRTSCTS is the Linux
  extension.
- `Termios.FlagLayout` proves that the masks are disjoint, and that CS7 and
  CS8 are different values inside CSIZE.

Modules:

| file | module | content |
|---|---|---|
| `serial_types.dfy` | `SerialTypes` | the header's enums, the port record, and the C-string and `strncpy` helpers |
| `termios.dfy` | `Termios` | flag constants and the three attribute edits as functions |
| `option_tables.dfy` | `OptionTables` | the two tables, prefix matching, and the scan loop as written and as corrected |
| `options.dfy` | `Options` | `atoi`, one option's code and effect, and the option run |
| `posix_os.dfy` | `PosixOs` | the abstract operating system |
| `serial_api.dfy` | `SerialApi` | the stages, open and close, and the port record behind the pointer |
| `test_opt.dfy` | `TestOpt` | the by-value copies and `main` |

## Model

| member | source | states |
|---|---|---|
| SerialTypes.ToUint32 | serial_api.c:89 | `(unsigned int)` of an `int` is congruent to it modulo 2^32 and equals it when it is already in range |
| SerialTypes.CStr | serial_api.c:130 | the path `open` sees is a prefix of the buffer, holds no NUL, and is followed by the NUL that ends it |
| SerialTypes.Overwrite | serial_api.c:80 | `strncpy(buf, s, strlen(s))` replaces the first `strlen(s)` characters by `s` and keeps every later character of the buffer |
| SerialTypes.Strncpy | serial_api.c:80 | the array copy writes `src` (padded with NUL up to `n`) into positions below `n` and leaves every position from `n` on untouched |
| Termios.FlagLayout | serial_api.c:272-333 | the masks the stages edit are pairwise disjoint, and CS7 and CS8 are different values inside CSIZE |
| Termios.BaudConstant | serial_api.c:231-253 | the rates 115200, 230400, 460800 and 921600 select their own constant; every other rate, 0 included, selects B115200 |
| Termios.BaudConstantRoundTrip | serial_api.c:231-253 | distinct supported rates get distinct constants, and every selectable constant maps back to its rate and from there to itself |
| Termios.WithBaud | serial_api.c:231-253 | input and output speed both become the selected constant, and nothing else in the termios changes |
| Termios.FramingCflag | serial_api.c:272-300 | CSTOPB is cleared; CSIZE is exactly CS7 for 7E1/7O1 and CS8 otherwise; PARENB is set exactly for 7E1/7O1; PARODD is set for 7O1, cleared for 7E1 and untouched otherwise; all other control bits are unchanged |
| Termios.WithFraming | serial_api.c:272-300 | the framing stage writes back the value it read with only the control flags changed: one stop bit, and CS7 with parity for 7E1/7O1 or CS8 without parity otherwise |
| Termios.FlowCflag | serial_api.c:319-333 | CRTSCTS ends set exactly for RTS/CTS, or when it was already set and the mode is unknown; no other control bit moves |
| Termios.FlowIflag | serial_api.c:327-330 | XON/XOFF turns on IXON, IXOFF and IXANY; other modes leave them alone; no other input bit moves |
| Termios.WithFlow | serial_api.c:331-332 | an unknown flow-control mode writes back exactly the termios it read |
| Termios.FinalWriteDiscardsStages | serial_api.c:137-139 | the final write's value, a zeroed termios with only CREAD, CLOCAL and HUPCL, differs from every configuration the stages produce: its speed is B0, its size CS5, and it has no parity and no hardware or software flow control |
| OptionTables.FirstMatch | serial_api.c:194-203 | nothing is found exactly when no table key is a prefix of the option; a result is the value of a row whose key is a prefix |
| OptionTables.TablesArePrefixFree | serial_api.c:45-58 | no key of either table is a prefix of another key of the same table |
| OptionTables.AtMostOneMatch | serial_api.c:45-58 | in a prefix-free table, at most one row's key is a prefix of a given string |
| OptionTables.MatchIsTheMatchingRow | serial_api.c:194-201 | in a prefix-free table, any row whose key is a prefix of the option is the row the scan returns, whatever the row order |
| OptionTables.KeyWithAnySuffixSelectsRow | serial_api.c:196 | a key followed by any text selects that key's row |
| OptionTables.FramingKeyWithSuffix | serial_api.c:45-51 | "8N1extra" selects ICF_8N1 |
| OptionTables.FlowKeyWithSuffix | serial_api.c:53-58 | "nonesuch" selects FCT_NO |
| OptionTables.UnknownTokensMatchNothing | serial_api.c:45-58 | matching is case-sensitive and needs the whole key: "8n1" and "hw" match no row |
| OptionTables.FindPrefixEntry | serial_api.c:194-203 | the index loop over the real rows returns the first row whose key is a prefix of the option, or nothing |
| OptionTables.ScanWithSentinel | serial_api.c:210-219 | the loop as written, whose bound counts the NULL row, reaches that row's NULL key exactly when no real row matches |
| OptionTables.UnknownTokensReachSentinel | serial_api.c:24-25 | `-i 8n1` and `-f hw` drive the loop as written to the NULL key |
| Options.Atoi | serial_api.c:89 | `atoi` gives a negative value only when a minus sign follows the leading white space; when the first character after the white space is a digit, the value is that of the digit run |
| Options.AtoiWithoutDigits | serial_api.c:89 | text with no digit where the number should start converts to 0 |
| Options.AtoiOfDigits | serial_api.c:89 | a string of decimal digits converts to its decimal value |
| Options.AtoiOfNegative | serial_api.c:89 | a minus sign followed by digits converts to the negated value |
| Options.AtoiOfBaudRate | serial_api.c:89 | "115200" converts to 115200 |
| Options.AtoiStopsAtNonDigit | serial_api.c:89 | leading white space is skipped and conversion stops at the first non-digit: " 96x" gives 96 |
| Options.WrapNegative | serial_api.c:89 | a negative value `-v` stored in the unsigned baud field becomes 2^32 - v, so `-b -1` requests 0xFFFFFFFF |
| Options.OptionCode | serial_api.c:75-107 | an option either succeeds or fails with its own code: GET_PARM_ERROR for `-p`, MAP_FCT_ERROR for `-f`, MAP_ICF_ERROR for `-i`; `-p` succeeds exactly when the path is shorter than 64 characters; `-f` and `-i` succeed exactly when some key of their table is a prefix of the argument |
| Options.Update | serial_api.c:77-104 | an accepted option writes only its own field (`-p` the path, `-b` the baud, `-i` the framing, `-f` the flow control) and never the handle |
| Options.FirstOptionFailure | serial_api.c:91-104 | the first failure among the options' own codes: success exactly when every option succeeds on its own; otherwise the code of an option that fails, and every option before it succeeds |
| Options.RunOptions | serial_api.c:63-108 | the option loop returns success, GET_PARM_ERROR, MAP_FCT_ERROR or MAP_ICF_ERROR, and never changes the handle |
| Options.ParseArgs | serial_api.c:61-123 | leftover arguments never change the record the loop left, but they always make the result an error, GET_PARM_ERROR when every option succeeded; the handle is never changed |
| Options.ParseCode | serial_api.c:110-122 | success exactly when there is no leftover argument and every option succeeds; otherwise the first failing option's code, or GET_PARM_ERROR when every option succeeds but an argument is left over |
| Options.StrayArgumentRejected | serial_api.c:110-120 | `-p /dev/ttyS0 extra` gives GET_PARM_ERROR |
| Options.RunCodeIsFirstFailure | serial_api.c:63-108 | the option loop returns the code of the first option that fails |
| Options.ParseCodeIgnoresRecord | test_opt.c:144-206 | the code the parser returns does not depend on the record it writes |
| Options.FailureKeepsEarlierOptions | serial_api.c:91-104 | when option `k` is the first to fail, parsing returns its code, and the record keeps what options `0..k-1` wrote |
| Options.FieldKeptWithoutItsOption | serial_api.c:75-107 | a field no option names keeps its old value |
| Options.LastOptionWins | serial_api.c:88-104 | after a successful run, the baud, framing and flow fields hold what the last `-b`, `-i` or `-f` asked for |
| Options.SecondPathKeepsTail | serial_api.c:77-87 | a second, shorter `-p` overwrites only its own length: the rest of the first path and the buffer beyond it stay |
| Options.SecondPathExample | serial_api.c:80 | on a zeroed record, `-p /dev/ttyUSB0 -p /dev/tty` leaves the path "/dev/ttyUSB0" |
| Options.OneOfEachOption | serial_api.c:75-107 | one option of each kind succeeds and fills every field from its own argument |
| Options.ExactKeysMatch | serial_api.c:45-58 | a key on its own selects its row: "8N1" gives ICF_8N1 and "none" gives FCT_NO |
| Options.CommandLineExample | serial_api.c:61-123 | `--port /dev/ttyUSB0 --baudrate 115200 --icf 8N1 --flowcontrol none` on a zeroed record gives that path, baud 115200, ICF_8N1 and FCT_NO |
| Options.PathIntoZeroedBuffer | serial_api.c:80 | a path copied into a zeroed buffer reads back as itself |
| PosixOs.Os.Open | serial_api.c:130 | `open` returns the system's answer and records an open, or a failed open for a negative answer |
| PosixOs.Os.GetAttr | serial_api.c:226-229 | a successful `tcgetattr` yields the device's current attributes |
| PosixOs.Os.SetAttr | serial_api.c:255-258 | a successful `tcsetattr` replaces the device's attributes, a failed one leaves them; either way the write is recorded |
| PosixOs.Os.Close | serial_api.c:184 | `close` records the handle as closed |
| SerialApi.BrtSet | serial_api.c:222-261 | GET_ERROR when the read fails, SET_FAIL when the write fails, otherwise success; the device ends with the read value re-speeded by `WithBaud` exactly when both calls succeed |
| SerialApi.IcfSet | serial_api.c:263-308 | the step-by-step mask edits compute `FramingCflag`; GET_ERROR when the read fails, SET_ICF_ERROR when the write fails; the device changes only when both calls succeed |
| SerialApi.FctSet | serial_api.c:310-341 | the edits compute `WithFlow`; a failed write is reported as SET_ICF_ERROR; the device changes only when both calls succeed |
| SerialTypes.FirstFailure | serial_api.c:141-169 | success exactly when every step succeeds; otherwise the code of a failing step with only successes before it |
| SerialApi.OpenSpec | serial_api.c:125-178 | the open returns success, OPEN_ERROR, GET_ERROR, SET_FAIL or SET_ICF_ERROR; OPEN_ERROR exactly when `open` fails; the trace only grows, and its first new event is the open of the buffer's path |
| SerialApi.OpenPort | serial_api.c:125-178 | the code, final attributes and trace of system calls are those of `OpenSpec`: open, then baud, framing, flow, final write, stopping at the first failure |
| SerialApi.ClosePort | serial_api.c:180-188 | always success; closes the handle unless it is INVALID_HANDLE; the caller's copy is not touched, so a second call closes the same handle again |
| SerialApi.OpenReturnsFirstFailure | serial_api.c:130-169 | the open returns the code of the first failing step among OPEN_ERROR, the baud stage, the framing stage, the flow stage (SET_ICF_ERROR) and the final write (SET_FAIL) |
| SerialApi.OpenSucceedsIffAllCallsSucceed | serial_api.c:130-177 | the open succeeds exactly when `open`, all six stage calls and the final write succeed |
| SerialApi.SuccessfulOpenTrace | serial_api.c:137-169 | a successful open makes exactly one open and four writes: the baud value, the framing value, the full configuration, and the zeroed attributes |
| SerialApi.SuccessfulOpenOverwritesStages | serial_api.c:137-169 | after a successful open the device holds the zeroed attributes, not the configuration asked for; the four writes are accepted in order and the handle is still open |
| SerialApi.StageFailureLeaksHandle | serial_api.c:141-160 | when a stage fails after the open succeeded, an error is returned and the handle stays open |
| SerialApi.FinalFailureClosesHandle | serial_api.c:162-169 | only a failed final write closes the handle; the result is SET_FAIL and the device keeps the three stages' configuration |
| SerialApi.CloseReleasesOnlyItsHandle | serial_api.c:180-188 | closing a valid handle closes it and leaves every other handle as it was; INVALID_HANDLE is never passed to `close` |
| SerialApi.PortRecord.IcfMap | serial_api.c:206-220 | the result is the `-i` option's code: success exactly when some key is a prefix, then the framing field becomes that row's value; otherwise MAP_ICF_ERROR with the field unchanged; no other field is written |
| SerialApi.PortRecord.FctMap | serial_api.c:190-204 | the result is the `-f` option's code: success exactly when some key is a prefix, then the flow field becomes that row's value; otherwise MAP_FCT_ERROR with the field unchanged; no other field is written |
| SerialApi.PortRecord.ApplyOption | serial_api.c:75-107 | one pass of the switch returns the option's code; an accepted option applies `Update` to the record and a rejected one leaves the record unchanged |
| SerialApi.PortRecord.GetOpt | serial_api.c:61-123 | the record written through the pointer and the code returned are those of `ParseArgs` on the options and leftovers |
| TestOpt.IcfMap | test_opt.c:286-303 | on a copy of the record: success exactly when some framing key is a prefix of the option, MAP_ICF_ERROR otherwise |
| TestOpt.FctMap | test_opt.c:267-284 | on a copy of the record: success exactly when some flow key is a prefix of the option, MAP_FCT_ERROR otherwise |
| TestOpt.ApplyOption | test_opt.c:158-190 | one pass of the switch on the local copy returns the option's own code; an accepted `-p` or `-b` updates the copy, while `-i` and `-f` leave it as it was, since the map functions receive a copy of their own |
| TestOpt.GetOpt | test_opt.c:144-206 | the by-value parser returns `ParseCode`, the same code the pointer version returns for the same options |
| TestOpt.TestOptMain | test_opt.c:112-142 | a failed parse returns its code before any system call; otherwise `g_portObj` is opened and then closed whatever the open reported, and the program returns 0 |
| TestOpt.MainUsesZeroRecord | test_opt.c:110-136 | `main` opens the empty path and configures B115200, 8 data bits, no parity, one stop bit and RTS/CTS whatever the command line said, and its close is `close(0)` |
| TestOpt.MainLeavesOpenedHandleOpen | test_opt.c:123-139 | when the open gets a descriptor other than 0 and keeps it, `main`'s `close(0)` leaves that descriptor open |

## Left out

- `getopt_long` is left out: argument permutation, `optind`/`optarg` and
  abbreviations of long options. The parser takes the options it reports as a
  list of `(character, argument)` pairs, plus the list of leftover arguments.
- Options.Atoi: values beyond the range of `int` are undefined behaviour in C.
  They are not bounded or truncated here.
- SerialApi.BrtSet: `cfsetispeed`/`cfsetospeed` are modelled as setting the two
  speed fields. The CBAUD bits that glibc also writes into `c_cflag` are not
  modelled.
- The termios fields `c_oflag`, `c_lflag`, `c_line` and `c_cc` are carried along
  but never edited. Only the zeroing of the final write gives them a value.
- The operating system is an oracle:
  - whether each call succeeds, and the descriptor `open` returns, are
    arguments;
  - every handle refers to the one device whose attributes `Os.attrs` holds;
  - the return value of `close` is ignored, as the program ignores it;
  - a successful `tcsetattr` stores exactly the value written, and
    `tcgetattr` returns exactly the stored value. POSIX allows a call that
    applies only some of the changes, and glibc's `cfsetispeed` also edits
    `c_iflag`; neither is modelled.
- Options.OptionCode, SerialTypes.PathBuffer, SerialTypes.CStr,
  SerialApi.PortRecord.ApplyOption, TestOpt.ApplyOption: each `char` of an
  option argument and of the path buffer stands for one byte of the C string,
  so the bound of 64 is counted in characters. Multi-byte encodings, where
  `strlen` counts bytes, are not modelled.
- Options.OptionCode, Options.RunOptions, Options.ParseArgs,
  SerialApi.PortRecord.IcfMap, SerialApi.PortRecord.FctMap,
  SerialApi.PortRecord.GetOpt, TestOpt.IcfMap, TestOpt.FctMap, TestOpt.GetOpt,
  TestOpt.TestOptMain: a `-i` or `-f` token that matches no real row returns
  MAP_ICF_ERROR or MAP_FCT_ERROR after the scan, as intended. The code as
  written first calls `strlen(NULL)` on the sentinel row (the row under
  "Findings"). Only `OptionTables.ScanWithSentinel` models that behaviour.
- SerialTypes.CStr: a buffer with no NUL among its 64 characters would make
  `open` read past the array, which is undefined behaviour in C. The model
  returns the whole buffer instead. `SerialApi.PortRecord` accepts any record,
  including such a buffer. The parser never produces one from a zeroed
  buffer, because it copies fewer than 64 characters.
- All `printf` diagnostics, including the debug prints in the map functions of
  `test_opt.c`, are left out.
- `linux_serial_program.c` is not part of this model. It only calls parse,
  open and close on an uninitialised record.
- The open, close and stage functions of `test_opt.c` are the same code as
  those of `serial_api.c`. They are modelled once, in `SerialApi`.
- `main`'s return value is the error code as a C `int`. The truncation to 8
  bits of a process exit status is not modelled.

## Findings

| source | as written | input that shows it | evidently intended | confidence | as-written member | corrected member |
|---|---|---|---|---|---|---|
| serial_api.c:194 | the loop bound `FCT_MAP_LEN` (and `ICF_MAP_LEN` at serial_api.c:210; same at test_opt.c:271 and :290) counts the sentinel row `{FCT_UNKNOWN, NULL}`, so a token that matches no real row reaches `strlen(NULL)` before the error return | `-f hw` or `-i 8n1` | scan only the real rows and return COMM_PORT_MAP_FCT_ERROR / COMM_PORT_MAP_ICF_ERROR | high; not executed | OptionTables.ScanWithSentinel | OptionTables.FindPrefixEntry |
