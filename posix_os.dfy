/**
 * The operating-system calls the open sequence makes (`open`, `tcgetattr`,
 * `tcsetattr`, `close`), as a stateful object.  Whether a call succeeds,
 * and the descriptor `open` returns, come in as arguments: the model says
 * what the program does for every possible answer.  A ghost trace records
 * the opens, attribute writes and closes in order.
 */
module PosixOs {
  import opened SerialTypes
  import opened Termios

  /** One recorded system call. */
  datatype Event =
    | Opened(path: string, hd: int)
    | OpenFailed(path: string)
    | AttrsWritten(hd: int, attrs: Termios, ok: bool)
    | Closed(hd: int)

  /** Whether handle `hd` is open after the calls in `trace`: the last open
      or close event for `hd` is an open. */
  ghost function IsOpen(trace: seq<Event>, hd: int): bool
    decreases |trace|
  {
    if trace == [] then false
    else
      var e := trace[|trace| - 1];
      if e == Closed(hd) then false
      else if e.Opened? && e.hd == hd then true
      else IsOpen(trace[..|trace| - 1], hd)
  }

  /** The attribute values the device accepted, in order. */
  ghost function Writes(trace: seq<Event>): seq<Termios>
    decreases |trace|
  {
    if trace == [] then []
    else
      var e := trace[|trace| - 1];
      Writes(trace[..|trace| - 1]) + if e.AttrsWritten? && e.ok then [e.attrs] else []
  }

  /** One more event decides the open state of its own handle and leaves
      every other handle as it was. */
  lemma IsOpenAppend(trace: seq<Event>, e: Event, hd: int)
    ensures IsOpen(trace + [e], hd) ==
      if e == Closed(hd) then false
      else if e.Opened? && e.hd == hd then true
      else IsOpen(trace, hd)
  {
    assert (trace + [e])[..|trace|] == trace;
  }

  /** Attribute writes do not open or close anything. */
  lemma {:induction false} IsOpenAcrossWrites(trace: seq<Event>, ws: seq<Event>, hd: int)
    requires forall i :: 0 <= i < |ws| ==> ws[i].AttrsWritten?
    ensures IsOpen(trace + ws, hd) == IsOpen(trace, hd)
    decreases |ws|
  {
    if ws != [] {
      var init := ws[..|ws| - 1];
      var last := ws[|ws| - 1];
      assert last.AttrsWritten?;
      assert forall i :: 0 <= i < |init| ==> init[i] == ws[i];
      assert trace + ws == (trace + init) + [last];
      IsOpenAppend(trace + init, last, hd);
      IsOpenAcrossWrites(trace, init, hd);
    } else {
      assert trace + ws == trace;
    }
  }

  /** Only accepted writes enter `Writes`. */
  lemma WritesAppend(trace: seq<Event>, e: Event)
    ensures Writes(trace + [e]) == Writes(trace) + if e.AttrsWritten? && e.ok then [e.attrs] else []
  {
    assert (trace + [e])[..|trace|] == trace;
  }

  class Os {
    /** The terminal attributes of the serial device. */
    var attrs: Termios
    ghost var trace: seq<Event>

    constructor(initial: Termios)
      ensures attrs == initial && trace == []
    {
      attrs := initial;
      trace := [];
    }

    /** `open(path, O_RDWR | O_NOCTTY)`, which returns `reply`: a descriptor,
        or a negative value on failure. */
    method Open(path: string, reply: int) returns (hd: int)
      modifies this`trace
      ensures hd == reply
      ensures trace == old(trace) + [if reply >= 0 then Opened(path, reply) else OpenFailed(path)]
    {
      hd := reply;
      trace := trace + [if reply >= 0 then Opened(path, reply) else OpenFailed(path)];
    }

    /** `tcgetattr(hd, &t)`, which succeeds when `ok` holds. */
    method GetAttr(hd: int, ok: bool) returns (success: bool, t: Termios)
      ensures success == ok
      ensures ok ==> t == attrs
    {
      success := ok;
      t := attrs;
    }

    /** `tcsetattr(hd, TCSANOW, &t)`, which succeeds when `ok` holds. */
    method SetAttr(hd: int, t: Termios, ok: bool) returns (success: bool)
      modifies this
      ensures success == ok
      ensures attrs == if ok then t else old(attrs)
      ensures trace == old(trace) + [AttrsWritten(hd, t, ok)]
    {
      success := ok;
      if ok {
        attrs := t;
      }
      trace := trace + [AttrsWritten(hd, t, ok)];
    }

    /** `close(hd)`. */
    method Close(hd: int)
      modifies this`trace
      ensures trace == old(trace) + [Closed(hd)]
    {
      trace := trace + [Closed(hd)];
    }
  }
}
