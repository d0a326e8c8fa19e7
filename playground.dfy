/**
 * The `CircuitPlayground` client: finding and opening the board's serial
 * port, the query transaction behind every public method, and closing.
 */
module Playground {
  import opened Text
  import opened Serial
  import opened Discovery
  import Commands

  datatype Option<T> = None | Some(value: T)

  /** What a query returns: the stripped reply text, or the failure pyserial raises on a closed port. */
  datatype Reply = Answer(text: string) | PortNotOpen

  /** What `_findAndConnectComPort` leads to: process exit, or an open port. */
  datatype Connection = Exit(code: int) | Connected(warned: bool)

  /**
   * What the constructor leads to: process exit, or a running client whose
   * identification and configuration replies were printed.
   */
  datatype Startup = Terminated(code: int) | Running(warned: bool, identity: Reply, configuration: Reply)

  /** A command on the wire: its text followed by one line feed. */
  function Frame(cmd: string): (wire: string)
    ensures |wire| == |cmd| + 1 && wire[..|cmd|] == cmd && wire[|cmd|] == '\n'
  {
    cmd + "\n"
  }

  /** How many times `for i in range(n)` runs: `n` times, and not at all when `n` is negative. */
  function Iterations(n: int): (k: nat)
    ensures n >= 0 ==> k == n
    ensures n <= 0 ==> k == 0
  {
    if n < 0 then 0 else n
  }

  /**
   * The texts `n` successive `readline` calls return when `pending` is
   * waiting: pending lines in order, then empty texts once the device has
   * nothing more to send and each read times out.
   */
  function ReadLines(pending: seq<string>, n: nat): (lines: seq<string>)
    ensures |lines| == n
    ensures forall k :: 0 <= k < n ==> lines[k] == (if k < |pending| then pending[k] else "")
  {
    if n == 0 then []
    else if pending == [] then [""] + ReadLines([], n - 1)
    else [pending[0]] + ReadLines(pending[1..], n - 1)
  }

  /** How many pending lines `n` reads take off the queue. */
  function Consumed(pending: seq<string>, n: nat): (c: nat)
    ensures c <= |pending| && c <= n
    ensures c == n || c == |pending|
  {
    if n <= |pending| then n else |pending|
  }

  /** The reply text of `_query` reading `expectedLines` lines while `pending` is waiting. */
  function QueryText(pending: seq<string>, expectedLines: int): (text: string)
    ensures Trimmed(text)
    ensures expectedLines <= 0 ==> text == ""
  {
    Strip(Concat(ReadLines(pending, Iterations(expectedLines))))
  }

  lemma ReadLinesStep(pending: seq<string>, n: nat)
    ensures ReadLines(pending, n + 1) == ReadLines(pending, n) + [if n < |pending| then pending[n] else ""]
  {
    var a, b := ReadLines(pending, n + 1), ReadLines(pending, n) + [if n < |pending| then pending[n] else ""];
    assert |a| == |b|;
    forall k | 0 <= k < |a| ensures a[k] == b[k] { }
  }

  /** One more read: what it returns and what stays queued. */
  lemma ReadOneMore(p0: seq<string>, i: nat, queued: seq<string>, line: string, rest: seq<string>)
    requires queued == p0[Consumed(p0, i)..]
    requires line == (if queued == [] then "" else queued[0])
    requires rest == (if queued == [] then [] else queued[1..])
    ensures ReadLines(p0, i + 1) == ReadLines(p0, i) + [line]
    ensures rest == p0[Consumed(p0, i + 1)..]
    ensures Concat(ReadLines(p0, i + 1)) == Concat(ReadLines(p0, i)) + line
    ensures Receipts(ReadLines(p0, i + 1)) == Receipts(ReadLines(p0, i)) + [Received(line)]
  {
    ReadLinesStep(p0, i);
    ConcatAppend(ReadLines(p0, i), [line]);
    var a, b := Receipts(ReadLines(p0, i + 1)), Receipts(ReadLines(p0, i)) + [Received(line)];
    assert |a| == |b|;
    forall k | 0 <= k < |a| ensures a[k] == b[k] { }
  }

  /** While the device has enough lines waiting, `n` reads return exactly the first `n`, in order. */
  lemma {:induction false} ReadLinesExact(pending: seq<string>, n: nat)
    requires n <= |pending|
    ensures ReadLines(pending, n) == pending[..n]
  {
    assert |ReadLines(pending, n)| == |pending[..n]|;
  }

  /** The reads beyond the waiting lines time out and add nothing to the reply. */
  lemma {:induction false} ReadLinesJoin(pending: seq<string>, n: nat)
    ensures Concat(ReadLines(pending, n)) == Concat(pending[..Consumed(pending, n)])
  {
    var c := Consumed(pending, n);
    var lines := ReadLines(pending, n);
    assert lines == lines[..c] + lines[c..];
    ConcatAppend(lines[..c], lines[c..]);
    assert lines[..c] == pending[..c];
    ConcatEmptyLines(lines[c..]);
  }

  /**
   * The reply of a query is the strip of the consumed lines joined in
   * order; exactly `expectedLines` lines are consumed when that many are
   * waiting; no expected lines means the empty reply; and the reply has no
   * outer whitespace, so stripping it again is the identity.
   */
  lemma {:induction false} QueryTextMeaning(pending: seq<string>, expectedLines: int)
    ensures QueryText(pending, expectedLines) == Strip(Concat(pending[..Consumed(pending, Iterations(expectedLines))]))
    ensures 0 <= expectedLines <= |pending| ==>
              QueryText(pending, expectedLines) == Strip(Concat(pending[..expectedLines]))
    ensures expectedLines <= 0 ==> QueryText(pending, expectedLines) == ""
    ensures Trimmed(QueryText(pending, expectedLines))
    ensures Strip(QueryText(pending, expectedLines)) == QueryText(pending, expectedLines)
  {
    ReadLinesJoin(pending, Iterations(expectedLines));
    StripIdempotent(Concat(ReadLines(pending, Iterations(expectedLines))));
  }

  /**
   * Line terminators inside the reply are kept, since lines are joined
   * with no separator; only the outer whitespace goes, and lines beyond
   * the expected count stay queued.
   */
  lemma {:induction false} InnerTerminatorsKept(first: string, second: string, rest: seq<string>)
    requires first != [] && second != [] && Trimmed(first) && Trimmed(second)
    ensures QueryText([first + "\n", second + "\n"] + rest, 2) == first + "\n" + second
    ensures Consumed([first + "\n", second + "\n"] + rest, 2) == 2
  {
    var p := [first + "\n", second + "\n"] + rest;
    var two := [first + "\n", second + "\n"];
    QueryTextMeaning(p, 2);
    assert p[..2] == two;
    JoinTwo(first + "\n", second + "\n");
    StripTwoLines(first, second);
  }

  lemma JoinTwo(a: string, b: string)
    ensures Concat([a, b]) == a + b
  {
    ConcatAppend([a], [b]);
    assert [a] + [b] == [a, b];
    assert [a][1..] == [];
  }

  lemma StripTwoLines(first: string, second: string)
    requires first != [] && second != [] && Trimmed(first) && Trimmed(second)
    ensures Strip((first + "\n") + (second + "\n")) == first + "\n" + second
  {
    var body := first + "\n" + second;
    TrimmedAroundLineFeed(first, second);
    assert AllSpace("\n") by { assert IsSpace("\n"[0]); }
    StripPadded("", body, "\n");
    assert "" + body + "\n" == (first + "\n") + (second + "\n");
  }

  /** Two trimmed non-empty texts joined by a line feed are still trimmed. */
  lemma TrimmedAroundLineFeed(first: string, second: string)
    requires first != [] && second != [] && Trimmed(first) && Trimmed(second)
    ensures Trimmed(first + "\n" + second)
  {
    var body := first + "\n" + second;
    assert body[0] == first[0] && body[|body| - 1] == second[|second| - 1];
  }

  /** Stripping a trimmed text padded with whitespace on both sides gives the text back. */
  lemma StripPadded(front: string, body: string, back: string)
    requires AllSpace(front) && AllSpace(back) && Trimmed(body)
    ensures Strip(front + body + back) == body
  {
    var s := front + body + back;
    var i, j := |front|, |front| + |body|;
    assert s[i..j] == body && s[..i] == front && s[j..] == back;
    StripCharacterized(s, body);
  }

  /**
   * The state change of one `_query(cmd, expectedLines)` on port `t`. On an
   * open port: the framed command is written before any read, then
   * `expectedLines` lines are read in order, the rest of the queue stays as
   * it was, and the reply is the stripped join of what was read. On a
   * closed port the write fails and nothing changes.
   */
  twostate predicate Transacted(t: Transport, cmd: string, expectedLines: int, reply: Reply)
    reads t
  {
    var n := Iterations(expectedLines);
    if old(t.isOpen) then
      reply == Answer(QueryText(old(t.pending), expectedLines))
      && t.isOpen
      && t.written == old(t.written) + Frame(cmd)
      && t.pending == old(t.pending)[Consumed(old(t.pending), n)..]
      && t.trace == old(t.trace) + [Sent(Frame(cmd))] + Receipts(ReadLines(old(t.pending), n))
    else
      reply == PortNotOpen && !t.isOpen
      && t.written == old(t.written) && t.pending == old(t.pending) && t.trace == old(t.trace)
  }

  class CircuitPlayground {
    /** The device name of the port, once known. */
    var comPort: Option<string>
    var baudrate: int
    /** The open serial port; absent until `Start` has connected. */
    var comPortObj: Transport?

    /** A connected client: the port object exists and was opened on `comPort`. */
    ghost predicate Valid()
      reads this
    {
      comPortObj != null && comPort == Some(comPortObj.name)
    }

    /** The field set-up of `__init__`; discovery and connecting follow in `Start`. */
    constructor (comport: Option<string> := None, baudrate: int := 115200)
      ensures comPort == comport && this.baudrate == baudrate && comPortObj == null
    {
      comPort := comport;
      this.baudrate := baudrate;
      comPortObj := null;
    }

    /** `is_open`: whether the port object is currently open. */
    function IsOpen(): (open: bool)
      requires Valid()
      reads this, comPortObj
      ensures open <==> comPortObj.isOpen
    {
      comPortObj.isOpen
    }

    /** `close`: closes the port only when it is open. */
    method Close()
      requires Valid()
      modifies comPortObj
      ensures !comPortObj.isOpen
      ensures !old(comPortObj.isOpen) ==> unchanged(comPortObj)
      ensures comPortObj.written == old(comPortObj.written)
      ensures comPortObj.pending == old(comPortObj.pending)
      ensures comPortObj.trace == old(comPortObj.trace)
    {
      if IsOpen() {
        comPortObj.Close();
      }
    }

    /** `_findComPort`: records the selected port, or none when the program exits. */
    method FindComPort(matches: seq<string>) returns (sel: Selection)
      modifies this`comPort
      ensures sel == SelectPort(matches)
      ensures comPort == (if sel.Fatal? then None else Some(sel.port))
    {
      if |matches| == 0 {
        comPort := None;
        sel := Fatal;
      } else if |matches| > 1 {
        comPort := Some(matches[0]);
        sel := Selected(matches[0], true);
      } else {
        comPort := Some(matches[0]);
        sel := Selected(matches[0], false);
      }
    }

    /**
     * `_findAndConnectComPort`: discovery runs only when no port was given;
     * then the port is opened. `incoming` is what the device will send on it.
     */
    method FindAndConnectComPort(matches: seq<string>, incoming: seq<string>) returns (c: Connection)
      modifies this
      ensures baudrate == old(baudrate)
      ensures old(comPort).Some? ==> c == Connected(false) && comPort == old(comPort)
      ensures old(comPort).None? ==>
                c == (match SelectPort(matches)
                      case Fatal => Exit(NotFoundExitCode)
                      case Selected(p, w) => Connected(w))
      ensures old(comPort).None? && c.Connected? ==> comPort == Some(matches[0])
      ensures c.Exit? ==> comPort == None && comPortObj == old(comPortObj)
      ensures c.Connected? ==> Valid() && fresh(comPortObj) && comPortObj.baudrate == baudrate
      ensures c.Connected? ==> comPortObj.isOpen && comPortObj.pending == incoming
                               && comPortObj.written == [] && comPortObj.trace == []
    {
      if comPort == None {
        var sel := FindComPort(matches);
        if sel.Fatal? {
          return Exit(NotFoundExitCode);
        }
        c := Connected(sel.warned);
      } else {
        c := Connected(false);
      }
      comPortObj := new Transport(comPort.value, baudrate, incoming);
    }

    /**
     * The rest of `__init__`: find and open the port, then, when it is
     * open, ask for the identification and the configuration (which the
     * source prints).
     */
    method Start(matches: seq<string>, incoming: seq<string>) returns (s: Startup)
      requires comPortObj == null
      modifies this
      ensures s.Terminated? <==> old(comPort).None? && matches == []
      ensures s.Terminated? ==> s.code == NotFoundExitCode && comPort == None && comPortObj == null
      ensures baudrate == old(baudrate)
      ensures s.Running? ==> Valid() && fresh(comPortObj) && comPortObj.isOpen
      ensures s.Running? ==> comPortObj.baudrate == baudrate
      ensures s.Running? ==> comPort == (if old(comPort).Some? then old(comPort) else Some(matches[0]))
      ensures s.Running? ==> (s.warned <==> old(comPort).None? && |matches| > 1)
      ensures s.Running? ==>
                var rest := incoming[Consumed(incoming, 6)..];
                s.identity == Answer(QueryText(incoming, 6))
                && s.configuration == Answer(QueryText(rest, 9))
                && comPortObj.written == Frame("*IDN?") + Frame("SYST:CON?")
                && comPortObj.pending == rest[Consumed(rest, 9)..]
                && comPortObj.trace ==
                     [Sent(Frame("*IDN?"))] + Receipts(ReadLines(incoming, 6))
                     + [Sent(Frame("SYST:CON?"))] + Receipts(ReadLines(rest, 9))
    {
      var c := FindAndConnectComPort(matches, incoming);
      match c
      case Exit(code) =>
        s := Terminated(code);
      case Connected(warned) =>
        if IsOpen() {
          ghost var t := comPortObj;
          var identity := Idn();
          ghost var rest := incoming[Consumed(incoming, 6)..];
          ghost var trace1 := t.trace;
          assert trace1 == [Sent(Frame("*IDN?"))] + Receipts(ReadLines(incoming, 6));
          assert t.isOpen && t.pending == rest && t.written == Frame("*IDN?");
          var configuration := Config();
          assert t.trace == trace1 + [Sent(Frame("SYST:CON?"))] + Receipts(ReadLines(rest, 9));
          s := Running(warned, identity, configuration);
        } else {
          s := Running(warned, PortNotOpen, PortNotOpen);
        }
    }

    /**
     * `_query`: write the framed command, read `expectedLines` lines and
     * return their join, stripped.
     */
    method Query(cmd: string, expectedLines: int) returns (reply: Reply)
      requires Valid()
      modifies comPortObj
      ensures Transacted(comPortObj, cmd, expectedLines, reply)
    {
      var t := comPortObj;
      ghost var p0 := t.pending;
      var ok := t.Write(Frame(cmd));
      if !ok {
        return PortNotOpen;
      }
      ghost var tr1 := t.trace;
      var response := "";
      var i := 0;
      while i < expectedLines
        invariant 0 <= i <= Iterations(expectedLines)
        invariant t.isOpen && t.written == old(t.written) + Frame(cmd)
        invariant response == Concat(ReadLines(p0, i))
        invariant t.pending == p0[Consumed(p0, i)..]
        invariant t.trace == tr1 + Receipts(ReadLines(p0, i))
      {
        ghost var queued := t.pending;
        var _, line := t.ReadLine();
        ReadOneMore(p0, i, queued, line, t.pending);
        response := response + line;
        i := i + 1;
      }
      assert i == Iterations(expectedLines);
      reply := Answer(Strip(response));
    }

    /** `idn`: `*IDN?`, six reply lines. */
    method Idn() returns (reply: Reply)
      requires Valid()
      modifies comPortObj
      ensures Transacted(comPortObj, "*IDN?", 6, reply)
    {
      var cmd, n := Commands.Command(Commands.Identify), Commands.ReplyLines(Commands.Identify);
      assert cmd == "*IDN?" && n == 6;
      reply := Query(cmd, n);
    }

    /** `config`: `SYST:CON?`, nine reply lines. */
    method Config() returns (reply: Reply)
      requires Valid()
      modifies comPortObj
      ensures Transacted(comPortObj, "SYST:CON?", 9, reply)
    {
      var cmd, n := Commands.Command(Commands.Configuration), Commands.ReplyLines(Commands.Configuration);
      assert cmd == "SYST:CON?" && n == 9;
      reply := Query(cmd, n);
    }

    /** `buttonAny`: `MEAS:BUTTON?`, one reply line. */
    method ButtonAny() returns (reply: Reply)
      requires Valid()
      modifies comPortObj
      ensures Transacted(comPortObj, "MEAS:BUTTON?", 1, reply)
    {
      var cmd, n := Commands.Command(Commands.ButtonAny), Commands.ReplyLines(Commands.ButtonAny);
      assert cmd == "MEAS:BUTTON?" && n == 1;
      reply := Query(cmd, n);
    }

    /** `buttonLeft`: `MEAS:BUTTON:LEFT?`, one reply line. */
    method ButtonLeft() returns (reply: Reply)
      requires Valid()
      modifies comPortObj
      ensures Transacted(comPortObj, "MEAS:BUTTON:LEFT?", 1, reply)
    {
      var cmd, n := Commands.Command(Commands.ButtonLeft), Commands.ReplyLines(Commands.ButtonLeft);
      assert cmd == "MEAS:BUTTON:LEFT?" && n == 1;
      reply := Query(cmd, n);
    }

    /** `buttonRight`: `MEAS:BUTTON:RIGHT?`, one reply line. */
    method ButtonRight() returns (reply: Reply)
      requires Valid()
      modifies comPortObj
      ensures Transacted(comPortObj, "MEAS:BUTTON:RIGHT?", 1, reply)
    {
      var cmd, n := Commands.Command(Commands.ButtonRight), Commands.ReplyLines(Commands.ButtonRight);
      assert cmd == "MEAS:BUTTON:RIGHT?" && n == 1;
      reply := Query(cmd, n);
    }

    /** `switch`: `MEAS:SWITCH?`, one reply line. */
    method Switch() returns (reply: Reply)
      requires Valid()
      modifies comPortObj
      ensures Transacted(comPortObj, "MEAS:SWITCH?", 1, reply)
    {
      var cmd, n := Commands.Command(Commands.Switch), Commands.ReplyLines(Commands.Switch);
      assert cmd == "MEAS:SWITCH?" && n == 1;
      reply := Query(cmd, n);
    }

    /** `temp`: `MEAS:TEMP?`, one reply line. */
    method Temp() returns (reply: Reply)
      requires Valid()
      modifies comPortObj
      ensures Transacted(comPortObj, "MEAS:TEMP?", 1, reply)
    {
      var cmd, n := Commands.Command(Commands.Temperature), Commands.ReplyLines(Commands.Temperature);
      assert cmd == "MEAS:TEMP?" && n == 1;
      reply := Query(cmd, n);
    }

    /** `acc`: `MEAS:ACC?`, one reply line. */
    method Acc() returns (reply: Reply)
      requires Valid()
      modifies comPortObj
      ensures Transacted(comPortObj, "MEAS:ACC?", 1, reply)
    {
      var cmd, n := Commands.Command(Commands.Acceleration), Commands.ReplyLines(Commands.Acceleration);
      assert cmd == "MEAS:ACC?" && n == 1;
      reply := Query(cmd, n);
    }

    /** `light`: `MEAS:LIGHT?`, one reply line. */
    method Light() returns (reply: Reply)
      requires Valid()
      modifies comPortObj
      ensures Transacted(comPortObj, "MEAS:LIGHT?", 1, reply)
    {
      var cmd, n := Commands.Command(Commands.Light), Commands.ReplyLines(Commands.Light);
      assert cmd == "MEAS:LIGHT?" && n == 1;
      reply := Query(cmd, n);
    }

    /** `sound`: `MEAS:SOUND?`, one reply line. */
    method Sound() returns (reply: Reply)
      requires Valid()
      modifies comPortObj
      ensures Transacted(comPortObj, "MEAS:SOUND?", 1, reply)
    {
      var cmd, n := Commands.Command(Commands.Sound), Commands.ReplyLines(Commands.Sound);
      assert cmd == "MEAS:SOUND?" && n == 1;
      reply := Query(cmd, n);
    }

    /** `capSense`: `MEAS:CAP:SENSE?`, one reply line. */
    method CapSense() returns (reply: Reply)
      requires Valid()
      modifies comPortObj
      ensures Transacted(comPortObj, "MEAS:CAP:SENSE?", 1, reply)
    {
      var cmd, n := Commands.Command(Commands.CapSense), Commands.ReplyLines(Commands.CapSense);
      assert cmd == "MEAS:CAP:SENSE?" && n == 1;
      reply := Query(cmd, n);
    }

    /** `capTap`: `MEAS:CAP:TAP?`, one reply line. */
    method CapTap() returns (reply: Reply)
      requires Valid()
      modifies comPortObj
      ensures Transacted(comPortObj, "MEAS:CAP:TAP?", 1, reply)
    {
      var cmd, n := Commands.Command(Commands.CapTap), Commands.ReplyLines(Commands.CapTap);
      assert cmd == "MEAS:CAP:TAP?" && n == 1;
      reply := Query(cmd, n);
    }

    /** `time`: `MEAS:TIME?`, one reply line. */
    method Time() returns (reply: Reply)
      requires Valid()
      modifies comPortObj
      ensures Transacted(comPortObj, "MEAS:TIME?", 1, reply)
    {
      var cmd, n := Commands.Command(Commands.Time), Commands.ReplyLines(Commands.Time);
      assert cmd == "MEAS:TIME?" && n == 1;
      reply := Query(cmd, n);
    }
  }
}
