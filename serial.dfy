/**
 * The serial port the client talks through (a pyserial `Serial` object),
 * modelled abstractly: what has been written to the device, the lines the
 * device has sent that are still waiting to be read, whether the port is
 * open, and the order in which writes and reads happened.
 */
module Serial {

  /** One observable step on the port, in the order it happened. */
  datatype IoEvent = Sent(data: string) | Received(line: string)

  /** The events of reading `lines` one after another. */
  function Receipts(lines: seq<string>): (evs: seq<IoEvent>)
    ensures |evs| == |lines|
    ensures forall k :: 0 <= k < |lines| ==> evs[k] == Received(lines[k])
  {
    seq(|lines|, k requires 0 <= k < |lines| => Received(lines[k]))
  }

  class Transport {
    /** The device path the port was opened on (`comPortObj.name`). */
    const name: string
    const baudrate: int
    var isOpen: bool
    /** Everything written to the device so far. */
    var written: string
    /** Lines the device has sent that have not been read yet, oldest first. */
    var pending: seq<string>
    /** Every write and read so far, oldest first. */
    var trace: seq<IoEvent>

    /**
     * Opening the port on `name`; `incoming` is what the device will send.
     * A port constructed with a device name is open at once.
     */
    constructor (name: string, baudrate: int, incoming: seq<string>)
      ensures this.name == name && this.baudrate == baudrate
      ensures isOpen && written == [] && pending == incoming && trace == []
    {
      this.name := name;
      this.baudrate := baudrate;
      isOpen := true;
      written := [];
      pending := incoming;
      trace := [];
    }

    /** `write(data)`: fails (pyserial raises) when the port is closed. */
    method Write(data: string) returns (ok: bool)
      modifies this
      ensures ok == old(isOpen)
      ensures ok ==> written == old(written) + data && trace == old(trace) + [Sent(data)]
      ensures !ok ==> written == old(written) && trace == old(trace)
      ensures isOpen == old(isOpen) && pending == old(pending)
    {
      ok := isOpen;
      if ok {
        written := written + data;
        trace := trace + [Sent(data)];
      }
    }

    /**
     * `readline()`: the oldest pending line; when nothing is pending the
     * read timeout expires and the empty text comes back. Fails (pyserial
     * raises) when the port is closed.
     */
    method ReadLine() returns (ok: bool, line: string)
      modifies this
      ensures ok == old(isOpen)
      ensures ok ==> line == (if old(pending) == [] then "" else old(pending)[0])
      ensures ok ==> pending == (if old(pending) == [] then [] else old(pending)[1..])
      ensures ok ==> trace == old(trace) + [Received(line)]
      ensures !ok ==> line == "" && pending == old(pending) && trace == old(trace)
      ensures isOpen == old(isOpen) && written == old(written)
    {
      ok := isOpen;
      line := "";
      if ok {
        if pending != [] {
          line := pending[0];
          pending := pending[1..];
        }
        trace := trace + [Received(line)];
      }
    }

    /** `close()`: the port is closed; nothing else changes. */
    method Close()
      modifies this
      ensures !isOpen
      ensures written == old(written) && pending == old(pending) && trace == old(trace)
    {
      isOpen := false;
    }
  }
}
