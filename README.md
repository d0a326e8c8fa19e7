# cpg_scpi: the Circuit Playground SCPI client, modelled in Dafny

`cpg_scpi` is a small Python client for an Adafruit Circuit Playground
board that speaks a line-oriented, SCPI-like text protocol over a serial
port. Its class `CircuitPlayground` finds the board's port among the
enumerated serial ports, opens it, and offers one method per query
(`idn`, `config`, `buttonAny` … `time`). Every query goes through one
transaction, `_query`: write the command followed by a line feed, read a
fixed number of reply lines, join them and strip the outer whitespace.

The model has five modules:

- `Text` (text.dfy): Python's `str.strip()` (`Strip`, built from
  `TrimStart`/`TrimEnd`) over the exact character set `str.isspace()`
  accepts, and `''.join` of lines (`Concat`). `Strip` is proved equal to an
  independent description of stripping (`IsStripOf`: cut a whitespace-only
  prefix and suffix, keep a part with no outer whitespace), in both
  directions.
- `Serial` (serial.dfy): the serial port as a class `Transport` holding
  what was written, the queue of lines the device has sent and not yet
  read, whether the port is open, and a trace of writes and reads in
  order. `ReadLine` on an empty queue returns the empty text, as pyserial's
  `readline` does when its read timeout expires.
- `Commands` (commands.dfy): the fixed table of query methods, each with
  its command text and its reply-line count.
- `Discovery` (discovery.dfy): the port-selection rule of `_findComPort`
  as a pure function of the list of matching device names.
- `Playground` (playground.dfy): the class `CircuitPlayground` with the
  fields `comPort`, `baudrate` and `comPortObj`; `Query` is `_query` with
  its read loop; the thirteen query methods; `FindComPort`,
  `FindAndConnectComPort`, `Close`, `IsOpen` (`is_open`, a plain field
  read); and `Start`, the part of `__init__` after the field set-up. The
  specification functions `ReadLines`, `Consumed` and `QueryText` say what
  a query reads and returns; `Transacted` states the whole state change of
  one query.

Python's `__init__` is split in two: the Dafny constructor does the field
set-up (lines 15-17) and `Start` does discovery, connecting and the two
start-up queries (lines 18-21), because the start-up can end in process
exit, which a Dafny constructor cannot report. `sys.exit(1)` becomes the
`Terminated(1)` / `Exit(1)` outcome. An exception from pyserial on a
closed port becomes the `PortNotOpen` reply, with no state change.

`_query` (src/cpg_scpi/__init__.py:84-89) only writes, reads, joins and
strips. It does not check for reply lines starting with `ERROR`. It does
not drain or reject reply lines beyond the expected count; they stay
queued for the next query. Nothing decodes numbers or timestamps: every
public method returns the raw reply text. The model does the same.

## Model

| member | source | states |
|---|---|---|
| Text.TrimStart | src/cpg_scpi/__init__.py:89 | the result is a suffix of the input, everything cut off is whitespace, and it does not start with whitespace |
| Text.TrimEnd | src/cpg_scpi/__init__.py:89 | the result is a prefix of the input, everything cut off is whitespace, and it does not end with whitespace |
| Text.SpaceCharacters | src/cpg_scpi/__init__.py:89 | `strip()` removes the blank, tab, line feed and carriage return, keeps every other printable ASCII character, and below U+0080 removes exactly the blank, tab through carriage return and U+001C to U+001F |
| Text.Strip | src/cpg_scpi/__init__.py:89 | `strip()` leaves no leading or trailing whitespace and never lengthens the text |
| Text.StripCharacterized | src/cpg_scpi/__init__.py:89 | r is the strip of s exactly when r is s with a whitespace-only prefix and suffix removed and r has no outer whitespace (both directions) |
| Text.StripIsAStrip | src/cpg_scpi/__init__.py:89 | the strip of s is s with a whitespace-only prefix and suffix removed, with no outer whitespace left |
| Text.StripIsTheOnlyStrip | src/cpg_scpi/__init__.py:89 | any such cut of s with no outer whitespace left is the strip of s |
| Text.StripIdempotent | src/cpg_scpi/__init__.py:89 | stripping a stripped text returns it unchanged |
| Text.StripOfTrimmed | src/cpg_scpi/__init__.py:89 | a text with no outer whitespace is its own strip |
| Text.ConcatAppend | src/cpg_scpi/__init__.py:86-88 | joining two groups of lines is joining each and concatenating: no separator is inserted |
| Text.Concat | src/cpg_scpi/__init__.py:86-88 | joining a single line gives that line unchanged |
| Text.ConcatEmptyLines | src/cpg_scpi/__init__.py:88 | empty reads add nothing to the joined reply |
| Serial.Transport.constructor | src/cpg_scpi/__init__.py:94 | the port opened on a device name is open, has written nothing, and has the device's lines queued |
| Serial.Transport.Write | src/cpg_scpi/__init__.py:85 | on an open port the data is appended to what was written and to the trace; on a closed port it fails and nothing changes |
| Serial.Transport.ReadLine | src/cpg_scpi/__init__.py:88 | on an open port it returns and removes the oldest queued line, or the empty text on timeout, and records the read; on a closed port it fails and nothing changes |
| Serial.Transport.Close | src/cpg_scpi/__init__.py:25 | the port is closed and nothing else changes |
| Commands.Command | src/cpg_scpi/__init__.py:31-81 | every command is a query ending in `?`, and it is a `MEAS:` command exactly for the methods other than `idn` and `config` |
| Commands.ReplyLines | src/cpg_scpi/__init__.py:31-81 | every method reads at least one line, and more than one exactly for `idn` and `config` |
| Commands.LineCountByCommand | src/cpg_scpi/__init__.py:31-81 | `*IDN?` reads 6 lines, `SYST:CON?` reads 9, and a command reads exactly 1 line iff it is a `MEAS:` query |
| Commands.CommandsAreSingleLineQueries | src/cpg_scpi/__init__.py:31-81 | every command ends with `?` and holds no line feed, so its frame is one line |
| Commands.CommandsDistinct | src/cpg_scpi/__init__.py:31-81 | different query methods send different commands |
| Discovery.SelectPort | src/cpg_scpi/__init__.py:97-118 | the search is fatal exactly when nothing matched; otherwise the chosen port is the first match |
| Discovery.SelectionRule | src/cpg_scpi/__init__.py:97-118 | no match is fatal; otherwise the first match is chosen, with the warning exactly when there is more than one match |
| Discovery.SelectedIsAMatch | src/cpg_scpi/__init__.py:108-115 | the chosen port is one of the matches |
| Discovery.LaterMatchesOnlyWarn | src/cpg_scpi/__init__.py:108-115 | further matches after the first never change the chosen port, only turn on the warning |
| Playground.Frame | src/cpg_scpi/__init__.py:85 | the wire text is the command followed by exactly one line feed |
| Playground.Iterations | src/cpg_scpi/__init__.py:87 | `range(n)` runs n times for n at least 0 and never for a negative n |
| Playground.ReadLines | src/cpg_scpi/__init__.py:87-88 | n reads return the queued lines in order, then empty texts once the queue is exhausted |
| Playground.ReadLinesExact | src/cpg_scpi/__init__.py:87-88 | with at least n lines queued, n reads return exactly the first n, in order |
| Playground.ReadLinesJoin | src/cpg_scpi/__init__.py:86-88 | the joined reads equal the joined consumed lines; timed-out reads add nothing |
| Playground.QueryText | src/cpg_scpi/__init__.py:84-89 | a reply has no outer whitespace, and a query expecting no lines replies with the empty text |
| Playground.QueryTextMeaning | src/cpg_scpi/__init__.py:84-89 | the reply is the strip of the consumed lines joined in order; with enough lines queued exactly `expectedLines` are used; zero expected lines give the empty reply; the reply has no outer whitespace and is stable under strip |
| Playground.InnerTerminatorsKept | src/cpg_scpi/__init__.py:86-89 | a two-line reply keeps the line feed between its lines, loses only the outer one, and leaves later lines queued |
| Playground.CircuitPlayground.constructor | src/cpg_scpi/__init__.py:14-17 | the port name (default none) and baud rate (default 115200) are stored and no port object exists yet |
| Playground.CircuitPlayground.IsOpen | src/cpg_scpi/__init__.py:27-29 | the result is whether the port object is open |
| Playground.CircuitPlayground.Close | src/cpg_scpi/__init__.py:23-29 | afterwards the port is closed; a port that was already closed is left untouched; queue, writes and trace are kept |
| Playground.CircuitPlayground.FindComPort | src/cpg_scpi/__init__.py:97-118 | the outcome is the selection rule, and `comPort` becomes the chosen device, or none when the program exits |
| Playground.CircuitPlayground.FindAndConnectComPort | src/cpg_scpi/__init__.py:91-95 | an explicitly given port is kept and no discovery happens; otherwise the selection decides between exit code 1 and a connection; a connection is a fresh open port on `comPort` with the device's lines queued |
| Playground.CircuitPlayground.Start | src/cpg_scpi/__init__.py:14-21 | exit with code 1 exactly when no port was given and nothing matched; otherwise the port is open at the client's unchanged baud rate, the warning is shown exactly when discovery found several boards, and the identification then configuration replies are read from the device's lines in order; the trace is the `*IDN?` write, its six reads, the `SYST:CON?` write and its nine reads |
| Playground.CircuitPlayground.Query | src/cpg_scpi/__init__.py:84-89 | on an open port: the framed command is written before any read, exactly the expected number of reads happen, the queue loses exactly the consumed lines in order, the reply is their stripped join; on a closed port nothing changes |
| Playground.CircuitPlayground.Idn | src/cpg_scpi/__init__.py:31-32 | one query of `*IDN?` reading 6 lines |
| Playground.CircuitPlayground.Config | src/cpg_scpi/__init__.py:34-35 | one query of `SYST:CON?` reading 9 lines |
| Playground.CircuitPlayground.ButtonAny | src/cpg_scpi/__init__.py:50-51 | one query of `MEAS:BUTTON?` reading 1 line |
| Playground.CircuitPlayground.ButtonLeft | src/cpg_scpi/__init__.py:53-54 | one query of `MEAS:BUTTON:LEFT?` reading 1 line |
| Playground.CircuitPlayground.ButtonRight | src/cpg_scpi/__init__.py:56-57 | one query of `MEAS:BUTTON:RIGHT?` reading 1 line |
| Playground.CircuitPlayground.Switch | src/cpg_scpi/__init__.py:59-60 | one query of `MEAS:SWITCH?` reading 1 line |
| Playground.CircuitPlayground.Temp | src/cpg_scpi/__init__.py:62-63 | one query of `MEAS:TEMP?` reading 1 line |
| Playground.CircuitPlayground.Acc | src/cpg_scpi/__init__.py:65-66 | one query of `MEAS:ACC?` reading 1 line |
| Playground.CircuitPlayground.Light | src/cpg_scpi/__init__.py:68-69 | one query of `MEAS:LIGHT?` reading 1 line |
| Playground.CircuitPlayground.Sound | src/cpg_scpi/__init__.py:71-72 | one query of `MEAS:SOUND?` reading 1 line |
| Playground.CircuitPlayground.CapSense | src/cpg_scpi/__init__.py:74-75 | one query of `MEAS:CAP:SENSE?` reading 1 line |
| Playground.CircuitPlayground.CapTap | src/cpg_scpi/__init__.py:77-78 | one query of `MEAS:CAP:TAP?` reading 1 line |
| Playground.CircuitPlayground.Time | src/cpg_scpi/__init__.py:80-81 | one query of `MEAS:TIME?` reading 1 line |

## Left out

- Opening the port (`serial.Serial(...)`, line 94): baud rate handling and the 10 s read timeout belong to pyserial; the model's port is open once constructed, and a device name that fails to open (pyserial raises) is not modelled.
- pyserial's port enumeration and `grep("adafruit")` (line 98): the list of matching device names, in enumeration order, is an input.
- All console output (lines 20-21, 95, 100-105, 110-113, 116-118); of the warning only the fact that it was shown is kept, as `warned`.
- `sys.exit(1)` (line 107) as process termination: it is the `Exit(1)` / `Terminated(1)` outcome.
- UTF-8 encoding and decoding (lines 85, 88): lines and commands are character sequences.
- Timing of reads: a read that times out is modelled as returning the empty text once nothing is queued; a partial line that arrives before the timeout is simply an element of the queue.
- Strip: handles the characters Python's `str.isspace()` accepts (tab through carriage return, the separators U+001C to U+001F, space, U+0085, U+00A0, U+1680, U+2000 to U+200A, U+2028, U+2029, U+202F, U+205F, U+3000), not Unicode normalisation.
- IsOpen, Close, Query and the query methods require a connected client (`comPortObj` set), because `__init__` either connects or never returns an object: it exits the process when no board is found, and `serial.Serial` raising when the port cannot be opened aborts it too. The `AttributeError` Python would raise on an unconnected object is therefore not modelled.
- The commented-out exploration code (lines 122-137).
