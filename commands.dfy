/**
 * The fixed table behind the public query methods of `CircuitPlayground`:
 * each method sends one constant SCPI command and reads a constant number
 * of reply lines.
 */
module Commands {

  /** One public query method of `CircuitPlayground`. */
  datatype Request =
    | Identify        // idn()
    | Configuration   // config()
    | ButtonAny       // buttonAny()
    | ButtonLeft      // buttonLeft()
    | ButtonRight     // buttonRight()
    | Switch          // switch()
    | Temperature     // temp()
    | Acceleration    // acc()
    | Light           // light()
    | Sound           // sound()
    | CapSense        // capSense()
    | CapTap          // capTap()
    | Time            // time()

  /**
   * The command text the method sends: a query (ending in `?`), in the
   * `MEAS:` subsystem for every method except `idn` and `config`.
   */
  function Command(q: Request): (cmd: string)
    ensures |cmd| > 0 && cmd[|cmd| - 1] == '?'
    ensures IsMeasurement(cmd) <==> !(q.Identify? || q.Configuration?)
  {
    match q
    case Identify =>
      assert "*IDN?"[0] != "MEAS:"[0];
      "*IDN?"
    case Configuration =>
      assert "SYST:CON?"[0] != "MEAS:"[0];
      "SYST:CON?"
    case ButtonAny => "MEAS:BUTTON?"
    case ButtonLeft => "MEAS:BUTTON:LEFT?"
    case ButtonRight => "MEAS:BUTTON:RIGHT?"
    case Switch => "MEAS:SWITCH?"
    case Temperature => "MEAS:TEMP?"
    case Acceleration => "MEAS:ACC?"
    case Light => "MEAS:LIGHT?"
    case Sound => "MEAS:SOUND?"
    case CapSense => "MEAS:CAP:SENSE?"
    case CapTap => "MEAS:CAP:TAP?"
    case Time => "MEAS:TIME?"
  }

  /**
   * How many reply lines the method reads: at least one for every method,
   * and more than one only for `idn` and `config`.
   */
  function ReplyLines(q: Request): (n: nat)
    ensures n >= 1
    ensures n > 1 <==> q.Identify? || q.Configuration?
  {
    match q
    case Identify => 6
    case Configuration => 9
    case _ => 1
  }

  /** A measurement command is one in the `MEAS:` subsystem. */
  predicate IsMeasurement(cmd: string) {
    "MEAS:" <= cmd
  }

  /**
   * The reply-line count is determined by the command text: 6 for the
   * identification query, 9 for the configuration query, and 1 exactly
   * for every `MEAS:` query.
   */
  lemma {:induction false} LineCountByCommand(q: Request)
    ensures Command(q) == "*IDN?" <==> ReplyLines(q) == 6
    ensures Command(q) == "SYST:CON?" <==> ReplyLines(q) == 9
    ensures IsMeasurement(Command(q)) <==> ReplyLines(q) == 1
  {
    match q
    case Identify =>
      assert Command(q)[0] != "MEAS:"[0];
    case Configuration =>
      assert Command(q)[0] != "MEAS:"[0];
    case _ =>
  }

  /** Every request is a query: its command ends with `?` and holds no line feed. */
  lemma {:induction false} CommandsAreSingleLineQueries(q: Request)
    ensures |Command(q)| > 0 && Command(q)[|Command(q)| - 1] == '?'
    ensures forall k :: 0 <= k < |Command(q)| ==> Command(q)[k] != '\n'
  {
    match q
    case Identify =>
    case Configuration =>
    case ButtonAny =>
    case ButtonLeft =>
    case ButtonRight =>
    case Switch =>
    case Temperature =>
    case Acceleration =>
    case Light =>
    case Sound =>
    case CapSense =>
    case CapTap =>
    case Time =>
  }

  /** Different methods send different commands, so the table has no clashes. */
  lemma {:induction false} CommandsDistinct(q: Request, q': Request)
    ensures Command(q) == Command(q') ==> q == q'
  {
    if Command(q) == Command(q') {
      match q
      case Identify =>
      case Configuration =>
      case ButtonAny =>
      case ButtonLeft =>
      case ButtonRight =>
      case Switch =>
      case Temperature =>
      case Acceleration =>
      case Light =>
      case Sound =>
      case CapSense =>
      case CapTap =>
      case Time =>
    }
  }
}
