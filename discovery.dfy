/**
 * Choosing the serial port of the Circuit Playground among the ports whose
 * descriptors match "adafruit". The match list itself (pyserial's port
 * enumeration and grep) is an input here: the device names of the matching
 * ports in enumeration order.
 */
module Discovery {

  /** The process exit status when no board is found. */
  const NotFoundExitCode: int := 1

  /**
   * The outcome of the search: the program terminates (`Fatal`), or a port
   * is chosen, with `warned` telling whether the multiple-boards warning
   * was shown.
   */
  datatype Selection = Fatal | Selected(port: string, warned: bool)

  /** `_findComPort`'s decision: fatal without a match, else one of the matches. */
  function SelectPort(matches: seq<string>): (s: Selection)
    ensures s.Fatal? <==> matches == []
    ensures s.Selected? ==> s.port == matches[0] && s.port in matches
  {
    if |matches| == 0 then Fatal
    else if |matches| > 1 then Selected(matches[0], true)
    else Selected(matches[0], false)
  }

  /**
   * The selection rule: no match is fatal; otherwise the first match is
   * chosen, and the warning is shown exactly when there was more than one.
   */
  lemma {:induction false} SelectionRule(matches: seq<string>)
    ensures SelectPort(matches).Fatal? <==> matches == []
    ensures matches != [] ==> SelectPort(matches).port == matches[0]
    ensures SelectPort(matches).Selected? ==> (SelectPort(matches).warned <==> |matches| > 1)
  {
  }

  /** The chosen port is always one of the matches. */
  lemma {:induction false} SelectedIsAMatch(matches: seq<string>)
    ensures SelectPort(matches).Selected? ==> SelectPort(matches).port in matches
  {
  }

  /**
   * Ports enumerated after the first never change which port is chosen;
   * they can only turn the warning on.
   */
  lemma {:induction false} LaterMatchesOnlyWarn(matches: seq<string>, later: seq<string>)
    requires matches != []
    ensures SelectPort(matches + later).Selected?
    ensures SelectPort(matches + later).port == SelectPort(matches).port
    ensures SelectPort(matches + later).warned <==> (SelectPort(matches).warned || later != [])
  {
    assert (matches + later)[0] == matches[0];
  }
}
