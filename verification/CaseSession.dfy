/** What can go wrong in one session, and what that makes of it: the rows it yields and the state it
    leaves the board in (benchmarking/run_benchmarks.py, run_case_session and flash_firmware). */
module CaseSession {
  import opened Options
  import opened Ledger

  /** The steps of a session in their order; any of them may raise. A raise while the application
      core is programmed may come before or after the erase. */
  datatype Stage =
    | Cleanup | StartBroker
    | BrokerReady | FindImage | ProgramApp(erased: bool) | ProgramNet
    | OpenSerial | ResetBoard | BootBanner | LinkUp | ReadyBanner | Ping | Collect

  /** What the environment does to a session: the step that raises, if one does, what the clean-up
      in the finally clause raises, if it does, and the rows collected when no step raises. */
  datatype Trouble = Trouble(at: Option<Stage>, message: string, teardown: Option<string>, rows: seq<Attempt>)

  /** The steps before the try; the finally clause does not run after them. */
  predicate BeforeTry(at: Option<Stage>) { at == Some(Cleanup) || at == Some(StartBroker) }

  /** The steps that raise while the board is being flashed. In a session that does not flash they
      stand for a raise between the broker's and the serial line's opening. */
  predicate FlashFails(at: Option<Stage>, twoCores: bool) {
    at.Some? && (at.value.FindImage? || at.value.ProgramApp? || (at.value.ProgramNet? && twoCores))
  }

  /** What a session that flashes has done to the board by the time it ends. An image has a part
      for the network core or not. */
  function FateOf(at: Option<Stage>, twoCores: bool): BoardFate {
    match at
    case Some(ProgramApp(erased)) => if erased then Erased else Untouched
    case Some(ProgramNet) => if twoCores then Erased else Programmed
    case Some(stage) => if stage in {Cleanup, StartBroker, BrokerReady, FindImage} then Untouched else Programmed
    case None => Programmed
  }

  /** A raising clean-up discards the rows, and replaces what the session raised. */
  function OutcomeOf(twoCores: bool): Trouble -> Outcome {
    (t: Trouble) =>
      if t.teardown.Some? && !BeforeTry(t.at) then Raised(t.teardown.value, FateOf(t.at, twoCores))
      else if t.at.Some? then Raised(t.message, FateOf(t.at, twoCores))
      else Returned(t.rows)
  }

  /** Rows survive if and only if no step and no clean-up raises; a clean-up that raises has the last
      word, unless the session raised before there was anything to clean up. */
  lemma OutcomeMeans(t: Trouble, twoCores: bool)
    ensures
      var outcome := OutcomeOf(twoCores)(t);
      var cleans := t.at != Some(Cleanup) && t.at != Some(StartBroker);
      && (outcome.Returned? <==> t.at == None && t.teardown == None)
      && (outcome.Returned? ==> outcome.rows == t.rows)
      && (outcome.Raised? ==> outcome.message == if cleans && t.teardown.Some? then t.teardown.value else t.message)
  {}

  /** A session that raises has left the board alone if the step comes before flashing or is the
      programming that had not begun to erase; it leaves no whole image if it is programming that
      had; and its own image afterwards. */
  lemma FateMeans(at: Option<Stage>, twoCores: bool)
    ensures FateOf(at, twoCores) == Untouched <==>
      at in {Some(Cleanup), Some(StartBroker), Some(BrokerReady), Some(FindImage), Some(ProgramApp(false))}
    ensures FateOf(at, twoCores) == Erased <==> at == Some(ProgramApp(true)) || (at == Some(ProgramNet) && twoCores)
  {}

  /** Every outcome the schedule-level statements range over is one some trouble brings about. */
  lemma EveryOutcomeOccurs(outcome: Outcome, twoCores: bool) returns (t: Trouble)
    ensures OutcomeOf(twoCores)(t) == outcome
  {
    match outcome
    case Returned(rows) => t := Trouble(None, "", None, rows);
    case Raised(message, Untouched) => t := Trouble(Some(BrokerReady), message, None, []);
    case Raised(message, Erased) => t := Trouble(Some(ProgramApp(true)), message, None, []);
    case Raised(message, Programmed) => t := Trouble(Some(Ping), message, None, []);
  }
}
