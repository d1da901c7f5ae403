/** The run itself: prepared cases with their ledgers, the remembered flash key, and the main
    loop that survives raising sessions (benchmarking/run_benchmarks.py, main). */
module Runner {
  import opened CaseSession
  import opened Ledger
  import opened Numbers
  import opened Options
  import opened Schedule
  import opened Sequences
  import opened Summary
  import FlashCache

  class PreparedCase {
    const plan: CasePlan
    var attempts: seq<Attempt>
    var nextAttemptIndex: int

    ghost predicate Valid()
      reads this
    {
      nextAttemptIndex == |attempts| + 1
    }

    constructor (plan: CasePlan)
      ensures Valid() && this.plan == plan && attempts == []
    {
      this.plan := plan;
      attempts, nextAttemptIndex := [], 1;
    }
  }

  type Cases = map<int, PreparedCase>

  ghost predicate Indexed(cases: Cases) {
    forall c <- cases :: cases[c].plan.sequence == c
  }

  function Sessions(jobs: seq<Job>, outcomes: seq<Outcome>, cases: Cases): seq<FlashCache.Session>
    requires |jobs| == |outcomes| && forall j <- jobs :: j.caseSequence in cases
  {
    seq(|jobs|, k requires 0 <= k < |jobs| =>
      FlashCache.Session(cases[jobs[k].caseSequence].plan.firmwareKey, outcomes[k]))
  }

  class BenchmarkRun {
    const skipFlash: bool
    /** The build has an image for the network core too. */
    const twoCores: bool
    var flashedFirmwareKey: Option<string>
    var board: Option<string>

    constructor (skipFlash: bool, twoCores: bool, board: Option<string>)
      ensures this.skipFlash == skipFlash && this.twoCores == twoCores
      ensures this.board == board && flashedFirmwareKey == None
    {
      this.skipFlash, this.twoCores := skipFlash, twoCores;
      this.board := board;
      flashedFirmwareKey := None;
    }

    function Flash(): FlashCache.FlashState
      reads this
    {
      FlashCache.FlashState(flashedFirmwareKey, board)
    }

    /** flash_firmware: erases and programs one core after the other; while that is going on the
        board holds no whole image. */
    method FlashFirmware(key: string, at: Option<Stage>) returns (ok: bool)
      modifies this`board
      ensures ok <==> !FlashFails(at, twoCores)
      ensures ok ==> board == Some(key)
      ensures !ok ==> board == if FateOf(at, twoCores) == Untouched then old(board) else None
    {
      if at == Some(FindImage) {
        return false;
      }
      if at.Some? && at.value.ProgramApp? {
        if at.value.erased {
          board := None;
        }
        return false;
      }
      if !twoCores {
        board := Some(key);
        return true;
      }
      board := None;
      if at == Some(ProgramNet) {
        return false;
      }
      board := Some(key);
      return true;
    }

    /** The body of the try: whether it got through, and the rows. */
    method RunSteps(key: string, flashSession: bool, t: Trouble) returns (ok: bool)
      requires !BeforeTry(t.at)
      modifies this`board
      ensures ok == t.at.None?
      ensures board == if flashSession then FlashCache.BoardAfter(old(board), key, FateOf(t.at, twoCores)) else old(board)
    {
      if t.at == Some(BrokerReady) {
        return false;
      }
      if flashSession {
        var flashed := FlashFirmware(key, t.at);
        if !flashed {
          return false;
        }
      }
      return t.at.None?;
    }

    /** run_case_session as far as the board and the rows are concerned. */
    method RunCaseSession(key: string, flashSession: bool, t: Trouble) returns (outcome: Outcome)
      modifies this`board
      ensures outcome == OutcomeOf(twoCores)(t)
      ensures board ==
        if !flashSession then old(board)
        else if outcome.Returned? then Some(key)
        else FlashCache.BoardAfter(old(board), key, outcome.fate)
    {
      var fate := FateOf(t.at, twoCores);
      if BeforeTry(t.at) {
        return Raised(t.message, fate);
      }
      var ok := RunSteps(key, flashSession, t);
      if t.teardown.Some? {
        return Raised(t.teardown.value, fate);
      }
      return if ok then Returned(t.rows) else Raised(t.message, fate);
    }

    /** A raising session leaves the ledger alone and the flash key unrecorded. */
    method RunScheduledSession(job: Job, prepared: PreparedCase, t: Trouble) returns (outcome: Outcome)
      requires prepared.Valid()
      modifies this, prepared
      ensures prepared.Valid() && outcome == OutcomeOf(twoCores)(t)
      ensures prepared.attempts ==
        old(prepared.attempts) + if outcome.Raised? then [] else Contribution(job, outcome, old(|prepared.attempts|) + 1)
      ensures Map(Unindexed, prepared.attempts[old(|prepared.attempts|)..]) == if outcome.Raised? then [] else Yield(job, outcome)
      ensures Flash() == FlashCache.Step(skipFlash, old(Flash()), FlashCache.Session(prepared.plan.firmwareKey, outcome))
    {
      var flashNeeded := !skipFlash && flashedFirmwareKey != Some(prepared.plan.firmwareKey);
      outcome := RunCaseSession(prepared.plan.firmwareKey, flashNeeded, t);
      ContributionIsYield(job, outcome, |prepared.attempts| + 1);
      if outcome.Raised? {
        return;
      }
      if flashNeeded {
        flashedFirmwareKey := Some(prepared.plan.firmwareKey);
      }
      var rows := NonEmptyRows(outcome.rows, NO_ATTEMPT);
      prepared.attempts := prepared.attempts + RenumberSession(rows, prepared.nextAttemptIndex, job.batch.warmups);
      prepared.nextAttemptIndex := prepared.nextAttemptIndex + |rows|;
    }

    /** One turn of the main loop: a session that raises becomes one error row. */
    method RunOrRecordFailure(job: Job, prepared: PreparedCase, t: Trouble) returns (outcome: Outcome)
      requires prepared.Valid()
      modifies this, prepared
      ensures prepared.Valid() && outcome == OutcomeOf(twoCores)(t)
      ensures prepared.attempts == old(prepared.attempts) + Contribution(job, outcome, old(|prepared.attempts|) + 1)
      ensures Flash() == FlashCache.Step(skipFlash, old(Flash()), FlashCache.Session(prepared.plan.firmwareKey, outcome))
    {
      outcome := RunScheduledSession(job, prepared, t);
      if outcome.Raised? {
        prepared.attempts := prepared.attempts + [EmptyRow(prepared.nextAttemptIndex, Error, outcome.message)];
        prepared.nextAttemptIndex := prepared.nextAttemptIndex + 1;
      }
    }

    /** Session `k` of a schedule: its case's ledger and the flash memory take one step, every
        other ledger stays. */
    method RunTurn(jobs: seq<Job>, cases: Cases, ghost outcomes: seq<Outcome>, t: Trouble, k: nat)
      requires k < |jobs| == |outcomes| && outcomes[k] == OutcomeOf(twoCores)(t) && Indexed(cases) && jobs[k].caseSequence in cases
      requires forall c <- cases :: cases[c].Valid() && cases[c].attempts == LedgerOf(c, jobs, outcomes, k)
      modifies this, cases.Values
      ensures forall c <- cases :: cases[c].Valid() && cases[c].attempts == LedgerOf(c, jobs, outcomes, k + 1)
      ensures Flash() == FlashCache.Step(skipFlash, old(Flash()),
        FlashCache.Session(cases[jobs[k].caseSequence].plan.firmwareKey, outcomes[k]))
    {
      var turn := jobs[k].caseSequence;
      var outcome := RunOrRecordFailure(jobs[k], cases[turn], t);
      forall c | c in cases
        ensures cases[c].Valid() && cases[c].attempts == LedgerOf(c, jobs, outcomes, k + 1)
      {
        LedgerStep(c, jobs, outcomes, k);
        assert c != turn ==> cases[c] != cases[turn];
      }
    }

    /** Runs a whole schedule. Every ledger is the one the schedule prescribes, the next free
        index is one past it, and the flash memory has followed every session. */
    method RunSchedule(jobs: seq<Job>, cases: Cases, troubles: seq<Trouble>)
      requires |jobs| == |troubles| && Indexed(cases)
      requires forall j <- jobs :: j.caseSequence in cases
      requires forall c <- cases :: cases[c].Valid() && cases[c].attempts == []
      modifies this, cases.Values
      ensures
        var outcomes := Map(OutcomeOf(twoCores), troubles);
        && (forall c <- cases :: cases[c].Valid() && cases[c].attempts == LedgerOf(c, jobs, outcomes, |jobs|))
        && (forall c <- cases :: Map(Unindexed, cases[c].attempts) == YieldsOf(c, jobs, outcomes, |jobs|))
        && Flash() == FlashCache.Run(skipFlash, old(Flash()), Sessions(jobs, outcomes, cases), |jobs|)
    {
      ghost var outcomes := Map(OutcomeOf(twoCores), troubles);
      ghost var sessions := Sessions(jobs, outcomes, cases);
      for k := 0 to |jobs|
        invariant forall c <- cases :: cases[c].Valid() && cases[c].attempts == LedgerOf(c, jobs, outcomes, k)
        invariant Flash() == FlashCache.Run(skipFlash, old(Flash()), sessions, k)
      {
        RunTurn(jobs, cases, outcomes, troubles[k], k);
        assert sessions[k] == FlashCache.Session(cases[jobs[k].caseSequence].plan.firmwareKey, outcomes[k]);
      }
      forall c | c in cases ensures Map(Unindexed, cases[c].attempts) == YieldsOf(c, jobs, outcomes, |jobs|) {
        LedgerCarriesRows(c, jobs, outcomes, |jobs|);
      }
    }

    function YieldOf(trouble: Job -> Trouble): Job -> Outcome { (j: Job) => OutcomeOf(twoCores)(trouble(j)) }

    /** A whole run: plan, shuffle, every session. If what happens in a session depends only on its
        job, each case ends with the summary the unshuffled plan would give, whatever `picks`. */
    method RunShuffled(plans: seq<CasePlan>, sessionsPerCase: int, picks: nat -> nat, cases: Cases, trouble: Job -> Trouble)
      requires Indexed(cases) && forall p <- plans :: p.sequence in cases
      requires forall c <- cases :: cases[c].Valid() && cases[c].attempts == []
      modifies this, cases.Values
      ensures forall c <- cases :: GapFree(cases[c].attempts)
      ensures
        var planned := PlanJobs(plans, sessionsPerCase);
        forall c <- cases ::
          Summarize(cases[c].attempts) == Summarize(LedgerOf(c, planned, Map(YieldOf(trouble), planned), |planned|))
    {
      var jobs := BuildSessionSchedule(plans, sessionsPerCase, picks);
      ScheduledCasesExist(jobs, plans, sessionsPerCase);
      var troubles := seq(|jobs|, k requires 0 <= k < |jobs| => trouble(Unnumber(jobs[k])));
      RunSchedule(jobs, cases, troubles);
      ghost var outcome := YieldOf(trouble);
      ghost var outcomes := Map(OutcomeOf(twoCores), troubles);
      assert forall k :: 0 <= k < |jobs| ==> outcomes[k] == outcome(Unnumber(jobs[k]));
      ghost var planned := PlanJobs(plans, sessionsPerCase);
      PlanIsUnnumbered(plans, sessionsPerCase);
      assert forall k :: 0 <= k < |planned| ==> Map(Unnumber, planned)[k] == Unnumber(planned[k]) == planned[k];
      forall c | c in cases
        ensures GapFree(cases[c].attempts)
        ensures Summarize(cases[c].attempts) == Summarize(LedgerOf(c, planned, Map(outcome, planned), |planned|))
      {
        LedgerIsGapFree(c, jobs, outcomes, |jobs|);
        ShuffleDoesNotShow(c, plans, sessionsPerCase, outcome, jobs, outcomes, planned, Map(outcome, planned));
      }
    }
  }

  lemma {:induction false} RepeatedCase(plan: CasePlan, count: int)
    ensures forall j <- Repeats(plan, count) :: j.caseSequence == plan.sequence
    decreases Max(0, count)
  {
    if count <= 0 {
    } else {
      RepeatedCase(plan, count - 1);
    }
  }

  lemma {:induction false} PlannedCasesExist(plans: seq<CasePlan>, sessionsPerCase: int)
    ensures forall j <- PlanJobs(plans, sessionsPerCase) :: exists p <- plans :: p.sequence == j.caseSequence
  {
    if plans == [] {
    } else {
      PlannedCasesExist(plans[..|plans| - 1], sessionsPerCase);
      RepeatedCase(plans[|plans| - 1], sessionsPerCase);
    }
  }

  lemma ScheduledCasesExist(jobs: seq<Job>, plans: seq<CasePlan>, sessionsPerCase: int)
    requires Schedules(jobs, plans, sessionsPerCase)
    ensures forall j <- jobs :: exists p <- plans :: p.sequence == j.caseSequence
  {
    PlannedCasesExist(plans, sessionsPerCase);
    forall j | j in jobs ensures exists p <- plans :: p.sequence == j.caseSequence {
      var k :| 0 <= k < |jobs| && jobs[k] == j;
      assert Map(Unnumber, jobs)[k] == Unnumber(j);
      assert Unnumber(j) in multiset(Map(Unnumber, jobs));
      assert Unnumber(j) in PlanJobs(plans, sessionsPerCase);
    }
  }
}
