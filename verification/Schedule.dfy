/** The shuffled schedule of all sessions of a run, what complete runs add up to, and why the
    shuffle cannot show in a summary (benchmarking/run_benchmarks.py, build_session_schedule). */
module Schedule {
  import opened Numbers
  import opened Sequences
  import opened SessionPlan
  import opened Ledger
  import opened Summary

  datatype CasePlan = CasePlan(sequence: int, caseId: string, batches: seq<Batch>, firmwareKey: string)

  function OneRepeat(plan: CasePlan, round: int): seq<Job> {
    seq(|plan.batches|, k requires 0 <= k < |plan.batches| =>
      Job(0, plan.sequence, plan.caseId, round, k + 1, |plan.batches|, plan.batches[k]))
  }

  function Repeats(plan: CasePlan, count: int): seq<Job> {
    if count <= 0 then [] else Repeats(plan, count - 1) + OneRepeat(plan, count)
  }

  function PlanJobs(cases: seq<CasePlan>, sessionsPerCase: int): seq<Job> {
    if cases == [] then []
    else PlanJobs(cases[..|cases| - 1], sessionsPerCase) + Repeats(cases[|cases| - 1], sessionsPerCase)
  }

  function Unnumber(job: Job): Job { job.(sessionSequence := 0) }

  /** The jobs of `schedule` are those of the plan, in some order. */
  ghost predicate Schedules(schedule: seq<Job>, cases: seq<CasePlan>, sessionsPerCase: int) {
    multiset(Map(Unnumber, schedule)) == multiset(PlanJobs(cases, sessionsPerCase))
  }

  /** random.shuffle: exchanges each position with one at or before it, chosen by `picks`. */
  method Shuffle(jobs: seq<Job>, picks: nat -> nat) returns (shuffled: seq<Job>)
    ensures multiset(shuffled) == multiset(jobs)
  {
    shuffled := jobs;
    var i := |jobs| - 1;
    while i > 0
      invariant multiset(shuffled) == multiset(jobs) && |shuffled| == |jobs|
      invariant i < |jobs|
    {
      var j := picks(i) % (i + 1);
      shuffled := shuffled[i := shuffled[j]][j := shuffled[i]];
      i := i - 1;
    }
  }

  method PlanRound(plan: CasePlan, round: int) returns (jobs: seq<Job>)
    ensures jobs == OneRepeat(plan, round)
  {
    jobs := [];
    for k := 0 to |plan.batches|
      invariant jobs == OneRepeat(plan, round)[..k]
    {
      jobs := jobs + [Job(0, plan.sequence, plan.caseId, round, k + 1, |plan.batches|, plan.batches[k])];
    }
  }

  method PlanCase(plan: CasePlan, sessionsPerCase: int) returns (jobs: seq<Job>)
    ensures jobs == Repeats(plan, sessionsPerCase)
  {
    jobs := [];
    var round := 1;
    while round <= sessionsPerCase
      invariant jobs == Repeats(plan, round - 1)
      invariant 1 <= round <= Max(1, sessionsPerCase + 1)
    {
      var pass := PlanRound(plan, round);
      jobs := jobs + pass;
      round := round + 1;
    }
    RepeatsNone(plan, sessionsPerCase, round - 1);
  }

  method PlanSessions(cases: seq<CasePlan>, sessionsPerCase: int) returns (jobs: seq<Job>)
    ensures jobs == PlanJobs(cases, sessionsPerCase)
  {
    jobs := [];
    for c := 0 to |cases|
      invariant jobs == PlanJobs(cases[..c], sessionsPerCase)
    {
      var caseJobs := PlanCase(cases[c], sessionsPerCase);
      jobs := jobs + caseJobs;
      assert cases[..c + 1][..c] == cases[..c];
    }
    assert cases[..|cases|] == cases;
  }

  method NumberSessions(jobs: seq<Job>) returns (numbered: seq<Job>)
    ensures Map(Unnumber, numbered) == Map(Unnumber, jobs)
    ensures forall k :: 0 <= k < |numbered| ==> numbered[k].sessionSequence == k + 1
  {
    numbered := jobs;
    for k := 0 to |numbered|
      invariant |numbered| == |jobs|
      invariant forall m :: 0 <= m < |jobs| ==> numbered[m] == if m < k then jobs[m].(sessionSequence := m + 1) else jobs[m]
    {
      numbered := numbered[k := numbered[k].(sessionSequence := k + 1)];
    }
    assert forall m :: 0 <= m < |jobs| ==> Unnumber(numbered[m]) == Unnumber(jobs[m]);
  }

  method BuildSessionSchedule(cases: seq<CasePlan>, sessionsPerCase: int, picks: nat -> nat)
    returns (jobs: seq<Job>)
    ensures Schedules(jobs, cases, sessionsPerCase)
    ensures forall k :: 0 <= k < |jobs| ==> jobs[k].sessionSequence == k + 1
  {
    var planned := PlanSessions(cases, sessionsPerCase);
    var shuffled := Shuffle(planned, picks);
    PlanIsUnnumbered(cases, sessionsPerCase);
    UnnumberPermutes(shuffled, planned);
    jobs := NumberSessions(shuffled);
  }

  /** `j` is the session for batch `b` of case `c` in round `round`. */
  predicate IsSessionOf(j: Job, c: CasePlan, round: int, b: int) {
    && 1 <= b <= |c.batches|
    && j.sessionSequence == 0 && j.caseSequence == c.sequence && j.caseId == c.caseId
    && j.repeatIndex == round && j.batchIndex == b && j.batchCount == |c.batches| && j.batch == c.batches[b - 1]
  }

  ghost predicate InRounds(j: Job, c: CasePlan, count: int) {
    exists round, b :: 1 <= round <= count && IsSessionOf(j, c, round, b)
  }

  lemma OneRepeatExactly(plan: CasePlan, round: int, j: Job)
    ensures j in OneRepeat(plan, round) <==> exists b :: IsSessionOf(j, plan, round, b)
  {
    var jobs := OneRepeat(plan, round);
    if b :| IsSessionOf(j, plan, round, b) {
      assert jobs[b - 1] == j;
    }
    if k :| 0 <= k < |jobs| && jobs[k] == j {
      assert IsSessionOf(j, plan, round, k + 1);
    }
  }

  lemma {:induction false} RepeatsExactly(plan: CasePlan, count: int, j: Job)
    ensures j in Repeats(plan, count) <==> InRounds(j, plan, count)
    ensures |Repeats(plan, count)| == Max(0, count) * |plan.batches|
    decreases Max(0, count)
  {
    if count <= 0 {
    } else {
      RepeatsExactly(plan, count - 1, j);
      OneRepeatExactly(plan, count, j);
      assert count * |plan.batches| == (count - 1) * |plan.batches| + |plan.batches|;
      if round, b :| 1 <= round <= count && IsSessionOf(j, plan, round, b) {
        assert round < count ==> InRounds(j, plan, count - 1);
      }
      if round, b :| 1 <= round <= count - 1 && IsSessionOf(j, plan, round, b) {
        assert InRounds(j, plan, count);
      }
    }
  }

  function BatchTotal(cases: seq<CasePlan>): nat {
    if cases == [] then 0 else BatchTotal(cases[..|cases| - 1]) + |cases[|cases| - 1].batches|
  }

  /** The plan holds exactly the sessions of every batch of every case in every round, and as many
      jobs as that makes. */
  lemma {:induction false} PlannedExactly(cases: seq<CasePlan>, sessionsPerCase: int, j: Job)
    ensures j in PlanJobs(cases, sessionsPerCase) <==> exists c <- cases :: InRounds(j, c, sessionsPerCase)
    ensures |PlanJobs(cases, sessionsPerCase)| == Max(0, sessionsPerCase) * BatchTotal(cases)
  {
    if cases == [] {
    } else {
      var front, plan := cases[..|cases| - 1], cases[|cases| - 1];
      PlannedExactly(front, sessionsPerCase, j);
      RepeatsExactly(plan, sessionsPerCase, j);
      assert cases == front + [plan];
      Distribute(Max(0, sessionsPerCase), BatchTotal(front), |plan.batches|);
    }
  }

  lemma Distribute(a: int, b: int, c: int)
    ensures a * (b + c) == a * b + a * c
  {}

  lemma RepeatsNone(plan: CasePlan, count: int, done: int)
    requires done == Max(0, count)
    ensures Repeats(plan, done) == Repeats(plan, count)
  {}

  lemma {:induction false} RepeatsUnnumbered(plan: CasePlan, count: int)
    ensures Map(Unnumber, Repeats(plan, count)) == Repeats(plan, count)
    decreases Max(0, count)
  {
    if count <= 0 {
    } else {
      RepeatsUnnumbered(plan, count - 1);
      assert Map(Unnumber, OneRepeat(plan, count)) == OneRepeat(plan, count);
      assert Map(Unnumber, Repeats(plan, count))
          == Map(Unnumber, Repeats(plan, count - 1)) + Map(Unnumber, OneRepeat(plan, count));
    }
  }

  lemma {:induction false} PlanIsUnnumbered(cases: seq<CasePlan>, sessionsPerCase: int)
    ensures Map(Unnumber, PlanJobs(cases, sessionsPerCase)) == PlanJobs(cases, sessionsPerCase)
  {
    if cases == [] {
    } else {
      var front, plan := cases[..|cases| - 1], cases[|cases| - 1];
      PlanIsUnnumbered(front, sessionsPerCase);
      RepeatsUnnumbered(plan, sessionsPerCase);
      assert Map(Unnumber, PlanJobs(cases, sessionsPerCase))
          == Map(Unnumber, PlanJobs(front, sessionsPerCase)) + Map(Unnumber, Repeats(plan, sessionsPerCase));
    }
  }

  lemma UnnumberPermutes(xs: seq<Job>, ys: seq<Job>)
    requires multiset(xs) == multiset(ys)
    ensures multiset(Map(Unnumber, xs)) == multiset(Map(Unnumber, ys))
  {
    var one := (j: Job) => [Unnumber(j)];
    MapIsGather(one, xs);
    MapIsGather(one, ys);
    GatherPermutes(one, xs, ys);
  }

  lemma {:induction false} MapIsGather(one: Job -> seq<Job>, xs: seq<Job>)
    requires forall j :: one(j) == [Unnumber(j)]
    ensures Gather(one, xs) == Map(Unnumber, xs)
  {
    if xs == [] {
    } else {
      MapIsGather(one, xs[1..]);
      assert Map(Unnumber, xs) == [Unnumber(xs[0])] + Map(Unnumber, xs[1..]);
    }
  }

  // ----- complete runs add up -----

  ghost predicate Complete(job: Job, outcome: Outcome) {
    outcome.Returned? && |outcome.rows| == job.batch.Size()
  }

  ghost predicate CaseComplete(c: int, jobs: seq<Job>, outcomes: seq<Outcome>) {
    |jobs| == |outcomes| && forall k :: 0 <= k < |jobs| && jobs[k].caseSequence == c ==> Complete(jobs[k], outcomes[k])
  }

  function Flags(rows: seq<Attempt>): seq<int> {
    seq(|rows|, k requires 0 <= k < |rows| => rows[k].warmup)
  }

  /** The warm-up flags a complete session of case `c` leaves; an empty session leaves one row. */
  function FlagsFor(c: int): Job -> seq<int> {
    (j: Job) => if j.caseSequence == c then Labels(j.batch.warmups, Max(1, j.batch.Size())) else []
  }

  lemma CompleteFlags(job: Job, outcome: Outcome, start: int)
    requires Complete(job, outcome)
    ensures Flags(Contribution(job, outcome, start)) == FlagsFor(job.caseSequence)(job)
  {
    RenumberedFlags(NonEmptyRows(outcome.rows, NO_ATTEMPT), start, job.batch.warmups);
  }

  lemma RenumberedFlags(rows: seq<Attempt>, start: int, warmups: int)
    ensures Flags(RenumberSession(rows, start, warmups)) == Labels(warmups, |rows|)
  {}

  lemma {:induction false} LedgerFlags(c: int, jobs: seq<Job>, outcomes: seq<Outcome>, n: nat)
    requires n <= |jobs| && CaseComplete(c, jobs, outcomes)
    ensures Flags(LedgerOf(c, jobs, outcomes, n)) == Gather(FlagsFor(c), jobs[..n])
  {
    if n == 0 {
    } else {
      LedgerFlags(c, jobs, outcomes, n - 1);
      GatherSnoc(FlagsFor(c), jobs, n);
      var before := LedgerOf(c, jobs, outcomes, n - 1);
      if jobs[n - 1].caseSequence == c {
        var added := Contribution(jobs[n - 1], outcomes[n - 1], |before| + 1);
        CompleteFlags(jobs[n - 1], outcomes[n - 1], |before| + 1);
        assert Flags(before + added) == Flags(before) + Flags(added);
      }
    }
  }

  function Times(count: int, flags: seq<int>): seq<int> {
    if count <= 0 then [] else Times(count - 1, flags) + flags
  }

  /** The flags one pass over a plan leaves, an empty plan leaving its placeholder row. */
  function PassFlags(warmups: int, iterations: int): seq<int> {
    Labels(warmups, Max(1, warmups + iterations))
  }

  lemma {:induction false} RepeatFlags(plan: CasePlan, c: int, round: int, n: nat)
    requires n <= |plan.batches|
    requires forall b <- plan.batches :: b.Size() > 0
    ensures Gather(FlagsFor(c), OneRepeat(plan, round)[..n])
         == if plan.sequence == c then Gather(LabelsOfBatch(), plan.batches[..n]) else []
  {
    if n == 0 {
    } else {
      RepeatFlags(plan, c, round, n - 1);
      var jobs := OneRepeat(plan, round);
      GatherSnoc(FlagsFor(c), jobs, n);
      GatherSnoc(LabelsOfBatch(), plan.batches, n);
    }
  }

  lemma OneRepeatFlags(plan: CasePlan, c: int, round: int, warmups: int, iterations: int, limit: int)
    requires warmups >= 0 && iterations >= 0
    requires plan.sequence == c ==> plan.batches == Batches(warmups, iterations, limit)
    ensures Gather(FlagsFor(c), OneRepeat(plan, round))
         == if plan.sequence == c then PassFlags(warmups, iterations) else []
  {
    var jobs := OneRepeat(plan, round);
    if plan.sequence != c {
      GatherNothing(c, jobs);
    } else if warmups + iterations == 0 {
      assert jobs[1..] == [];
    } else {
      BatchesFillTheLimit(warmups, iterations, limit);
      BatchesKeepLabels(warmups, iterations, limit);
      RepeatFlags(plan, c, round, |plan.batches|);
      assert jobs[..|plan.batches|] == jobs && plan.batches[..|plan.batches|] == plan.batches;
    }
  }

  lemma {:induction false} GatherNothing(c: int, jobs: seq<Job>)
    requires forall j <- jobs :: j.caseSequence != c
    ensures Gather(FlagsFor(c), jobs) == []
  {
    if jobs == [] {
    } else {
      GatherNothing(c, jobs[1..]);
    }
  }

  lemma {:induction false} RepeatsFlags(plan: CasePlan, c: int, count: int, warmups: int, iterations: int, limit: int)
    requires warmups >= 0 && iterations >= 0
    requires plan.sequence == c ==> plan.batches == Batches(warmups, iterations, limit)
    ensures Gather(FlagsFor(c), Repeats(plan, count))
         == if plan.sequence == c then Times(count, PassFlags(warmups, iterations)) else []
    decreases Max(0, count)
  {
    if count <= 0 {
    } else {
      RepeatsFlags(plan, c, count - 1, warmups, iterations, limit);
      OneRepeatFlags(plan, c, count, warmups, iterations, limit);
      GatherAppend(FlagsFor(c), Repeats(plan, count - 1), OneRepeat(plan, count));
    }
  }

  ghost predicate DistinctCases(cases: seq<CasePlan>) {
    forall i, j :: 0 <= i < j < |cases| ==> cases[i].sequence != cases[j].sequence
  }

  lemma {:induction false} PlanFlags(cases: seq<CasePlan>, c: int, count: int, warmups: int, iterations: int, limit: int)
    requires warmups >= 0 && iterations >= 0 && DistinctCases(cases)
    requires forall p <- cases :: p.sequence == c ==> p.batches == Batches(warmups, iterations, limit)
    ensures Gather(FlagsFor(c), PlanJobs(cases, count))
         == if exists p <- cases :: p.sequence == c then Times(count, PassFlags(warmups, iterations)) else []
  {
    if cases == [] {
    } else {
      var front, plan := cases[..|cases| - 1], cases[|cases| - 1];
      assert cases == front + [plan];
      PlanFlags(front, c, count, warmups, iterations, limit);
      RepeatsFlags(plan, c, count, warmups, iterations, limit);
      GatherAppend(FlagsFor(c), PlanJobs(front, count), Repeats(plan, count));
    }
  }

  lemma {:induction false} CountTimes(count: int, flags: seq<int>)
    requires count >= 0
    ensures |Times(count, flags)| == count * |flags|
    ensures multiset(Times(count, flags))[1] == count * multiset(flags)[1]
  {
    if count <= 0 {
    } else {
      CountTimes(count - 1, flags);
      assert count * |flags| == (count - 1) * |flags| + |flags|;
      assert count * multiset(flags)[1] == (count - 1) * multiset(flags)[1] + multiset(flags)[1];
    }
  }

  lemma {:induction false} CountLabels(warmups: int, size: int)
    requires 0 <= warmups <= size
    ensures multiset(Labels(warmups, size))[1] == warmups
    decreases size
  {
    if size <= 0 {
    } else {
      var shorter := if warmups == size then warmups - 1 else warmups;
      CountLabels(shorter, size - 1);
      assert Labels(warmups, size) == Labels(shorter, size - 1) + [if warmups == size then 1 else 0];
    }
  }

  /** When every session of a case is complete its ledger holds the whole plan once per repeat,
      with exactly its warm-ups flagged - unless the plan is empty, when each session still
      leaves one timeout row. */
  lemma CompleteRunCounts(cases: seq<CasePlan>, c: int, sessionsPerCase: int, limit: int,
                          warmups: int, iterations: int, jobs: seq<Job>, outcomes: seq<Outcome>)
    requires warmups >= 0 && iterations >= 0 && sessionsPerCase >= 1 && DistinctCases(cases)
    requires exists p <- cases :: p.sequence == c
    requires forall p <- cases :: p.sequence == c ==> p.batches == Batches(warmups, iterations, limit)
    requires Schedules(jobs, cases, sessionsPerCase) && CaseComplete(c, jobs, outcomes)
    ensures
      var ledger := LedgerOf(c, jobs, outcomes, |jobs|);
      && (|ledger| == sessionsPerCase * (warmups + iterations) <==> warmups + iterations > 0)
      && multiset(Flags(ledger))[1] == sessionsPerCase * warmups
  {
    LedgerFlags(c, jobs, outcomes, |jobs|);
    assert jobs[..|jobs|] == jobs;
    GatherThrough(FlagsFor(c), Unnumber, jobs);
    GatherPermutes(FlagsFor(c), Map(Unnumber, jobs), PlanJobs(cases, sessionsPerCase));
    PlanFlags(cases, c, sessionsPerCase, warmups, iterations, limit);
    var pass := PassFlags(warmups, iterations);
    CountTimes(sessionsPerCase, pass);
    CountLabels(warmups, Max(1, warmups + iterations));
    var ledger := LedgerOf(c, jobs, outcomes, |jobs|);
    SameLength(Flags(ledger), Times(sessionsPerCase, pass));
    assert |Flags(ledger)| == |ledger|;
    if warmups + iterations == 0 {
      assert sessionsPerCase * 1 == sessionsPerCase && sessionsPerCase * 0 == 0;
    }
  }

  // ----- the shuffle does not show -----

  ghost predicate DependsOnJobOnly(jobs: seq<Job>, outcomes: seq<Outcome>, outcome: Job -> Outcome) {
    |jobs| == |outcomes| && forall k :: 0 <= k < |jobs| ==> outcomes[k] == outcome(Unnumber(jobs[k]))
  }

  function ContentsFor(c: int, outcome: Job -> Outcome): Job -> seq<Attempt> {
    (j: Job) =>
      if j.caseSequence == c then Map(Content, Contribution(Unnumber(j), outcome(Unnumber(j)), 1)) else []
  }

  lemma ContentIgnoresNumbers(job: Job, outcome: Outcome, start: int)
    ensures Map(Content, Contribution(job, outcome, start)) == Map(Content, Contribution(Unnumber(job), outcome, 1))
  {
    if outcome.Returned? {
      RenumberedContents(NonEmptyRows(outcome.rows, NO_ATTEMPT), start, job.batch.warmups);
    } else {
      assert Content(EmptyRow(start, Error, outcome.message)) == Content(EmptyRow(1, Error, outcome.message));
    }
  }

  lemma RenumberedContents(rows: seq<Attempt>, start: int, warmups: int)
    ensures Map(Content, RenumberSession(rows, start, warmups)) == Map(Content, RenumberSession(rows, 1, warmups))
  {
    var xs, ys := RenumberSession(rows, start, warmups), RenumberSession(rows, 1, warmups);
    forall k | 0 <= k < |rows| ensures Content(xs[k]) == Content(ys[k]) {
      assert xs[k] == ys[k].(index := start + k);
    }
    assert |Map(Content, xs)| == |Map(Content, ys)|;
  }

  lemma {:induction false} LedgerContents(c: int, jobs: seq<Job>, outcomes: seq<Outcome>, outcome: Job -> Outcome, n: nat)
    requires n <= |jobs| && DependsOnJobOnly(jobs, outcomes, outcome)
    ensures Map(Content, LedgerOf(c, jobs, outcomes, n)) == Gather(ContentsFor(c, outcome), jobs[..n])
  {
    if n == 0 {
    } else {
      LedgerContents(c, jobs, outcomes, outcome, n - 1);
      var j := jobs[n - 1];
      GatherSnoc(ContentsFor(c, outcome), jobs, n);
      var before := LedgerOf(c, jobs, outcomes, n - 1);
      if j.caseSequence == c {
        var added := Contribution(j, outcomes[n - 1], |before| + 1);
        ContentIgnoresNumbers(j, outcomes[n - 1], |before| + 1);
        MapAppend(Content, before, added);
      }
    }
  }

  /** If what a session yields depends only on its job, every order of the same sessions gives
      every case the same summary. Sessions may be full, short, over-long, empty or raise. */
  lemma ShuffleDoesNotShow(c: int, cases: seq<CasePlan>, sessionsPerCase: int, outcome: Job -> Outcome,
                           jobs: seq<Job>, outcomes: seq<Outcome>, jobs': seq<Job>, outcomes': seq<Outcome>)
    requires Schedules(jobs, cases, sessionsPerCase) && DependsOnJobOnly(jobs, outcomes, outcome)
    requires Schedules(jobs', cases, sessionsPerCase) && DependsOnJobOnly(jobs', outcomes', outcome)
    ensures Summarize(LedgerOf(c, jobs, outcomes, |jobs|)) == Summarize(LedgerOf(c, jobs', outcomes', |jobs'|))
  {
    var f := ContentsFor(c, outcome);
    LedgerContents(c, jobs, outcomes, outcome, |jobs|);
    LedgerContents(c, jobs', outcomes', outcome, |jobs'|);
    assert jobs[..|jobs|] == jobs && jobs'[..|jobs'|] == jobs';
    GatherThrough(f, Unnumber, jobs);
    GatherThrough(f, Unnumber, jobs');
    GatherPermutes(f, Map(Unnumber, jobs), Map(Unnumber, jobs'));
    SummaryOfContents(LedgerOf(c, jobs, outcomes, |jobs|), LedgerOf(c, jobs', outcomes', |jobs'|));
  }
}
