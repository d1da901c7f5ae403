/** Attempt rows, their renumbering, and the per-case ledger a schedule of sessions leaves behind
    (benchmarking/run_benchmarks.py, renumber_* and run_scheduled_session). */
module Ledger {
  import opened Sequences
  import opened SessionPlan

  datatype Status = Success | Error | Timeout | Unsupported

  datatype Field =
    | TcpConnect | TlsHandshake | RawHandshake | MqttConnect | FullConnect
    | CpuMs | CpuPctX100 | WolfsslPeak | WolfsslFailures | HeapCurrent | HeapPeak

  /** A row; `fields` holds the non-empty numeric columns. */
  datatype Attempt = Attempt(index: int, warmup: int, status: Status, fields: map<Field, real>, message: string)

  datatype Job = Job(
    sessionSequence: int, caseSequence: int, caseId: string,
    repeatIndex: int, batchIndex: int, batchCount: int, batch: Batch)

  /** What flashing had done to the board when a session raised. */
  datatype BoardFate = Untouched | Programmed | Erased

  datatype Outcome = Returned(rows: seq<Attempt>) | Raised(message: string, fate: BoardFate)

  function RenumberSession(rows: seq<Attempt>, start: int, sessionWarmups: int): seq<Attempt> {
    seq(|rows|, k requires 0 <= k < |rows| =>
      rows[k].(index := start + k, warmup := if k < sessionWarmups then 1 else 0))
  }

  function RenumberGlobal(rows: seq<Attempt>, start: int, totalWarmups: int): seq<Attempt> {
    seq(|rows|, k requires 0 <= k < |rows| =>
      rows[k].(index := start + k, warmup := if start + k <= totalWarmups then 1 else 0))
  }

  function EmptyRow(index: int, status: Status, message: string): Attempt {
    Attempt(index, 0, status, map[], message)
  }

  /** The rows of a session that returned; one that returned nothing counts as one timeout. */
  function NonEmptyRows(rows: seq<Attempt>, message: string): seq<Attempt> {
    if rows == [] then [EmptyRow(1, Timeout, message)] else rows
  }

  const NO_ATTEMPT := "session produced no BENCH_ATTEMPT"

  /** What one session adds to its case's ledger, the next free index being `start`. */
  function Contribution(job: Job, outcome: Outcome, start: int): (r: seq<Attempt>)
    ensures r != []
  {
    match outcome
    case Returned(rows) => RenumberSession(NonEmptyRows(rows, NO_ATTEMPT), start, job.batch.warmups)
    case Raised(message, _) => [EmptyRow(start, Error, message)]
  }

  /** The ledger of case `c` after the first `n` sessions of a schedule. */
  function LedgerOf(c: int, jobs: seq<Job>, outcomes: seq<Outcome>, n: nat): seq<Attempt>
    requires n <= |jobs| == |outcomes|
  {
    if n == 0 then []
    else
      var before := LedgerOf(c, jobs, outcomes, n - 1);
      if jobs[n - 1].caseSequence == c
      then before + Contribution(jobs[n - 1], outcomes[n - 1], |before| + 1)
      else before
  }

  /** One more session changes its own case's ledger and no other. */
  lemma LedgerStep(c: int, jobs: seq<Job>, outcomes: seq<Outcome>, n: nat)
    requires n < |jobs| == |outcomes|
    ensures LedgerOf(c, jobs, outcomes, n + 1) == LedgerOf(c, jobs, outcomes, n) +
      if jobs[n].caseSequence == c
      then Contribution(jobs[n], outcomes[n], |LedgerOf(c, jobs, outcomes, n)| + 1) else []
  {}

  predicate GapFree(rows: seq<Attempt>) {
    forall k :: 0 <= k < |rows| ==> rows[k].index == k + 1
  }

  /** Under every interleaving and every mix of full, short, empty and raising sessions the
      rows of a case are numbered 1, 2, 3, ... without gap or repeat. */
  lemma {:induction false} LedgerIsGapFree(c: int, jobs: seq<Job>, outcomes: seq<Outcome>, n: nat)
    requires n <= |jobs| == |outcomes|
    ensures GapFree(LedgerOf(c, jobs, outcomes, n))
  {
    if n == 0 {
    } else {
      LedgerIsGapFree(c, jobs, outcomes, n - 1);
      var before := LedgerOf(c, jobs, outcomes, n - 1);
      var added := Contribution(jobs[n - 1], outcomes[n - 1], |before| + 1);
      assert forall k :: 0 <= k < |added| ==> added[k].index == |before| + 1 + k;
    }
  }

  // ----- every ledger row carries the session row it came from -----

  function Unindexed(a: Attempt): Attempt { a.(index := 0) }

  function Flag(k: int, job: Job): int { if k < job.batch.warmups then 1 else 0 }

  /** What a session leaves behind, indices aside: the rows it returned in their order, the first
      `warmups` of them flagged; one timeout row if it returned none; one error row with its
      message if it raised. */
  function Yield(job: Job, outcome: Outcome): seq<Attempt> {
    match outcome
    case Raised(message, _) => [Attempt(0, 0, Error, map[], message)]
    case Returned(rows) =>
      if rows == [] then [Attempt(0, Flag(0, job), Timeout, map[], NO_ATTEMPT)]
      else seq(|rows|, k requires 0 <= k < |rows| => Attempt(0, Flag(k, job), rows[k].status, rows[k].fields, rows[k].message))
  }

  /** What the sessions of case `c` among the first `n` leave behind, one after another. */
  function YieldsOf(c: int, jobs: seq<Job>, outcomes: seq<Outcome>, n: nat): seq<Attempt>
    requires n <= |jobs| == |outcomes|
  {
    if n == 0 then []
    else YieldsOf(c, jobs, outcomes, n - 1) + if jobs[n - 1].caseSequence == c then Yield(jobs[n - 1], outcomes[n - 1]) else []
  }

  lemma ContributionIsYield(job: Job, outcome: Outcome, start: int)
    ensures Map(Unindexed, Contribution(job, outcome, start)) == Yield(job, outcome)
  {
    var added := Contribution(job, outcome, start);
    assert |added| == |Yield(job, outcome)|;
    forall k | 0 <= k < |added| ensures Unindexed(added[k]) == Yield(job, outcome)[k] {}
  }

  /** Under every schedule a case's ledger is, indices aside, what its sessions left behind, in the
      order they ran; with LedgerIsGapFree this determines every row. */
  lemma {:induction false} LedgerCarriesRows(c: int, jobs: seq<Job>, outcomes: seq<Outcome>, n: nat)
    requires n <= |jobs| == |outcomes|
    ensures Map(Unindexed, LedgerOf(c, jobs, outcomes, n)) == YieldsOf(c, jobs, outcomes, n)
  {
    if n == 0 {
    } else {
      LedgerCarriesRows(c, jobs, outcomes, n - 1);
      var before := LedgerOf(c, jobs, outcomes, n - 1);
      if jobs[n - 1].caseSequence == c {
        var added := Contribution(jobs[n - 1], outcomes[n - 1], |before| + 1);
        ContributionIsYield(jobs[n - 1], outcomes[n - 1], |before| + 1);
        MapAppend(Unindexed, before, added);
      }
    }
  }

  // ----- plan order: per-session labelling agrees with whole-case labelling -----

  const ALL_ROWS: seq<Attempt> -> seq<Attempt> := (rows: seq<Attempt>) => rows

  function Flatten(sessions: seq<seq<Attempt>>): seq<Attempt> { Gather(ALL_ROWS, sessions) }

  function BySession(batches: seq<Batch>, sessions: seq<seq<Attempt>>, start: int): seq<Attempt>
    requires |batches| == |sessions|
  {
    if batches == [] then []
    else RenumberSession(sessions[0], start, batches[0].warmups) +
         BySession(batches[1..], sessions[1..], start + |sessions[0]|)
  }

  lemma {:induction false} SplitLabelling(warmups: int, total: int, limit: int, consumed: int, sessions: seq<seq<Attempt>>)
    requires limit > 0
    requires var batches := SplitFrom(warmups, total, limit, consumed);
      |sessions| == |batches| && forall k :: 0 <= k < |batches| ==> |sessions[k]| == batches[k].Size()
    ensures BySession(SplitFrom(warmups, total, limit, consumed), sessions, consumed + 1)
         == RenumberGlobal(Flatten(sessions), consumed + 1, warmups)
    decreases total - consumed
  {
    if consumed >= total {
    } else {
      var batches := SplitFrom(warmups, total, limit, consumed);
      var b := BatchAt(warmups, total, limit, consumed);
      assert batches[0] == b && batches[1..] == SplitFrom(warmups, total, limit, consumed + b.Size());
      SplitLabelling(warmups, total, limit, consumed + b.Size(), sessions[1..]);
      var rest := Flatten(sessions[1..]);
      assert RenumberSession(sessions[0], consumed + 1, b.warmups) == RenumberGlobal(sessions[0], consumed + 1, warmups);
      assert RenumberGlobal(sessions[0] + rest, consumed + 1, warmups)
          == RenumberGlobal(sessions[0], consumed + 1, warmups) + RenumberGlobal(rest, consumed + 1 + b.Size(), warmups);
    }
  }

  /** Complete sessions taken in plan order: labelling session by session, labelling with one
      running index, and labelling one uncut session all give the same rows. */
  lemma PlanOrderLabelling(warmups: int, iterations: int, limit: int, sessions: seq<seq<Attempt>>)
    requires var batches := Batches(warmups, iterations, limit);
      |sessions| == |batches| && forall k :: 0 <= k < |batches| ==> |sessions[k]| == batches[k].Size()
    ensures
      var batches := Batches(warmups, iterations, limit);
      BySession(batches, sessions, 1) == RenumberGlobal(Flatten(sessions), 1, warmups)
        == RenumberSession(Flatten(sessions), 1, warmups)
  {
    if IsSplit(warmups, iterations, limit) {
      SplitLabelling(warmups, warmups + iterations, limit, 0, sessions);
    } else {
      assert sessions == [sessions[0]];
      assert Flatten(sessions) == sessions[0] + Flatten(sessions[1..]) == sessions[0];
      assert BySession(Batches(warmups, iterations, limit), sessions, 1)
          == RenumberSession(sessions[0], 1, warmups) + [];
    }
    assert RenumberGlobal(Flatten(sessions), 1, warmups) == RenumberSession(Flatten(sessions), 1, warmups);
  }

  /** What run_case takes from a session. */
  const SESSION_ROWS: seq<Attempt> -> seq<Attempt> := (rows: seq<Attempt>) => NonEmptyRows(rows, NO_ATTEMPT)

  function Bare(a: Attempt): Attempt { a.(index := 0, warmup := 0) }

  /** A session's rows, index and flag aside; one timeout row if it has none. */
  const BARE_ROWS: seq<Attempt> -> seq<Attempt> := (rows: seq<Attempt>) =>
    if rows == [] then [Attempt(0, 0, Timeout, map[], NO_ATTEMPT)] else Map(Bare, rows)

  /** Rows numbered 1, 2, 3, ... with the first `warmups` flagged. */
  predicate Numbered(rows: seq<Attempt>, warmups: int) {
    forall k :: 0 <= k < |rows| ==> rows[k].index == k + 1 && rows[k].warmup == if k < warmups then 1 else 0
  }

  lemma RenumberKeepsRows(rows: seq<Attempt>, start: int, totalWarmups: int)
    ensures Map(Bare, RenumberGlobal(rows, start, totalWarmups)) == Map(Bare, rows)
  {
    var renumbered := RenumberGlobal(rows, start, totalWarmups);
    forall k | 0 <= k < |rows| ensures Bare(renumbered[k]) == Bare(rows[k]) {}
  }

  lemma SessionRowsBare(rows: seq<Attempt>)
    ensures Map(Bare, NonEmptyRows(rows, NO_ATTEMPT)) == BARE_ROWS(rows)
  {
    if rows == [] {
      assert Map(Bare, NonEmptyRows(rows, NO_ATTEMPT)) == [Attempt(0, 0, Timeout, map[], NO_ATTEMPT)];
    }
  }

  /** The session loop of run_case: one running index over all sessions of the case, every row
      being that of the session it came from. */
  method CollectCaseSessions(sessions: seq<seq<Attempt>>, totalWarmups: int)
    returns (attempts: seq<Attempt>, nextAttemptIndex: int)
    ensures Map(Bare, attempts) == Gather(BARE_ROWS, sessions)
    ensures Numbered(attempts, totalWarmups) && nextAttemptIndex == |attempts| + 1
    ensures attempts == RenumberGlobal(Gather(SESSION_ROWS, sessions), 1, totalWarmups)
  {
    attempts, nextAttemptIndex := [], 1;
    for k := 0 to |sessions|
      invariant Map(Bare, attempts) == Gather(BARE_ROWS, sessions[..k])
      invariant attempts == RenumberGlobal(Gather(SESSION_ROWS, sessions[..k]), 1, totalWarmups)
      invariant nextAttemptIndex == |attempts| + 1
    {
      var rows := NonEmptyRows(sessions[k], NO_ATTEMPT);
      SessionRowsBare(sessions[k]);
      RenumberKeepsRows(rows, nextAttemptIndex, totalWarmups);
      MapAppend(Bare, attempts, RenumberGlobal(rows, nextAttemptIndex, totalWarmups));
      GatherSnoc(BARE_ROWS, sessions, k + 1);
      GatherSnoc(SESSION_ROWS, sessions, k + 1);
      attempts := attempts + RenumberGlobal(rows, nextAttemptIndex, totalWarmups);
      nextAttemptIndex := nextAttemptIndex + |rows|;
    }
    assert sessions[..|sessions|] == sessions;
  }
}
