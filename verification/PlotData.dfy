/** The plotter's fallback against the summary it replaces: from the attempt files of a run it makes
    the rows that the summaries of the run's ledgers give (graphic/plot_tls_handshake_bars.py,
    benchmarking/run_benchmarks.py). */
module PlotData {
  import opened Ledger
  import opened Options
  import opened Schedule
  import opened Sequences
  import opened Summary
  import opened Text

  /** A row of attempts.csv, metadata attached. */
  datatype CsvAttempt = CsvAttempt(status: string, warmup: string, tls: string, kexGroup: string, certSigAlg: string)

  /** A case after the run: its ledger, and the file written from it. */
  datatype CaseResult = CaseResult(
    sequence: nat, caseId: string, kexGroup: string, certSigAlg: string, ledger: seq<Attempt>, attempts: seq<CsvAttempt>)

  datatype PlotRow = PlotRow(caseId: string, kexGroup: string, certSigAlg: string, mean: real)

  /** float(): None where it raises. */
  type Float = string -> Option<real>

  function Padded(n: nat): string {
    if n < 10 then "00" + Digits(n) else if n < 100 then "0" + Digits(n) else Digits(n)
  }

  function DirectoryName(c: CaseResult): string { Padded(c.sequence) + "_" + c.caseId }

  /** name.split("_", 1)[-1] */
  function AfterUnderscore(name: string): string {
    match Find("_", name)
    case Some(i) => name[i + 1..]
    case None => name
  }

  // ----- the summary -----

  /** `row` is what write_csv makes of `a`. The handshake column of a measured success is empty or a
      number, as summarize raises otherwise; the columns of other rows may hold anything. */
  predicate Written(row: CsvAttempt, a: Attempt, c: CaseResult, float: Float) {
    && row.kexGroup == c.kexGroup && row.certSigAlg == c.certSigAlg
    && (row.status == "success" <==> a.status == Success) && (row.warmup == "1" <==> a.warmup == 1)
    && (Measured(a) && a.status == Success ==>
          && (row.tls != "" <==> TlsHandshake in a.fields)
          && (row.tls != "" ==> float(row.tls) == Some(a.fields[TlsHandshake])))
  }

  predicate FileWritten(c: CaseResult, float: Float) {
    |c.attempts| == |c.ledger| && forall k :: 0 <= k < |c.ledger| ==> Written(c.attempts[k], c.ledger[k], c, float)
  }

  /** The row of summary.csv as far as it is plotted, if its mean is not empty. */
  function SummaryRow(c: CaseResult): seq<PlotRow> {
    match Summarize(c.ledger).stats[TlsHandshake]
    case NoValues => []
    case Stats(_, mean, _, _, _, _, _, _) => [PlotRow(c.caseId, c.kexGroup, c.certSigAlg, mean)]
  }

  // ----- the plotter -----

  predicate Plotted(a: CsvAttempt, float: Float) {
    a.status == "success" && a.warmup != "1" && float(a.tls).Some?
  }

  datatype Directory = Directory(name: string, attempts: seq<CsvAttempt>)

  function DirectoryOf(c: CaseResult): Directory { Directory(DirectoryName(c), c.attempts) }

  method LoadFromAttempts(directories: seq<Directory>, float: Float) returns (rows: seq<PlotRow>)
    ensures rows == Gather(DirectoryRow(float), directories)
  {
    rows := [];
    for d := 0 to |directories|
      invariant rows == Gather(DirectoryRow(float), directories[..d])
    {
      var successes: seq<CsvAttempt> := [];
      var attempts := directories[d].attempts;
      for k := 0 to |attempts|
        invariant successes == Gather(Selected(float), attempts[..k])
        invariant forall a <- successes :: Plotted(a, float)
      {
        if Plotted(attempts[k], float) {
          successes := successes + [attempts[k]];
        }
        GatherSnoc(Selected(float), attempts, k + 1);
      }
      assert attempts[..|attempts|] == attempts;
      GatherSnoc(DirectoryRow(float), directories, d + 1);
      if successes != [] {
        var values := Values(successes, float);
        rows := rows + [PlotRow(AfterUnderscore(directories[d].name), successes[0].kexGroup, successes[0].certSigAlg, Mean(values))];
      }
    }
    assert directories[..|directories|] == directories;
  }

  function Selected(float: Float): CsvAttempt -> seq<CsvAttempt> {
    (a: CsvAttempt) => if Plotted(a, float) then [a] else []
  }

  function Values(successes: seq<CsvAttempt>, float: Float): seq<real> {
    seq(|successes|, k requires 0 <= k < |successes| =>
      match float(successes[k].tls) case Some(v) => v case None => 0.0)
  }

  function DirectoryRow(float: Float): Directory -> seq<PlotRow> {
    (d: Directory) =>
      var successes := Gather(Selected(float), d.attempts);
      if successes == [] then []
      else [PlotRow(AfterUnderscore(d.name), successes[0].kexGroup, successes[0].certSigAlg, Mean(Values(successes, float)))]
  }

  // ----- agreement -----

  lemma LeadingZero(s: string)
    requires s != ""
    ensures ReadDigits("0" + s) == ReadDigits(s)
  {
    assert ("0" + s)[..|s|] == "0" + s[..|s| - 1];
    if |s| == 1 {
      assert "0" + s[..0] == "0" && ReadDigits("0") == 10 * ReadDigits("0"[..0]) == 0;
    } else {
      LeadingZero(s[..|s| - 1]);
    }
  }

  /** The sequence number at the head of a directory name: at least three digits that read back. */
  lemma PaddedReads(n: nat)
    ensures |Padded(n)| >= 3 && ReadDigits(Padded(n)) == n
  {
    DigitsShape(n);
    if n < 10 {
      LeadingZero(Digits(n));
      LeadingZero("0" + Digits(n));
      assert "00" + Digits(n) == "0" + ("0" + Digits(n));
    } else if n < 100 {
      LeadingZero(Digits(n));
    } else {
      DigitsShape(n / 10 / 10);
      assert |Digits(n)| == |Digits(n / 10)| + 1 == |Digits(n / 10 / 10)| + 2;
    }
  }

  lemma {:induction false} PaddedHasNoUnderscore(n: nat)
    ensures '_' !in Padded(n)
  {
    DigitsShape(n);
  }

  /** The directory name gives the case id back, underscores in the id included. */
  lemma CaseIdRecovered(c: CaseResult)
    ensures AfterUnderscore(DirectoryName(c)) == c.caseId
  {
    PaddedHasNoUnderscore(c.sequence);
    var name, p := DirectoryName(c), Padded(c.sequence);
    assert name[|p|..|p| + 1] == "_";
    assert OccursAt("_", name, |p|);
    var i := Find("_", name).value;
    assert name[i] == name[i..i + 1][0] == '_';
    assert forall j :: 0 <= j < |p| ==> name[j] == p[j] && p[j] in p;
  }

  lemma {:induction false} SameValues(c: CaseResult, float: Float, n: nat)
    requires n <= |c.attempts| && FileWritten(c, float) && float("") == None
    ensures
      var successes := Gather(Selected(float), c.attempts[..n]);
      && Values(successes, float) == Gather(ColumnOf(TlsHandshake), c.ledger[..n])
      && forall k :: 0 <= k < |successes| ==> successes[k].kexGroup == c.kexGroup && successes[k].certSigAlg == c.certSigAlg
  {
    if n == 0 {
    } else {
      SameValues(c, float, n - 1);
      GatherSnoc(Selected(float), c.attempts, n);
      GatherSnoc(ColumnOf(TlsHandshake), c.ledger, n);
      var before := Gather(Selected(float), c.attempts[..n - 1]);
      var row, a := c.attempts[n - 1], c.ledger[n - 1];
      assert Written(row, a, c, float);
      if Plotted(row, float) {
        assert Values(before + [row], float) == Values(before, float) + [float(row.tls).value];
      }
    }
  }

  /** One case: what the fallback reads from its file is what the summary of its ledger says. */
  lemma SameRow(c: CaseResult, float: Float)
    requires FileWritten(c, float) && float("") == None
    ensures DirectoryRow(float)(DirectoryOf(c)) == SummaryRow(c)
  {
    CaseIdRecovered(c);
    SameValues(c, float, |c.attempts|);
    assert c.attempts[..|c.attempts|] == c.attempts && c.ledger[..|c.ledger|] == c.ledger;
  }

  lemma SameRows(cases: seq<CaseResult>, float: Float)
    requires float("") == None && forall c <- cases :: FileWritten(c, float)
    ensures Gather(DirectoryRow(float), Map(DirectoryOf, cases)) == Gather(SummaryRow, cases)
  {
    var directories := Map(DirectoryOf, cases);
    forall k | 0 <= k < |cases| ensures DirectoryRow(float)(directories[k]) == SummaryRow(cases[k]) {
      SameRow(cases[k], float);
    }
    GatherAlike(DirectoryRow(float), directories, SummaryRow, cases);
  }

  /** Whatever order the directories are listed in, the fallback yields the rows of the summaries. */
  lemma FallbackAgrees(cases: seq<CaseResult>, directories: seq<Directory>, float: Float)
    requires float("") == None && forall c <- cases :: FileWritten(c, float)
    requires multiset(directories) == multiset(Map(DirectoryOf, cases))
    ensures multiset(Gather(DirectoryRow(float), directories)) == multiset(Gather(SummaryRow, cases))
  {
    SameRows(cases, float);
    GatherPermutes(DirectoryRow(float), directories, Map(DirectoryOf, cases));
  }

  /** The results of a run: each case's ledger is the one its schedule left. */
  predicate FromRun(cases: seq<CaseResult>, jobs: seq<Job>, outcomes: seq<Outcome>)
    requires |jobs| == |outcomes|
  {
    forall k :: 0 <= k < |cases| ==> cases[k].ledger == LedgerOf(cases[k].sequence, jobs, outcomes, |jobs|)
  }

  predicate SameCase(c: CaseResult, d: CaseResult) {
    c.sequence == d.sequence && c.caseId == d.caseId && c.kexGroup == d.kexGroup && c.certSigAlg == d.certSigAlg
  }

  /** Two runs of the same plans under different shuffles draw the same plot: if an outcome depends
      only on its job, the fallback reads the same rows from both run directories. */
  lemma ShuffledRunsPlotAlike(plans: seq<CasePlan>, sessionsPerCase: int, outcome: Job -> Outcome, float: Float,
                              jobs: seq<Job>, outcomes: seq<Outcome>, cases: seq<CaseResult>,
                              jobs': seq<Job>, outcomes': seq<Outcome>, cases': seq<CaseResult>)
    requires Schedules(jobs, plans, sessionsPerCase) && DependsOnJobOnly(jobs, outcomes, outcome)
    requires Schedules(jobs', plans, sessionsPerCase) && DependsOnJobOnly(jobs', outcomes', outcome)
    requires FromRun(cases, jobs, outcomes) && FromRun(cases', jobs', outcomes')
    requires |cases| == |cases'| && forall k :: 0 <= k < |cases| ==> SameCase(cases[k], cases'[k])
    requires float("") == None
    requires (forall c <- cases :: FileWritten(c, float)) && (forall c <- cases' :: FileWritten(c, float))
    ensures Gather(DirectoryRow(float), Map(DirectoryOf, cases)) == Gather(DirectoryRow(float), Map(DirectoryOf, cases'))
  {
    SameRows(cases, float);
    SameRows(cases', float);
    forall k | 0 <= k < |cases| ensures Summarize(cases[k].ledger) == Summarize(cases'[k].ledger) {
      ShuffleDoesNotShow(cases[k].sequence, plans, sessionsPerCase, outcome, jobs, outcomes, jobs', outcomes');
    }
    GatherAlike(SummaryRow, cases, SummaryRow, cases');
  }
}
