/** Per-case aggregation of attempt rows (benchmarking/run_benchmarks.py, summarize). */
module Summary {
  import opened Sequences
  import opened Ledger

  datatype Verdict = AllSucceeded | Partial | Failed | NotSupported

  /** Aggregates of one numeric column; `variance` is the square of the reported deviation. */
  datatype Stats =
    | NoValues
    | Stats(count: nat, mean: real, median: real, p95: real, min: real, max: real, variance: real, perSecond: real)

  datatype CaseSummary = CaseSummary(
    verdict: Verdict, successes: nat, failures: nat, timeouts: nat, stats: map<Field, Stats>)

  predicate Measured(a: Attempt) { a.warmup != 1 }

  function RowsWith(status: Status): Attempt -> seq<Attempt> {
    (a: Attempt) => if Measured(a) && a.status == status then [Content(a)] else []
  }

  function ColumnOf(f: Field): Attempt -> seq<real> {
    (a: Attempt) => if Measured(a) && a.status == Success && f in a.fields then [a.fields[f]] else []
  }

  function Mean(values: seq<real>): real
    requires values != []
  {
    Sum(values) / |values| as real
  }

  function Median(values: seq<real>): real
    requires values != []
  {
    var ordered := Sort(values);
    var n := |values|;
    if n % 2 == 1 then ordered[n / 2] else (ordered[n / 2 - 1] + ordered[n / 2]) / 2.0
  }

  /** Position floor(0.95 * (n - 1)) of the ordered values. */
  function P95(values: seq<real>): real
    requires values != []
  {
    var ordered := Sort(values);
    ordered[19 * (|values| - 1) / 20]
  }

  function MinOf(values: seq<real>): (r: real)
    requires values != []
    ensures r in values && forall v <- values :: r <= v
  {
    assert values == [values[0]] + values[1..];
    if |values| == 1 then values[0]
    else var rest := MinOf(values[1..]); if values[0] <= rest then values[0] else rest
  }

  function MaxOf(values: seq<real>): (r: real)
    requires values != []
    ensures r in values && forall v <- values :: v <= r
  {
    assert values == [values[0]] + values[1..];
    if |values| == 1 then values[0]
    else var rest := MaxOf(values[1..]); if values[0] >= rest then values[0] else rest
  }

  function SquaredFrom(mean: real): real -> seq<real> {
    (v: real) => [(v - mean) * (v - mean)]
  }

  function StatsOf(values: seq<real>): Stats {
    if values == [] then NoValues
    else
      var mean := Mean(values);
      Stats(|values|, mean, Median(values), P95(values), MinOf(values), MaxOf(values),
            Variance(values, mean), PerSecond(mean))
  }

  function Variance(values: seq<real>, mean: real): real {
    if |values| > 1 then Sum(Gather(SquaredFrom(mean), values)) / (|values| - 1) as real else 0.0
  }

  function PerSecond(mean: real): real { if mean != 0.0 then 1000.0 / mean else 0.0 }

  function VerdictOf(successes: nat, failures: nat, timeouts: nat, unsupported: nat): Verdict {
    if unsupported > 0 && successes == 0 then NotSupported
    else if successes > 0 && failures == 0 && timeouts == 0 then AllSucceeded
    else if successes > 0 then Partial
    else Failed
  }

  const SUMMARISED: set<Field> :=
    {TlsHandshake, RawHandshake, FullConnect, CpuMs, CpuPctX100, WolfsslPeak, WolfsslFailures, HeapCurrent, HeapPeak}

  function Summarize(attempts: seq<Attempt>): CaseSummary {
    var successes := |Gather(RowsWith(Success), attempts)|;
    var timeouts := |Gather(RowsWith(Timeout), attempts)|;
    var failures := |Gather(RowsWith(Error), attempts)|;
    var unsupported := |Gather(RowsWith(Unsupported), attempts)|;
    CaseSummary(VerdictOf(successes, failures, timeouts, unsupported), successes, failures, timeouts,
                Columns(attempts))
  }

  /** What of a row a summary can depend on. */
  function Content(a: Attempt): Attempt { a.(index := 0, message := "") }

  lemma ExtremesPermute(xs: seq<real>, ys: seq<real>)
    requires xs != [] && ys != [] && multiset(xs) == multiset(ys)
    ensures MinOf(xs) == MinOf(ys) && MaxOf(xs) == MaxOf(ys)
  {
    assert MinOf(xs) in multiset(xs) && MinOf(ys) in multiset(ys);
    assert MinOf(xs) in ys && MinOf(ys) in xs;
    assert MaxOf(xs) in multiset(xs) && MaxOf(ys) in multiset(ys);
    assert MaxOf(xs) in ys && MaxOf(ys) in xs;
  }

  lemma CentresPermute(xs: seq<real>, ys: seq<real>)
    requires xs != [] && ys != [] && multiset(xs) == multiset(ys)
    ensures Mean(xs) == Mean(ys) && Median(xs) == Median(ys) && P95(xs) == P95(ys)
  {
    SameLength(xs, ys);
    SumPermutes(xs, ys);
    SortPermutes(xs, ys);
  }

  lemma SquaresPermute(xs: seq<real>, ys: seq<real>, mean: real)
    requires multiset(xs) == multiset(ys)
    ensures Sum(Gather(SquaredFrom(mean), xs)) == Sum(Gather(SquaredFrom(mean), ys))
  {
    GatherPermutes(SquaredFrom(mean), xs, ys);
    SumPermutes(Gather(SquaredFrom(mean), xs), Gather(SquaredFrom(mean), ys));
  }

  lemma StatsPermute(xs: seq<real>, ys: seq<real>)
    requires multiset(xs) == multiset(ys)
    ensures StatsOf(xs) == StatsOf(ys)
  {
    SameLength(xs, ys);
    if xs != [] {
      ExtremesPermute(xs, ys);
      CentresPermute(xs, ys);
      SquaresPermute(xs, ys, Mean(xs));
    }
  }

  lemma CountPermutes(status: Status, xs: seq<Attempt>, ys: seq<Attempt>)
    requires multiset(Map(Content, xs)) == multiset(Map(Content, ys))
    ensures |Gather(RowsWith(status), xs)| == |Gather(RowsWith(status), ys)|
  {
    var f := RowsWith(status);
    GatherThrough(f, Content, xs);
    GatherThrough(f, Content, ys);
    GatherPermutes(f, Map(Content, xs), Map(Content, ys));
    SameLength(Gather(f, xs), Gather(f, ys));
  }

  lemma ColumnPermutes(f: Field, xs: seq<Attempt>, ys: seq<Attempt>)
    requires multiset(Map(Content, xs)) == multiset(Map(Content, ys))
    ensures StatsOf(Gather(ColumnOf(f), xs)) == StatsOf(Gather(ColumnOf(f), ys))
  {
    GatherThrough(ColumnOf(f), Content, xs);
    GatherThrough(ColumnOf(f), Content, ys);
    GatherPermutes(ColumnOf(f), Map(Content, xs), Map(Content, ys));
    StatsPermute(Gather(ColumnOf(f), xs), Gather(ColumnOf(f), ys));
  }

  function Columns(attempts: seq<Attempt>): map<Field, Stats> {
    map f | f in SUMMARISED :: StatsOf(Gather(ColumnOf(f), attempts))
  }

  lemma ColumnsPermute(xs: seq<Attempt>, ys: seq<Attempt>)
    requires multiset(Map(Content, xs)) == multiset(Map(Content, ys))
    ensures Columns(xs) == Columns(ys)
  {
    forall f | f in SUMMARISED ensures StatsOf(Gather(ColumnOf(f), xs)) == StatsOf(Gather(ColumnOf(f), ys)) {
      ColumnPermutes(f, xs, ys);
    }
  }

  /** Every figure of a summary is a function of the multiset of row contents: neither the order
      of the rows, nor their indices, nor their messages matter. */
  lemma SummaryOfContents(xs: seq<Attempt>, ys: seq<Attempt>)
    requires multiset(Map(Content, xs)) == multiset(Map(Content, ys))
    ensures Summarize(xs) == Summarize(ys)
  {
    CountPermutes(Success, xs, ys);
    CountPermutes(Timeout, xs, ys);
    CountPermutes(Error, xs, ys);
    CountPermutes(Unsupported, xs, ys);
    ColumnsPermute(xs, ys);
  }

  // ----- what the figures mean -----

  function Below(x: real): real -> seq<real> { (v: real) => if v < x then [v] else [] }

  function AtMost(x: real): real -> seq<real> { (v: real) => if v <= x then [v] else [] }

  lemma {:induction false} CountBelow(x: real, xs: seq<real>)
    ensures |Gather(Below(x), xs)| <= |xs|
    ensures (forall i :: 0 <= i < |xs| ==> x <= xs[i]) ==> Gather(Below(x), xs) == []
  {
    if xs == [] {
    } else {
      CountBelow(x, xs[1..]);
    }
  }

  lemma {:induction false} CountAtMost(x: real, xs: seq<real>)
    requires forall i :: 0 <= i < |xs| ==> xs[i] <= x
    ensures |Gather(AtMost(x), xs)| == |xs|
  {
    if xs == [] {
    } else {
      CountAtMost(x, xs[1..]);
    }
  }

  /** `x` stands at position `k` when the values are put in order: at most `k` values are smaller
      and at least `k + 1` are no larger. */
  predicate HasRank(values: seq<real>, x: real, k: nat) {
    |Gather(Below(x), values)| <= k < |Gather(AtMost(x), values)|
  }

  lemma FewBelow(ordered: seq<real>, k: nat)
    requires IsSorted(ordered) && k < |ordered|
    ensures |Gather(Below(ordered[k]), ordered)| <= k
  {
    assert ordered == ordered[..k] + ordered[k..];
    GatherAppend(Below(ordered[k]), ordered[..k], ordered[k..]);
    CountBelow(ordered[k], ordered[..k]);
    CountBelow(ordered[k], ordered[k..]);
  }

  lemma EnoughAtMost(ordered: seq<real>, k: nat)
    requires IsSorted(ordered) && k < |ordered|
    ensures k < |Gather(AtMost(ordered[k]), ordered)|
  {
    assert ordered == ordered[..k + 1] + ordered[k + 1..];
    GatherAppend(AtMost(ordered[k]), ordered[..k + 1], ordered[k + 1..]);
    CountAtMost(ordered[k], ordered[..k + 1]);
  }

  lemma RankPermutes(xs: seq<real>, ys: seq<real>, x: real, k: nat)
    requires multiset(xs) == multiset(ys) && HasRank(xs, x, k)
    ensures HasRank(ys, x, k)
  {
    GatherPermutes(Below(x), xs, ys);
    GatherPermutes(AtMost(x), xs, ys);
    SameLength(Gather(Below(x), xs), Gather(Below(x), ys));
    SameLength(Gather(AtMost(x), xs), Gather(AtMost(x), ys));
  }

  lemma RankOfOrdered(values: seq<real>, k: nat)
    requires k < |values|
    ensures HasRank(values, Sort(values)[k], k)
  {
    SortShape(values);
    FewBelow(Sort(values), k);
    EnoughAtMost(Sort(values), k);
    RankPermutes(Sort(values), values, Sort(values)[k], k);
  }

  /** p95 is the value of rank floor(0.95 * (n - 1)), counted without sorting. */
  lemma P95IsOrderStatistic(values: seq<real>)
    requires values != []
    ensures
      var k := 19 * (|values| - 1) / 20;
      20 * k <= 19 * (|values| - 1) < 20 * (k + 1) && HasRank(values, P95(values), k)
  {
    RankOfOrdered(values, 19 * (|values| - 1) / 20);
  }

  predicate AreCentral(values: seq<real>, low: real, high: real) {
    && |values| >= 2 && low <= high
    && HasRank(values, low, |values| / 2 - 1) && HasRank(values, high, |values| / 2)
  }

  /** The median of an odd number of values has the central rank; of an even number it is midway
      between the two central ranks. */
  lemma MedianIsCentral(values: seq<real>)
    requires values != []
    ensures |values| % 2 == 1 ==> HasRank(values, Median(values), |values| / 2)
    ensures |values| % 2 == 0 ==> exists low, high :: AreCentral(values, low, high) && Median(values) == (low + high) / 2.0
  {
    var n := |values|;
    RankOfOrdered(values, n / 2);
    if n % 2 == 0 {
      RankOfOrdered(values, n / 2 - 1);
      SortShape(values);
      assert AreCentral(values, Sort(values)[n / 2 - 1], Sort(values)[n / 2]);
    }
  }

  function MeasuredRows(attempts: seq<Attempt>): nat {
    if attempts == [] then 0 else (if Measured(attempts[0]) then 1 else 0) + MeasuredRows(attempts[1..])
  }

  /** Every measured row is counted under exactly one status, and no warm-up is counted. */
  lemma {:induction false} EveryMeasuredRowCounted(attempts: seq<Attempt>)
    ensures MeasuredRows(attempts)
         == |Gather(RowsWith(Success), attempts)| + |Gather(RowsWith(Timeout), attempts)|
          + |Gather(RowsWith(Error), attempts)| + |Gather(RowsWith(Unsupported), attempts)|
  {
    if attempts == [] {
    } else {
      EveryMeasuredRowCounted(attempts[1..]);
    }
  }

  ghost predicate HasMeasured(attempts: seq<Attempt>, status: Status) {
    exists a <- attempts :: Measured(a) && a.status == status
  }

  lemma {:induction false} CountedIfPresent(attempts: seq<Attempt>, status: Status)
    ensures |Gather(RowsWith(status), attempts)| > 0 <==> HasMeasured(attempts, status)
  {
    if attempts == [] {
    } else {
      CountedIfPresent(attempts[1..], status);
      assert attempts == [attempts[0]] + attempts[1..];
    }
  }

  /** The verdict by what the measured rows hold: all succeeded, some did, none did but something
      was unsupported, or none did. */
  lemma VerdictMeans(attempts: seq<Attempt>)
    ensures
      var clean := !HasMeasured(attempts, Error) && !HasMeasured(attempts, Timeout);
      var verdict := Summarize(attempts).verdict;
      && (verdict == AllSucceeded <==> HasMeasured(attempts, Success) && clean)
      && (verdict == Partial <==> HasMeasured(attempts, Success) && !clean)
      && (verdict == NotSupported <==> !HasMeasured(attempts, Success) && HasMeasured(attempts, Unsupported))
      && (verdict == Failed <==> !HasMeasured(attempts, Success) && !HasMeasured(attempts, Unsupported))
  {
    CountedIfPresent(attempts, Success);
    CountedIfPresent(attempts, Error);
    CountedIfPresent(attempts, Timeout);
    CountedIfPresent(attempts, Unsupported);
  }

  predicate Within(values: seq<real>, low: real, high: real) { forall k :: 0 <= k < |values| ==> low <= values[k] <= high }

  lemma {:induction false} SumWithin(values: seq<real>, low: real, high: real)
    requires Within(values, low, high)
    ensures low * |values| as real <= Sum(values) <= high * |values| as real
  {
    if values == [] {
    } else {
      SumWithin(values[1..], low, high);
      assert |values| as real == 1.0 + |values[1..]| as real;
    }
  }

  lemma Quotient(sum: real, n: real, low: real, high: real)
    requires n > 0.0 && low * n <= sum <= high * n
    ensures low <= sum / n <= high
  {}

  /** The mean lies between the extremes. */
  lemma MeanWithin(values: seq<real>, low: real, high: real)
    requires values != [] && Within(values, low, high)
    ensures low <= Mean(values) <= high
  {
    SumWithin(values, low, high);
    Quotient(Sum(values), |values| as real, low, high);
  }

  function DeviationFrom(centre: real): real -> real { (v: real) => v - centre }

  function SquareFrom(centre: real): real -> real { (v: real) => (v - centre) * (v - centre) }

  lemma {:induction false} SumOfDeviations(values: seq<real>, centre: real)
    ensures Sum(Map(DeviationFrom(centre), values)) == Sum(values) - centre * |values| as real
  {
    if values == [] {
    } else {
      var deviations := Map(DeviationFrom(centre), values);
      SumOfDeviations(values[1..], centre);
      assert deviations[1..] == Map(DeviationFrom(centre), values[1..]);
      assert |values| as real == 1.0 + |values[1..]| as real;
    }
  }

  lemma {:induction false} GatheredSquares(values: seq<real>, centre: real)
    ensures Gather(SquaredFrom(centre), values) == Map(SquareFrom(centre), values)
  {
    if values == [] {
    } else {
      GatheredSquares(values[1..], centre);
      var squares := Map(SquareFrom(centre), values);
      assert squares == [SquareFrom(centre)(values[0])] + Map(SquareFrom(centre), values[1..]);
    }
  }

  lemma QuotientTimes(a: real, b: real)
    requires b != 0.0
    ensures a / b * b == a
  {}

  /** The deviations from `mean` cancel. */
  predicate Balances(values: seq<real>, mean: real) { Sum(Map(DeviationFrom(mean), values)) == 0.0 }

  /** `variance` spreads the squared deviations over one fewer than the values. */
  predicate Spreads(values: seq<real>, mean: real, variance: real) {
    if |values| > 1 then variance * (|values| - 1) as real == Sum(Map(SquareFrom(mean), values)) else variance == 0.0
  }

  /** `rate` of events of `mean` milliseconds fill a second. */
  predicate FillsASecond(mean: real, rate: real) { if mean == 0.0 then rate == 0.0 else rate * mean == 1000.0 }

  lemma DeviationsCancel(values: seq<real>)
    requires values != []
    ensures Balances(values, Mean(values))
  {
    SumOfDeviations(values, Mean(values));
    QuotientTimes(Sum(values), |values| as real);
  }

  lemma VarianceSpreads(values: seq<real>, centre: real)
    ensures Spreads(values, centre, Variance(values, centre))
  {
    GatheredSquares(values, centre);
    if |values| > 1 { QuotientTimes(Sum(Map(SquareFrom(centre), values)), (|values| - 1) as real); }
  }

  lemma RateInverts(mean: real)
    ensures FillsASecond(mean, PerSecond(mean))
  {}

  lemma ProductSign(a: real, b: real)
    requires b > 0.0
    ensures a > 0.0 ==> a * b > 0.0
    ensures a < 0.0 ==> a * b < 0.0
  {}

  /** No other number balances the values. */
  lemma BalanceIsUnique(values: seq<real>, m: real, n: real)
    requires values != [] && Balances(values, m) && Balances(values, n)
    ensures m == n
  {
    SumOfDeviations(values, m);
    SumOfDeviations(values, n);
    assert (m - n) * |values| as real == m * |values| as real - n * |values| as real == 0.0;
    ProductSign(m - n, |values| as real);
  }

  /** The aggregates of a non-empty column by what they must satisfy, which determines them. */
  lemma MomentsMean(values: seq<real>)
    requires values != []
    ensures
      var s := StatsOf(values);
      && s.Stats? && s.count == |values|
      && Balances(values, s.mean) && Spreads(values, s.mean, s.variance) && FillsASecond(s.mean, s.perSecond)
  {
    DeviationsCancel(values);
    VarianceSpreads(values, StatsOf(values).mean);
    RateInverts(StatsOf(values).mean);
  }

  /** The aggregates of a non-empty column: extremes that occur and bound every value and the mean,
      ranks by counting without sorting. */
  lemma RanksMean(values: seq<real>)
    requires values != []
    ensures
      var s := StatsOf(values);
      && s.Stats?
      && s.min in values && s.max in values && (forall v <- values :: s.min <= v <= s.max)
      && s.min <= s.mean <= s.max
      && HasRank(values, s.p95, 19 * (|values| - 1) / 20)
      && (|values| % 2 == 1 ==> HasRank(values, s.median, |values| / 2))
      && (|values| % 2 == 0 ==> exists low, high :: AreCentral(values, low, high) && s.median == (low + high) / 2.0)
  {
    P95IsOrderStatistic(values);
    MedianIsCentral(values);
    assert forall k :: 0 <= k < |values| ==> values[k] in values;
    MeanWithin(values, MinOf(values), MaxOf(values));
  }

  /** A raising session always adds one measured failure to its case. A session that returns
      nothing adds a measured timeout only if it had no warm-ups to run: otherwise its row is
      flagged warm-up and the summary does not see it. */
  lemma LostSessionsInSummary(ledger: seq<Attempt>, job: Job, message: string, fate: BoardFate)
    ensures
      var was, silent, raised := Summarize(ledger),
        Summarize(ledger + Contribution(job, Returned([]), |ledger| + 1)),
        Summarize(ledger + Contribution(job, Raised(message, fate), |ledger| + 1));
      && silent.timeouts == was.timeouts + (if job.batch.warmups > 0 then 0 else 1)
      && silent.failures == was.failures && silent.successes == was.successes
      && raised.failures == was.failures + 1
      && raised.timeouts == was.timeouts && raised.successes == was.successes
  {
    var timeout := Contribution(job, Returned([]), |ledger| + 1);
    var error := Contribution(job, Raised(message, fate), |ledger| + 1);
    assert timeout == [timeout[0]] && timeout[0].status == Timeout
        && timeout[0].warmup == if job.batch.warmups > 0 then 1 else 0;
    assert error == [error[0]] && error[0].status == Error && error[0].warmup == 0;
    OneMoreRow(ledger, timeout[0]);
    OneMoreRow(ledger, error[0]);
  }

  /** What one more row adds to the counts of a summary: nothing if it is a warm-up. */
  lemma OneMoreRow(ledger: seq<Attempt>, a: Attempt)
    ensures
      var was, now := Summarize(ledger), Summarize(ledger + [a]);
      && now.successes == was.successes + (if a.warmup != 1 && a.status == Success then 1 else 0)
      && now.failures == was.failures + (if a.warmup != 1 && a.status == Error then 1 else 0)
      && now.timeouts == was.timeouts + (if a.warmup != 1 && a.status == Timeout then 1 else 0)
  {
    GatherLast(RowsWith(Success), ledger, a);
    GatherLast(RowsWith(Error), ledger, a);
    GatherLast(RowsWith(Timeout), ledger, a);
  }

  /** The values of a column: those of the successful rows that are no warm-ups and have one. */
  function MeasuredValues(attempts: seq<Attempt>, f: Field): seq<real> {
    if attempts == [] then []
    else
      var last := attempts[|attempts| - 1];
      MeasuredValues(attempts[..|attempts| - 1], f)
        + if last.warmup != 1 && last.status == Success && f in last.fields then [last.fields[f]] else []
  }

  lemma {:induction false} ColumnValues(attempts: seq<Attempt>, f: Field)
    ensures Gather(ColumnOf(f), attempts) == MeasuredValues(attempts, f)
  {
    if attempts == [] {
    } else {
      ColumnValues(attempts[..|attempts| - 1], f);
      GatherSnoc(ColumnOf(f), attempts, |attempts|);
      assert attempts[..|attempts|] == attempts;
    }
  }

  /** Every summarised column aggregates exactly its measured values. */
  lemma SummarizesColumns(attempts: seq<Attempt>)
    ensures forall f :: f in {TlsHandshake, RawHandshake, FullConnect, CpuMs, CpuPctX100, WolfsslPeak, WolfsslFailures,
                              HeapCurrent, HeapPeak} ==>
      f in Summarize(attempts).stats && Summarize(attempts).stats[f] == StatsOf(MeasuredValues(attempts, f))
    ensures forall f :: MeasuredValues(attempts, f) == [] <==> StatsOf(MeasuredValues(attempts, f)) == NoValues
  {
    forall f ensures Gather(ColumnOf(f), attempts) == MeasuredValues(attempts, f) { ColumnValues(attempts, f); }
  }

  lemma GatherLast(f: Attempt -> seq<Attempt>, ledger: seq<Attempt>, a: Attempt)
    ensures Gather(f, ledger + [a]) == Gather(f, ledger) + f(a)
  {
    var longer := ledger + [a];
    GatherSnoc(f, longer, |longer|);
    assert longer[..|longer|] == longer && longer[..|longer| - 1] == ledger;
  }
}
