/** How one case's warm-up and measured attempts are cut into sessions
    (benchmarking/run_benchmarks.py, attempt_batches). */
module SessionPlan {
  import opened Numbers
  import opened Sequences

  datatype Batch = Batch(warmups: int, iterations: int) {
    function Size(): int { warmups + iterations }
  }

  predicate IsSplit(warmups: int, iterations: int, limit: int) {
    limit > 0 && warmups + iterations > limit
  }

  function BatchAt(warmups: int, total: int, limit: int, consumed: int): Batch {
    var size := Min(limit, total - consumed);
    var batchWarmups := Max(0, Min(warmups - consumed, size));
    Batch(batchWarmups, size - batchWarmups)
  }

  function SplitFrom(warmups: int, total: int, limit: int, consumed: int): seq<Batch>
    requires limit > 0
    decreases total - consumed
  {
    if consumed >= total then []
    else
      [BatchAt(warmups, total, limit, consumed)] +
      SplitFrom(warmups, total, limit, consumed + Min(limit, total - consumed))
  }

  /** The plan: one session, or as many sessions of at most `limit` attempts as it takes. */
  function Batches(warmups: int, iterations: int, limit: int): seq<Batch> {
    if !IsSplit(warmups, iterations, limit) then [Batch(warmups, iterations)]
    else SplitFrom(warmups, warmups + iterations, limit, 0)
  }

  method AttemptBatches(warmups: int, iterations: int, limit: int) returns (batches: seq<Batch>)
    ensures batches == Batches(warmups, iterations, limit)
  {
    var total := warmups + iterations;
    if limit <= 0 || total <= limit {
      return [Batch(warmups, iterations)];
    }
    batches := [];
    var consumed := 0;
    while consumed < total
      invariant batches + SplitFrom(warmups, total, limit, consumed) == SplitFrom(warmups, total, limit, 0)
    {
      var size := Min(limit, total - consumed);
      var batchWarmups := Max(0, Min(warmups - consumed, size));
      var batchIterations := size - batchWarmups;
      batches := batches + [Batch(batchWarmups, batchIterations)];
      consumed := consumed + size;
    }
  }

  /** The warm-up flags of `size` consecutive attempts of which the first `warmups` are warm-ups. */
  function Labels(warmups: int, size: int): seq<int> {
    seq(Max(0, size), k => if k < warmups then 1 else 0)
  }

  function LabelsOfBatch(): Batch -> seq<int> {
    (b: Batch) => Labels(b.warmups, b.Size())
  }

  lemma {:induction false} SplitLabels(warmups: int, total: int, limit: int, consumed: int)
    requires limit > 0 && 0 <= consumed <= total
    ensures Gather(LabelsOfBatch(), SplitFrom(warmups, total, limit, consumed)) == Labels(warmups, total)[consumed..]
    decreases total - consumed
  {
    if consumed >= total {
    } else {
      var size := Min(limit, total - consumed);
      var b := BatchAt(warmups, total, limit, consumed);
      SplitLabels(warmups, total, limit, consumed + size);
      assert Labels(b.warmups, size) == Labels(warmups, total)[consumed..consumed + size];
    }
  }

  /** Cutting a case into sessions changes no flag: the sessions' flags, one session after
      another, are the flags of the uncut case. Holds for every limit and sign of the counts. */
  lemma BatchesKeepLabels(warmups: int, iterations: int, limit: int)
    ensures Gather(LabelsOfBatch(), Batches(warmups, iterations, limit)) == Labels(warmups, warmups + iterations)
  {
    var total := warmups + iterations;
    if IsSplit(warmups, iterations, limit) {
      SplitLabels(warmups, total, limit, 0);
    } else {
      var plan := Batches(warmups, iterations, limit);
      assert plan == [plan[0]] && plan[1..] == [];
    }
  }

  function WarmupTotal(batches: seq<Batch>): int {
    if batches == [] then 0 else batches[0].warmups + WarmupTotal(batches[1..])
  }

  function IterationTotal(batches: seq<Batch>): int {
    if batches == [] then 0 else batches[0].iterations + IterationTotal(batches[1..])
  }

  lemma {:induction false} SplitTotals(warmups: int, total: int, limit: int, consumed: int)
    requires limit > 0 && 0 <= consumed <= total
    ensures
      var batches := SplitFrom(warmups, total, limit, consumed);
      var left := Max(0, Min(warmups - consumed, total - consumed));
      WarmupTotal(batches) == left && IterationTotal(batches) == total - consumed - left
    decreases total - consumed
  {
    if consumed >= total {
    } else {
      SplitTotals(warmups, total, limit, consumed + Min(limit, total - consumed));
    }
  }

  /** The sessions ask for exactly what the case asks for, unless a split meets a negative count. */
  lemma BatchesConserve(warmups: int, iterations: int, limit: int)
    ensures
      var batches := Batches(warmups, iterations, limit);
      (WarmupTotal(batches) == warmups && IterationTotal(batches) == iterations) <==>
      (limit > 0 && warmups + iterations > limit ==> warmups >= 0 && iterations >= 0)
  {
    if IsSplit(warmups, iterations, limit) {
      SplitTotals(warmups, warmups + iterations, limit, 0);
    } else {
      var plan := Batches(warmups, iterations, limit);
      assert plan[1..] == [];
      assert WarmupTotal(plan) == plan[0].warmups + WarmupTotal([]);
      assert IterationTotal(plan) == plan[0].iterations + IterationTotal([]);
    }
  }

  /** Every session is non-empty and within the limit, all but the last are full, and no measured
      attempt comes before a warm-up. */
  predicate FillsLimit(batches: seq<Batch>, limit: int) {
    && (forall k :: 0 <= k < |batches| ==> 0 < batches[k].Size() <= limit)
    && (forall k :: 0 <= k < |batches| - 1 ==> batches[k].Size() == limit)
    && (forall j, k :: 0 <= j < k < |batches| && batches[j].iterations > 0 ==> batches[k].warmups == 0)
  }

  predicate WarmupsWithin(batches: seq<Batch>, most: int) {
    forall k :: 0 <= k < |batches| ==> 0 <= batches[k].warmups <= most
  }

  lemma FillsLimitCons(b: Batch, rest: seq<Batch>, limit: int, most: int)
    requires FillsLimit(rest, limit) && WarmupsWithin(rest, most)
    requires 0 < b.Size() <= limit && (rest != [] ==> b.Size() == limit)
    requires b.iterations > 0 ==> most == 0
    ensures FillsLimit([b] + rest, limit)
  {
    var batches := [b] + rest;
    assert forall k :: 1 <= k < |batches| ==> batches[k] == rest[k - 1];
  }

  lemma {:induction false} SplitWarmups(warmups: int, total: int, limit: int, consumed: int)
    requires limit > 0
    ensures WarmupsWithin(SplitFrom(warmups, total, limit, consumed), Max(0, warmups - consumed))
    decreases total - consumed
  {
    if consumed >= total {
    } else {
      var next := consumed + Min(limit, total - consumed);
      SplitWarmups(warmups, total, limit, next);
      assert 0 <= BatchAt(warmups, total, limit, consumed).warmups <= Max(0, warmups - consumed);
    }
  }

  lemma {:induction false} SplitSizes(warmups: int, total: int, limit: int, consumed: int)
    requires limit > 0
    ensures FillsLimit(SplitFrom(warmups, total, limit, consumed), limit)
    decreases total - consumed
  {
    if consumed >= total {
    } else {
      var next := consumed + Min(limit, total - consumed);
      var b, rest := BatchAt(warmups, total, limit, consumed), SplitFrom(warmups, total, limit, next);
      SplitSizes(warmups, total, limit, next);
      SplitWarmups(warmups, total, limit, next);
      assert b.Size() == next - consumed;
      FillsLimitCons(b, rest, limit, Max(0, warmups - next));
    }
  }

  /** A case beyond a positive limit is cut into sessions that fill it; any other is left whole. */
  lemma BatchesFillTheLimit(warmups: int, iterations: int, limit: int)
    ensures limit > 0 && warmups + iterations > limit ==> FillsLimit(Batches(warmups, iterations, limit), limit)
    ensures limit <= 0 || warmups + iterations <= limit ==> Batches(warmups, iterations, limit) == [Batch(warmups, iterations)]
  {
    if IsSplit(warmups, iterations, limit) { SplitSizes(warmups, warmups + iterations, limit, 0); }
  }
}
