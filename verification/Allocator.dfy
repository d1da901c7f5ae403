/** The header-tagged wolfSSL allocator and its accounting
    (benchmarking/firmware/src/main.c, XMALLOC, XFREE, XREALLOC, reset_attempt_resource_stats;
    the same allocator is in firmware/src/main.c). */
module Allocator {
  import opened Numbers

  /** Requests whose size plus header still fits a 32-bit size_t. */
  type Request = x: int | 0 <= x <= 0xFFFF_FFF7

  datatype Block = Block(data: seq<Byte>)

  function Filled(n: nat, bytes: nat -> Byte): (b: Block)
    ensures |b.data| == n && forall k: nat :: k < n ==> b.data[k] == bytes(k)
  {
    Block(seq<Byte>(n, (k: nat) => bytes(k)))
  }

  type Heap = map<nat, Block>

  const NULL: nat := 0

  /** Bytes in live blocks. */
  ghost function Total(heap: Heap): nat {
    if heap == map[] then 0
    else
      var p :| p in heap;
      |heap[p].data| + Total(heap - {p})
  }

  lemma {:induction false} TotalRemove(heap: Heap, p: nat)
    requires p in heap
    ensures Total(heap) == |heap[p].data| + Total(heap - {p})
    decreases |heap|
  {
    var q :| q in heap && Total(heap) == |heap[q].data| + Total(heap - {q});
    if q == p {
    } else {
      TotalRemove(heap - {q}, p);
      TotalRemove(heap - {p}, q);
      assert heap - {q} - {p} == heap - {p} - {q};
    }
  }

  lemma TotalInsert(heap: Heap, p: nat, b: Block)
    requires p !in heap
    ensures Total(heap[p := b]) == Total(heap) + |b.data|
  {
    TotalRemove(heap[p := b], p);
    assert heap[p := b] - {p} == heap;
  }

  /** Same pointers, same sizes: the same total, whatever the bytes. */
  lemma TotalOverwrite(heap: Heap, p: nat, b: Block)
    requires p in heap && |b.data| == |heap[p].data|
    ensures Total(heap[p := b]) == Total(heap)
  {
    TotalRemove(heap, p);
    TotalRemove(heap[p := b], p);
    assert heap[p := b] - {p} == heap - {p};
  }

  ghost function Peak(levels: seq<nat>): nat
    requires levels != []
  {
    if |levels| == 1 then levels[0] else Max(Peak(levels[..|levels| - 1]), levels[|levels| - 1])
  }

  lemma {:induction false} PeakIsMaximum(levels: seq<nat>)
    requires levels != []
    ensures Peak(levels) in levels && forall l <- levels :: l <= Peak(levels)
  {
    if |levels| == 1 {
    } else {
      PeakIsMaximum(levels[..|levels| - 1]);
      assert levels == levels[..|levels| - 1] + [levels[|levels| - 1]];
    }
  }

  lemma PeakSnoc(levels: seq<nat>, level: nat)
    requires levels != []
    ensures Peak(levels + [level]) == Max(Peak(levels), level)
  {
    assert (levels + [level])[..|levels|] == levels;
  }

  lemma PeakCovers(earlier: seq<nat>, later: seq<nat>)
    requires earlier != [] && earlier <= later
    ensures Peak(earlier) <= Peak(later) && earlier[|earlier| - 1] <= Peak(later)
  {
    PeakIsMaximum(earlier);
    PeakIsMaximum(later);
    assert later[|earlier| - 1] == earlier[|earlier| - 1];
    assert forall k :: 0 <= k < |earlier| ==> later[k] == earlier[k];
  }

  /** `after` has length `n` and starts with as much of `before` as fits. */
  predicate KeepsPrefix(before: seq<Byte>, after: seq<Byte>, n: nat) {
    |after| == n && after[..Min(|before|, n)] == before[..Min(|before|, n)]
  }

  // ----- what an operation does to the heap, and the totals it passes through -----

  /** What code may do with the allocator; `granted` is what k_malloc answers. */
  datatype Op =
    | Malloc(request: Request, granted: nat, junk: nat -> Byte)
    | Free(p: nat)
    | Realloc(p: nat, request: Request, granted: nat, junk: nat -> Byte)
    | Write(p: nat, bytes: nat -> Byte)
    | Reset

  /** Only live blocks are freed, moved or written, and k_malloc grants none of them again. */
  predicate Legal(heap: Heap, op: Op) {
    match op
    case Malloc(_, granted, _) => granted !in heap
    case Free(p) => p == NULL || p in heap
    case Realloc(p, _, granted, _) => (p == NULL || p in heap) && granted !in heap
    case Write(p, _) => p in heap
    case Reset => true
  }

  /** `before` followed by junk, or cut, to length `n`. */
  function Moved(before: Block, n: nat, junk: nat -> Byte): (b: Block)
    ensures KeepsPrefix(before.data, b.data, n)
  {
    var kept := Min(|before.data|, n);
    Block(before.data[..kept] + Filled(n, junk).data[kept..])
  }

  function Granted(heap: Heap, request: Request, granted: nat, junk: nat -> Byte): Heap {
    if granted == NULL then heap else heap[granted := Filled(Max(1, request), junk)]
  }

  function Next(heap: Heap, op: Op): Heap
    requires Legal(heap, op)
  {
    match op
    case Malloc(request, granted, junk) => Granted(heap, request, granted, junk)
    case Free(p) => if p == NULL then heap else heap - {p}
    case Realloc(p, request, granted, junk) =>
      if p == NULL then Granted(heap, request, granted, junk)
      else if request == 0 then heap - {p}
      else if granted == NULL then heap
      else heap[granted := Moved(heap[p], request, junk)] - {p}
    case Write(p, bytes) => heap[p := Filled(|heap[p].data|, bytes)]
    case Reset => heap
  }

  /** Sums of live block sizes while the operation runs, old and new block together in a move. */
  ghost function Passed(heap: Heap, op: Op): seq<nat>
    requires Legal(heap, op)
  {
    match op
    case Malloc(_, granted, _) => if granted == NULL then [] else [Total(Next(heap, op))]
    case Free(p) => if p == NULL then [] else [Total(Next(heap, op))]
    case Realloc(p, request, granted, junk) =>
      if p != NULL && request == 0 then [Total(Next(heap, op))]
      else if granted == NULL then []
      else if p == NULL then [Total(Next(heap, op))]
      else [Total(heap[granted := Moved(heap[p], request, junk)]), Total(Next(heap, op))]
    case Write(_, _) => []
    case Reset => []
  }

  predicate Refused(op: Op) {
    || (op.Malloc? && op.granted == NULL)
    || (op.Realloc? && op.granted == NULL && (op.p == NULL || op.request > 0))
  }

  predicate LegalRun(heap: Heap, ops: seq<Op>)
    decreases |ops|, 0
  {
    ops == [] ||
    var before := ops[..|ops| - 1];
    LegalRun(heap, before) && Legal(HeapAfter(heap, before), ops[|ops| - 1])
  }

  function HeapAfter(heap: Heap, ops: seq<Op>): Heap
    requires LegalRun(heap, ops)
    decreases |ops|, 1
  {
    if ops == [] then heap else Next(HeapAfter(heap, ops[..|ops| - 1]), ops[|ops| - 1])
  }

  /** Sums of live block sizes since the last reset, `start` being those before the run. */
  ghost function LevelsAfter(start: seq<nat>, heap: Heap, ops: seq<Op>): (levels: seq<nat>)
    requires LegalRun(heap, ops)
    ensures start != [] ==> levels != []
  {
    if ops == [] then start
    else
      var before := ops[..|ops| - 1];
      if ops[|ops| - 1].Reset? then [Total(HeapAfter(heap, before))]
      else LevelsAfter(start, heap, before) + Passed(HeapAfter(heap, before), ops[|ops| - 1])
  }

  /** Refused requests since the last reset. */
  function FailuresAfter(start: nat, ops: seq<Op>): nat {
    if ops == [] then start
    else if ops[|ops| - 1].Reset? then 0
    else FailuresAfter(start, ops[..|ops| - 1]) + if Refused(ops[|ops| - 1]) then 1 else 0
  }

  class WolfsslHeap {
    var heap: Heap
    var inUse: nat
    var maxInUse: nat
    var failures: nat
    /** Every value `inUse` has had since the last reset of the statistics. */
    ghost var levels: seq<nat>
    /** The bytes of every block at the moment it was freed. */
    ghost var freed: seq<seq<Byte>>

    ghost predicate Valid()
      reads this
    {
      && NULL !in heap
      && inUse == Total(heap)
      && levels != [] && levels[|levels| - 1] == inUse && maxInUse == Peak(levels)
    }

    constructor ()
      ensures Valid() && heap == map[] && failures == 0
    {
      heap, inUse, maxInUse, failures := map[], 0, 0, 0;
      levels, freed := [0], [];
    }

    /** `granted` is what k_malloc returns: a pointer to no live block, or NULL; fresh memory holds junk. */
    method XMalloc(request: Request, granted: nat, junk: nat -> Byte) returns (p: nat)
      requires Valid() && granted !in heap
      modifies this
      ensures Valid() && p == granted && freed == old(freed)
      ensures p == NULL ==>
        heap == old(heap) && failures == old(failures) + 1 && levels == old(levels)
      ensures p != NULL ==>
        && heap == old(heap)[p := Filled(Max(1, request), junk)]
        && failures == old(failures) && levels == old(levels) + [old(inUse) + Max(1, request)]
        && maxInUse == Max(old(maxInUse), inUse)
    {
      var n := if request == 0 then 1 else request;
      if granted == NULL {
        failures := failures + 1;
        return NULL;
      }
      TotalInsert(heap, granted, Filled(n, junk));
      PeakSnoc(levels, inUse + n);
      heap := heap[granted := Filled(n, junk)];
      inUse := inUse + n;
      if inUse > maxInUse {
        maxInUse := inUse;
      }
      levels := levels + [inUse];
      return granted;
    }

    method XFree(p: nat)
      requires Valid() && (p == NULL || p in heap)
      modifies this
      ensures Valid() && failures == old(failures) && maxInUse == old(maxInUse)
      ensures p == NULL ==> heap == old(heap) && levels == old(levels) && freed == old(freed)
      ensures p != NULL ==>
        && heap == old(heap) - {p}
        && levels == old(levels) + [old(inUse) - |old(heap)[p].data|]
        && freed == old(freed) + [old(heap)[p].data]
    {
      if p == NULL {
        return;
      }
      TotalRemove(heap, p);
      freed := freed + [heap[p].data];
      inUse := inUse - |heap[p].data|;
      heap := heap - {p};
      PeakBounds(levels, inUse);
      levels := levels + [inUse];
    }

    lemma PeakBounds(levels: seq<nat>, lower: nat)
      requires levels != [] && lower <= levels[|levels| - 1]
      ensures Peak(levels + [lower]) == Peak(levels)
    {
      PeakSnoc(levels, lower);
      PeakIsMaximum(levels);
    }

    /** The growing or shrinking path of XREALLOC. */
    method Move(p: nat, n: Request, granted: nat, junk: nat -> Byte) returns (q: nat)
      requires Valid() && p in heap && n > 0 && granted !in heap
      modifies this
      ensures Valid() && q == granted
      ensures q == NULL ==>
        heap == old(heap) && levels == old(levels) && failures == old(failures) + 1 && freed == old(freed)
      ensures q != NULL ==>
        && heap == old(heap)[q := Moved(old(heap)[p], n, junk)] - {p}
        && levels == old(levels) + [old(inUse) + n, old(inUse) + n - |old(heap)[p].data|]
        && failures == old(failures) && freed == old(freed) + [old(heap)[p].data]
    {
      var oldSize := |heap[p].data|;
      q := XMalloc(n, granted, junk);
      if q == NULL {
        return;
      }
      CopyBytes(q, p, Min(oldSize, n));
      assert heap == old(heap)[q := Moved(old(heap)[p], n, junk)];
      XFree(p);
    }

    /** On success the first min(old, new) bytes move to the new block and both blocks were live at
        once; on failure the old block and the total are untouched. */
    method XRealloc(p: nat, n: Request, granted: nat, junk: nat -> Byte) returns (q: nat)
      requires Valid() && (p == NULL || p in heap) && granted !in heap
      modifies this
      ensures Valid()
      ensures p == NULL ==> q == granted && freed == old(freed)
      ensures p == NULL && q != NULL ==>
        && heap == old(heap)[q := Filled(Max(1, n), junk)]
        && levels == old(levels) + [old(inUse) + Max(1, n)] && failures == old(failures)
      ensures p != NULL && n == 0 ==>
        && q == NULL && heap == old(heap) - {p} && failures == old(failures)
        && levels == old(levels) + [old(inUse) - |old(heap)[p].data|]
      ensures p != NULL && n > 0 ==> q == granted
      ensures p != NULL && n > 0 && q != NULL ==>
        && heap == old(heap)[q := Moved(old(heap)[p], n, junk)] - {p}
        && levels == old(levels) + [old(inUse) + n, old(inUse) + n - |old(heap)[p].data|]
        && failures == old(failures) && freed == old(freed) + [old(heap)[p].data]
      ensures q == NULL && (p == NULL || n > 0) ==>
        heap == old(heap) && levels == old(levels) && failures == old(failures) + 1 && freed == old(freed)
    {
      if p == NULL {
        q := XMalloc(n, granted, junk);
      } else if n == 0 {
        XFree(p);
        q := NULL;
      } else {
        q := Move(p, n, granted, junk);
      }
    }

    /** memcpy between two live blocks. */
    method CopyBytes(to: nat, from: nat, count: nat)
      requires Valid() && to in heap && from in heap && to != from
      requires count <= |heap[to].data| && count <= |heap[from].data|
      modifies this`heap
      ensures Valid()
      ensures heap == old(heap)[to := Block(old(heap)[from].data[..count] + old(heap)[to].data[count..])]
    {
      var b := Block(heap[from].data[..count] + heap[to].data[count..]);
      TotalOverwrite(heap, to, b);
      heap := heap[to := b];
    }

    /** Any write that stays within a live block. */
    method Overwrite(p: nat, bytes: nat -> Byte)
      requires Valid() && p in heap
      modifies this`heap
      ensures Valid()
      ensures heap == old(heap)[p := Filled(|old(heap)[p].data|, bytes)]
    {
      var b := Filled(|heap[p].data|, bytes);
      TotalOverwrite(heap, p, b);
      heap := heap[p := b];
    }

    method ResetStats()
      requires Valid()
      modifies this
      ensures Valid() && heap == old(heap) && failures == 0 && levels == [inUse] && freed == old(freed)
    {
      maxInUse := inUse;
      failures := 0;
      levels := [inUse];
    }

    /** One operation; `levels` grows by exactly the totals it passes through. */
    method Perform(op: Op)
      requires Valid() && Legal(heap, op)
      modifies this
      ensures Valid() && heap == Next(old(heap), op)
      ensures levels == if op.Reset? then [Total(old(heap))] else old(levels) + Passed(old(heap), op)
      ensures failures == if op.Reset? then 0 else old(failures) + if Refused(op) then 1 else 0
    {
      var q;
      match op {
        case Malloc(request, granted, junk) => q := XMalloc(request, granted, junk);
        case Free(p) => XFree(p);
        case Realloc(p, request, granted, junk) =>
          if p != NULL { TotalInsert(heap, granted, Moved(heap[p], request, junk)); }
          q := XRealloc(p, request, granted, junk);
        case Write(p, bytes) => Overwrite(p, bytes);
        case Reset => ResetStats();
      }
    }

    /** Any run of operations: the total is the sum of the live blocks, the recorded maximum is the
        peak of all such sums since the last reset, moments inside a move included. */
    method PerformAll(ops: seq<Op>)
      requires Valid() && LegalRun(heap, ops)
      modifies this
      ensures Valid() && heap == HeapAfter(old(heap), ops) && inUse == Total(HeapAfter(old(heap), ops))
      ensures maxInUse == Peak(LevelsAfter(old(levels), old(heap), ops))
      ensures failures == FailuresAfter(old(failures), ops)
    {
      for k := 0 to |ops|
        invariant Valid() && LegalRun(old(heap), ops[..k]) && heap == HeapAfter(old(heap), ops[..k])
        invariant levels == LevelsAfter(old(levels), old(heap), ops[..k])
        invariant failures == FailuresAfter(old(failures), ops[..k])
      {
        OneMore(old(levels), old(heap), old(failures), ops, k);
        Perform(ops[k]);
      }
      assert ops[..|ops|] == ops;
    }
  }

  lemma {:induction false} LegalPrefix(heap: Heap, ops: seq<Op>, k: nat)
    requires LegalRun(heap, ops) && k <= |ops|
    ensures LegalRun(heap, ops[..k])
    decreases |ops|
  {
    if k == |ops| {
      assert ops[..k] == ops;
    } else {
      LegalPrefix(heap, ops[..|ops| - 1], k);
      assert ops[..|ops| - 1][..k] == ops[..k];
    }
  }

  lemma OneMore(start: seq<nat>, heap: Heap, failures: nat, ops: seq<Op>, k: nat)
    requires LegalRun(heap, ops) && k < |ops|
    ensures LegalRun(heap, ops[..k]) && LegalRun(heap, ops[..k + 1]) && Legal(HeapAfter(heap, ops[..k]), ops[k])
    ensures HeapAfter(heap, ops[..k + 1]) == Next(HeapAfter(heap, ops[..k]), ops[k])
    ensures LevelsAfter(start, heap, ops[..k + 1]) ==
      if ops[k].Reset? then [Total(HeapAfter(heap, ops[..k]))]
      else LevelsAfter(start, heap, ops[..k]) + Passed(HeapAfter(heap, ops[..k]), ops[k])
    ensures FailuresAfter(failures, ops[..k + 1]) ==
      if ops[k].Reset? then 0 else FailuresAfter(failures, ops[..k]) + if Refused(ops[k]) then 1 else 0
  {
    LegalPrefix(heap, ops, k);
    LegalPrefix(heap, ops, k + 1);
    assert ops[..k + 1][..k] == ops[..k];
  }

  predicate NoReset(ops: seq<Op>, from: nat) {
    forall j :: from <= j < |ops| ==> !ops[j].Reset?
  }

  /** The levels of a run begin with those up to its last reset and end with the present total. */
  lemma {:induction false} LevelsExtend(start: seq<nat>, heap: Heap, ops: seq<Op>, k: nat)
    requires LegalRun(heap, ops) && k <= |ops| && NoReset(ops, k)
    requires start != [] && start[|start| - 1] == Total(heap)
    ensures LegalRun(heap, ops[..k]) && LevelsAfter(start, heap, ops[..k]) <= LevelsAfter(start, heap, ops)
    ensures var levels := LevelsAfter(start, heap, ops); levels[|levels| - 1] == Total(HeapAfter(heap, ops))
    decreases |ops|
  {
    if ops == [] {
      assert ops[..k] == ops;
    } else {
      var before := ops[..|ops| - 1];
      LastLevel(start, heap, ops);
      if k == |ops| {
        assert ops[..k] == ops;
      } else {
        LevelsExtend(start, heap, before, k);
        assert before[..k] == ops[..k];
      }
    }
  }

  lemma {:induction false} LastLevel(start: seq<nat>, heap: Heap, ops: seq<Op>)
    requires LegalRun(heap, ops) && start != [] && start[|start| - 1] == Total(heap)
    ensures var levels := LevelsAfter(start, heap, ops); levels[|levels| - 1] == Total(HeapAfter(heap, ops))
  {
    if ops == [] {
    } else {
      LastLevel(start, heap, ops[..|ops| - 1]);
      PassedEnds(HeapAfter(heap, ops[..|ops| - 1]), ops[|ops| - 1]);
    }
  }

  lemma PassedEnds(heap: Heap, op: Op)
    requires Legal(heap, op)
    ensures var passed := Passed(heap, op);
      Total(Next(heap, op)) == if passed == [] then Total(heap) else passed[|passed| - 1]
  {
    match op
    case Write(p, bytes) => TotalOverwrite(heap, p, Filled(|heap[p].data|, bytes));
    case _ =>
  }

  /** At no moment since the last reset did the live blocks hold more than the recorded peak. */
  lemma PeakCoversRun(start: seq<nat>, heap: Heap, ops: seq<Op>, k: nat)
    requires LegalRun(heap, ops) && k <= |ops| && NoReset(ops, k)
    requires start != [] && start[|start| - 1] == Total(heap)
    ensures LegalRun(heap, ops[..k]) && Total(HeapAfter(heap, ops[..k])) <= Peak(LevelsAfter(start, heap, ops))
  {
    LevelsExtend(start, heap, ops, k);
    LastLevel(start, heap, ops[..k]);
    PeakCovers(LevelsAfter(start, heap, ops[..k]), LevelsAfter(start, heap, ops));
  }
}
