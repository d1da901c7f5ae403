/** Permutation-insensitive facts about sequences, used wherever the order of sessions,
    rows or list entries must not matter. */
module Sequences {

  /** Concatenates `f(x)` over `xs` in order. Filtering and mapping are both instances. */
  function Gather<T, U>(f: T -> seq<U>, xs: seq<T>): seq<U> {
    if xs == [] then [] else f(xs[0]) + Gather(f, xs[1..])
  }

  lemma {:induction false} GatherAppend<T, U>(f: T -> seq<U>, xs: seq<T>, ys: seq<T>)
    ensures Gather(f, xs + ys) == Gather(f, xs) + Gather(f, ys)
  {
    if xs == [] {
      assert xs + ys == ys;
    } else {
      assert (xs + ys)[1..] == xs[1..] + ys;
      GatherAppend(f, xs[1..], ys);
    }
  }

  lemma GatherSnoc<T, U>(f: T -> seq<U>, xs: seq<T>, n: nat)
    requires 0 < n <= |xs|
    ensures Gather(f, xs[..n]) == Gather(f, xs[..n - 1]) + f(xs[n - 1])
  {
    assert xs[..n] == xs[..n - 1] + [xs[n - 1]];
    GatherAppend(f, xs[..n - 1], [xs[n - 1]]);
    assert Gather(f, [xs[n - 1]]) == f(xs[n - 1]);
  }

  lemma SameLength<T>(xs: seq<T>, ys: seq<T>)
    requires multiset(xs) == multiset(ys)
    ensures |xs| == |ys|
  {
    assert |multiset(xs)| == |xs| && |multiset(ys)| == |ys|;
  }

  /** Where the head of `xs` sits in a permutation `ys` of it, and what is left there. */
  lemma Extract<T>(xs: seq<T>, ys: seq<T>) returns (i: nat)
    requires xs != [] && multiset(xs) == multiset(ys)
    ensures i < |ys| && ys[i] == xs[0]
    ensures ys == ys[..i] + [ys[i]] + ys[i + 1..]
    ensures multiset(xs[1..]) == multiset(ys[..i] + ys[i + 1..])
  {
    assert xs[0] in multiset(xs);
    i :| 0 <= i < |ys| && ys[i] == xs[0];
    assert xs == [xs[0]] + xs[1..];
    assert ys == ys[..i] + [ys[i]] + ys[i + 1..];
    calc {
      multiset(xs[1..]);
      multiset(xs) - multiset{xs[0]};
      multiset(ys[..i] + [ys[i]] + ys[i + 1..]) - multiset{ys[i]};
      multiset(ys[..i] + ys[i + 1..]);
    }
  }

  lemma {:induction false} GatherPermutes<T, U>(f: T -> seq<U>, xs: seq<T>, ys: seq<T>)
    requires multiset(xs) == multiset(ys)
    ensures multiset(Gather(f, xs)) == multiset(Gather(f, ys))
    decreases |xs|
  {
    if xs == [] {
      SameLength(xs, ys);
    } else {
      var i := Extract(xs, ys);
      GatherPermutes(f, xs[1..], ys[..i] + ys[i + 1..]);
      GatherAppend(f, ys[..i], ys[i + 1..]);
      GatherAppend(f, ys[..i] + [ys[i]], ys[i + 1..]);
      GatherAppend(f, ys[..i], [ys[i]]);
      assert Gather(f, [ys[i]]) == f(ys[i]);
    }
  }

  function Map<T, U>(f: T -> U, xs: seq<T>): seq<U> {
    seq(|xs|, i requires 0 <= i < |xs| => f(xs[i]))
  }

  lemma MapAppend<T, U>(f: T -> U, xs: seq<T>, ys: seq<T>)
    ensures Map(f, xs + ys) == Map(f, xs) + Map(f, ys)
  {}

  lemma {:induction false} GatherAlike<T, U, V>(f: T -> seq<V>, xs: seq<T>, g: U -> seq<V>, ys: seq<U>)
    requires |xs| == |ys| && forall k :: 0 <= k < |xs| ==> f(xs[k]) == g(ys[k])
    ensures Gather(f, xs) == Gather(g, ys)
  {
    if xs == [] {
    } else {
      assert f(xs[0]) == g(ys[0]);
      GatherAlike(f, xs[1..], g, ys[1..]);
    }
  }

  lemma GatherThrough<T(!new), U>(f: T -> seq<U>, g: T -> T, xs: seq<T>)
    requires forall x :: f(g(x)) == f(x)
    ensures Gather(f, Map(g, xs)) == Gather(f, xs)
  {
    GatherAlike(f, Map(g, xs), f, xs);
  }

  function Sum(xs: seq<real>): real {
    if xs == [] then 0.0 else xs[0] + Sum(xs[1..])
  }

  lemma {:induction false} SumAppend(xs: seq<real>, ys: seq<real>)
    ensures Sum(xs + ys) == Sum(xs) + Sum(ys)
  {
    if xs == [] {
      assert xs + ys == ys;
    } else {
      assert (xs + ys)[1..] == xs[1..] + ys;
      SumAppend(xs[1..], ys);
    }
  }

  lemma {:induction false} SumPermutes(xs: seq<real>, ys: seq<real>)
    requires multiset(xs) == multiset(ys)
    ensures Sum(xs) == Sum(ys)
    decreases |xs|
  {
    if xs == [] {
      SameLength(xs, ys);
    } else {
      var i := Extract(xs, ys);
      SumPermutes(xs[1..], ys[..i] + ys[i + 1..]);
      SumAppend(ys[..i], ys[i + 1..]);
      SumAppend(ys[..i] + [ys[i]], ys[i + 1..]);
      SumAppend(ys[..i], [ys[i]]);
    }
  }

  predicate IsSorted(xs: seq<real>) {
    forall i, j :: 0 <= i < j < |xs| ==> xs[i] <= xs[j]
  }

  function Insert(x: real, xs: seq<real>): (r: seq<real>)
    ensures |r| == |xs| + 1
  {
    if xs == [] || x <= xs[0] then [x] + xs else [xs[0]] + Insert(x, xs[1..])
  }

  function Sort(xs: seq<real>): (r: seq<real>)
    ensures |r| == |xs|
  {
    if xs == [] then [] else Insert(xs[0], Sort(xs[1..]))
  }

  lemma {:induction false} InsertKeeps(x: real, xs: seq<real>)
    ensures multiset(Insert(x, xs)) == multiset(xs) + multiset{x}
  {
    if !(xs == [] || x <= xs[0]) {
      assert xs == [xs[0]] + xs[1..];
      InsertKeeps(x, xs[1..]);
    }
  }

  lemma {:induction false} InsertSorts(x: real, xs: seq<real>)
    requires IsSorted(xs)
    ensures IsSorted(Insert(x, xs))
    ensures Insert(x, xs)[0] == if xs == [] || x <= xs[0] then x else xs[0]
  {
    if !(xs == [] || x <= xs[0]) {
      InsertSorts(x, xs[1..]);
      assert xs[0] <= Insert(x, xs[1..])[0];
    }
  }

  /** Sort orders its input and keeps every element. */
  lemma {:induction false} SortShape(xs: seq<real>)
    ensures IsSorted(Sort(xs)) && multiset(Sort(xs)) == multiset(xs)
  {
    if xs == [] {
    } else {
      assert xs == [xs[0]] + xs[1..];
      SortShape(xs[1..]);
      InsertKeeps(xs[0], Sort(xs[1..]));
      InsertSorts(xs[0], Sort(xs[1..]));
    }
  }

  lemma {:induction false} SortedIsUnique(xs: seq<real>, ys: seq<real>)
    requires IsSorted(xs) && IsSorted(ys) && multiset(xs) == multiset(ys)
    ensures xs == ys
    decreases |xs|
  {
    SameLength(xs, ys);
    if xs == [] {
    } else {
      assert xs == [xs[0]] + xs[1..] && ys == [ys[0]] + ys[1..];
      HeadIsLeast(xs, ys);
      HeadIsLeast(ys, xs);
      TailsPermute(xs, ys);
      SortedIsUnique(xs[1..], ys[1..]);
    }
  }

  lemma HeadIsLeast(xs: seq<real>, ys: seq<real>)
    requires xs != [] && IsSorted(xs) && ys != [] && multiset(xs) == multiset(ys)
    ensures xs[0] <= ys[0]
  {
    assert ys[0] in multiset(xs);
  }

  lemma TailsPermute<T>(xs: seq<T>, ys: seq<T>)
    requires xs != [] && ys != [] && xs[0] == ys[0] && multiset(xs) == multiset(ys)
    ensures multiset(xs[1..]) == multiset(ys[1..])
  {
    assert xs == [xs[0]] + xs[1..] && ys == [ys[0]] + ys[1..];
    calc {
      multiset(xs[1..]);
      multiset(xs) - multiset{xs[0]};
      multiset(ys) - multiset{ys[0]};
      multiset(ys[1..]);
    }
  }

  /** Sorting forgets the input order. */
  lemma SortPermutes(xs: seq<real>, ys: seq<real>)
    requires multiset(xs) == multiset(ys)
    ensures Sort(xs) == Sort(ys)
  {
    SortShape(xs);
    SortShape(ys);
    SortedIsUnique(Sort(xs), Sort(ys));
  }
}
