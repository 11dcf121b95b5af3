/** Unbounded sums of a weight over a sequence, and how they split. */
module Sums {

  function Total<T>(xs: seq<T>, weight: T -> nat): nat {
    if xs == [] then 0 else weight(xs[0]) + Total(xs[1..], weight)
  }

  lemma TotalOne<T>(x: T, weight: T -> nat)
    ensures Total([x], weight) == weight(x)
  {
    assert [x][1..] == [];
  }

  lemma {:induction false} TotalConcat<T>(a: seq<T>, b: seq<T>, weight: T -> nat)
    ensures Total(a + b, weight) == Total(a, weight) + Total(b, weight)
  {
    if a == [] {
      assert a + b == b;
    } else {
      assert (a + b)[1..] == a[1..] + b;
      TotalConcat(a[1..], b, weight);
    }
  }

  /** The step of a loop that accumulates the weights from left to right. */
  lemma TotalNext<T>(xs: seq<T>, k: nat, weight: T -> nat)
    requires k < |xs|
    ensures Total(xs[..k + 1], weight) == Total(xs[..k], weight) + weight(xs[k])
  {
    assert xs[..k + 1] == xs[..k] + [xs[k]];
    TotalConcat(xs[..k], [xs[k]], weight);
    TotalOne(xs[k], weight);
  }

  lemma {:induction false} TotalUpdate<T>(xs: seq<T>, k: nat, x: T, weight: T -> nat)
    requires k < |xs|
    ensures Total(xs[k := x], weight) + weight(xs[k]) == Total(xs, weight) + weight(x)
  {
    if k > 0 {
      assert xs[k := x][1..] == xs[1..][k - 1 := x];
      TotalUpdate(xs[1..], k - 1, x, weight);
    }
  }

  lemma {:induction false} TotalAtLeast<T>(xs: seq<T>, k: nat, weight: T -> nat)
    requires k < |xs|
    ensures weight(xs[k]) <= Total(xs, weight)
  {
    if k > 0 {
      TotalAtLeast(xs[1..], k - 1, weight);
    }
  }

  lemma {:induction false} TotalAtMost<T>(xs: seq<T>, weight: T -> nat, cap: nat)
    requires forall x | x in xs :: weight(x) <= cap
    ensures Total(xs, weight) <= cap * |xs|
  {
    if xs != [] {
      assert xs[0] in xs;
      TotalAtMost(xs[1..], weight, cap);
      assert cap * |xs| == cap + cap * (|xs| - 1);
    }
  }

  /** Two adjacent slices. */
  lemma TotalAdjacent<T>(xs: seq<T>, i: nat, j: nat, k: nat, weight: T -> nat)
    requires i <= j <= k <= |xs|
    ensures Total(xs[i..k], weight) == Total(xs[i..j], weight) + Total(xs[j..k], weight)
  {
    assert xs[i..k] == xs[i..j] + xs[j..k];
    TotalConcat(xs[i..j], xs[j..k], weight);
  }

  /** A slice weighs no more than a slice around it. */
  lemma TotalWithin<T>(xs: seq<T>, i: nat, i': nat, k': nat, k: nat, weight: T -> nat)
    requires i <= i' <= k' <= k <= |xs|
    ensures Total(xs[i'..k'], weight) <= Total(xs[i..k], weight)
  {
    TotalAdjacent(xs, i, i', k, weight);
    TotalAdjacent(xs, i', k', k, weight);
  }

  lemma AdjacentSlices<T>(xs: seq<T>, i: nat, j: nat, k: nat)
    requires i <= j <= k <= |xs|
    ensures xs[i..j] + xs[j..k] == xs[i..k]
  {
  }

  lemma SliceOfTake<T>(xs: seq<T>, cut: nat, i: nat, k: nat)
    requires i <= k <= cut <= |xs|
    ensures xs[..cut][i..k] == xs[i..k]
  {
  }

  lemma SliceOfDrop<T>(xs: seq<T>, m: nat, i: nat, k: nat)
    requires m <= |xs| && i <= k <= |xs| - m
    ensures xs[m..][i..k] == xs[m + i..m + k]
  {
  }

  lemma SliceOfPrefix<T>(xs: seq<T>, ys: seq<T>, cut: nat, i: nat, k: nat)
    requires i <= k <= cut <= |xs| && cut <= |ys| && xs[..cut] == ys[..cut]
    ensures xs[i..k] == ys[i..k]
  {
    SliceOfTake(xs, cut, i, k);
    SliceOfTake(ys, cut, i, k);
  }

  lemma SliceOfSuffix<T>(xs: seq<T>, m: nat, ys: seq<T>, n: nat, i: nat, k: nat)
    requires m <= |xs| && n <= |ys| && xs[m..] == ys[n..] && i <= k <= |xs| - m
    ensures |xs| - m == |ys| - n && xs[m + i..m + k] == ys[n + i..n + k]
  {
    assert |xs[m..]| == |ys[n..]|;
    SliceOfDrop(xs, m, i, k);
    SliceOfDrop(ys, n, i, k);
  }

  lemma ConsConcat<T>(head: seq<T>, a: seq<T>, b: seq<T>)
    ensures head + (a + b) == (head + a) + b
  {
  }

  /** Replaces the elements in `[start, end)` by one element. */
  function Splice<T>(xs: seq<T>, start: nat, end: nat, replacement: T): (r: seq<T>)
    requires start <= end <= |xs|
    ensures |r| == |xs| - (end - start) + 1
  {
    xs[..start] + [replacement] + xs[end..]
  }

  lemma TotalSplice<T>(xs: seq<T>, start: nat, end: nat, replacement: T, weight: T -> nat)
    requires start <= end <= |xs|
    ensures Total(Splice(xs, start, end, replacement), weight) + Total(xs[start..end], weight)
         == Total(xs, weight) + weight(replacement)
  {
    assert xs[0..|xs|] == xs && xs[0..start] == xs[..start] && xs[end..|xs|] == xs[end..];
    TotalAdjacent(xs, 0, start, |xs|, weight);
    TotalAdjacent(xs, start, end, |xs|, weight);
    TotalConcat(xs[..start] + [replacement], xs[end..], weight);
    TotalConcat(xs[..start], [replacement], weight);
    TotalOne(replacement, weight);
  }
}
