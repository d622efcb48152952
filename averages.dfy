/**
 * Declarative definitions of what the rolling average computes: sums, means,
 * the window that ends at each index, the recency-weighted sum, the effective
 * window, and the whole expected output.  The imperative algorithm in module
 * CollectionRollingAverage is proved to produce exactly RollingAverages.
 */
module Averages {
  import opened Wrappers

  function Min(a: nat, b: nat): nat { if a <= b then a else b }

  /** The sum of a sequence, folded from the front. */
  function Sum(s: seq<real>): real
  {
    if s == [] then 0.0 else s[0] + Sum(s[1..])
  }

  lemma {:induction false} SumAppend(s: seq<real>, x: real)
    ensures Sum(s + [x]) == Sum(s) + x
  {
    if s == [] {
      assert [] + [x] == [x];
    } else {
      assert (s + [x])[1..] == s[1..] + [x];
      SumAppend(s[1..], x);
    }
  }

  /** The arithmetic mean of a non-empty collection, as Collection::average computes it. */
  function Mean(s: seq<real>): (m: real)
    requires |s| > 0
    ensures m * (|s| as real) == Sum(s)
  {
    Sum(s) / (|s| as real)
  }

  /** A sequence in reverse order: the first element of the result is the last of s. */
  function Reversed(s: seq<real>): (r: seq<real>)
  {
    seq(|s|, k requires 0 <= k < |s| => s[|s| - 1 - k])
  }

  /**
   * Slot j of the reversed window ending at index i holds values[i - j]:
   * slot 0 is the most recent value, the one the first weight applies to.
   */
  lemma ReversedWindowSlot(values: seq<real>, i: nat, w: nat, j: nat)
    requires i < |values| && j < WindowCount(i, w)
    ensures Reversed(Window(values, i, w))[j] == values[i - j]
  {
  }

  /** The first index of the window of at most w values that ends at index i: max(0, i + 1 - w). */
  function WindowStart(i: nat, w: nat): (start: nat)
    ensures start <= i + 1
    ensures start + WindowCount(i, w) == i + 1
  {
    if i + 1 >= w then i + 1 - w else 0
  }

  /** How many values the window that ends at index i holds: min(i + 1, w). */
  function WindowCount(i: nat, w: nat): (c: nat)
    ensures c <= i + 1 && c <= w
    ensures w >= 1 ==> c >= 1
  {
    Min(i + 1, w)
  }

  /** The window ending at index i, oldest value first. */
  function Window(values: seq<real>, i: nat, w: nat): (win: seq<real>)
    requires i < |values|
    ensures |win| == WindowCount(i, w)
    ensures forall k :: 0 <= k < |win| ==> win[k] == values[WindowStart(i, w) + k]
  {
    values[WindowStart(i, w) .. i + 1]
  }

  /** The c most recent of the first len values, newest first. */
  function Recent(values: seq<real>, len: nat, c: nat): (r: seq<real>)
    requires c <= len <= |values|
  {
    seq(c, k requires 0 <= k < c => values[len - 1 - k])
  }

  /**
   * The newest-first buffer is the chronological slice of the same values,
   * reversed: the running buffer holds what the weighted path slices and reverses.
   */
  lemma RecentIsReversedSlice(values: seq<real>, len: nat, c: nat)
    requires c <= len <= |values|
    ensures Recent(values, len, c) == Reversed(values[len - c .. len])
  {
  }

  /** Newest first or oldest first, a stretch of values has the same sum. */
  lemma {:induction false} SumRecent(values: seq<real>, len: nat, c: nat)
    requires c <= len <= |values|
    ensures Sum(Recent(values, len, c)) == Sum(values[len - c .. len])
  {
    if c == 0 {
      assert Recent(values, len, c) == [];
      assert values[len - c .. len] == [];
    } else {
      assert Recent(values, len, c) == [values[len - 1]] + Recent(values, len - 1, c - 1);
      SumRecent(values, len - 1, c - 1);
      assert values[len - c .. len] == values[len - c .. len - 1] + [values[len - 1]];
      SumAppend(values[len - c .. len - 1], values[len - 1]);
    }
  }

  /**
   * The running buffer of the unweighted path: after the first len values it
   * holds the min(len, w) most recent ones, newest first.  Prepending the
   * next value and keeping the first w entries yields the buffer for len + 1,
   * whose mean is the mean of the window ending at index len.
   */
  lemma BufferStep(values: seq<real>, len: nat, w: nat)
    requires len < |values| && w >= 1
    ensures var prepended := [values[len]] + Recent(values, len, Min(len, w));
            var kept := prepended[..Min(|prepended|, w)];
            kept == Recent(values, len + 1, Min(len + 1, w)) && Mean(kept) == WindowMean(values, len, w)
  {
    var prepended := [values[len]] + Recent(values, len, Min(len, w));
    var kept := prepended[..Min(|prepended|, w)];
    var expected := Recent(values, len + 1, Min(len + 1, w));
    assert |kept| == |expected|;
    forall k | 0 <= k < |kept| ensures kept[k] == expected[k] {
      if k > 0 {
        assert kept[k] == Recent(values, len, Min(len, w))[k - 1];
      }
    }
    SumRecent(values, len + 1, Min(len + 1, w));
  }

  /**
   * The factor for recency slot j: the weight when there is one and it is
   * non-zero, otherwise 1.  So no slot is ever multiplied by zero.
   */
  function Multiplier(weights: seq<real>, j: nat): (m: real)
    ensures m != 0.0
    ensures m == 1.0 || (j < |weights| && m == weights[j])
  {
    if j < |weights| && weights[j] != 0.0 then weights[j] else 1.0
  }

  /** The sum over the k most recent slots j of Multiplier(weights, j) * values[i - j]. */
  function WeightedSum(values: seq<real>, i: nat, weights: seq<real>, k: nat): (r: real)
    requires i < |values| && k <= i + 1
  {
    if k == 0 then 0.0
    else WeightedSum(values, i, weights, k - 1) + Multiplier(weights, k - 1) * values[i - (k - 1)]
  }

  /** Two weight lists that agree on the multipliers of the first k slots give the same weighted sum. */
  lemma {:induction false} WeightedSumCongruent(values: seq<real>, i: nat, a: seq<real>, b: seq<real>, k: nat)
    requires i < |values| && k <= i + 1
    requires forall j :: 0 <= j < k ==> Multiplier(a, j) == Multiplier(b, j)
    ensures WeightedSum(values, i, a, k) == WeightedSum(values, i, b, k)
  {
    if k > 0 {
      WeightedSumCongruent(values, i, a, b, k - 1);
    }
  }

  /** When every one of the first k slots has the same multiplier m, the weighted sum is m times the plain sum. */
  lemma {:induction false} WeightedSumConstant(values: seq<real>, i: nat, weights: seq<real>, k: nat, m: real)
    requires i < |values| && k <= i + 1
    requires forall j :: 0 <= j < k ==> Multiplier(weights, j) == m
    ensures WeightedSum(values, i, weights, k) == m * Sum(values[i + 1 - k .. i + 1])
  {
    if k == 0 {
      assert values[i + 1 - k .. i + 1] == [];
    } else {
      WeightedSumConstant(values, i, weights, k - 1, m);
      assert values[i + 1 - k .. i + 1] == [values[i + 1 - k]] + values[i + 2 - k .. i + 1];
    }
  }

  /** The unweighted average at index i: the mean of the window ending there. */
  function WindowMean(values: seq<real>, i: nat, w: nat): (r: real)
    requires i < |values| && w >= 1
    ensures w == 1 ==> r == values[i]
    ensures i + 1 <= w ==> r == Mean(values[..i + 1])
  {
    assert w == 1 ==> Window(values, i, w) == [values[i]] && Sum([values[i]]) == values[i] + Sum([]);
    assert i + 1 <= w ==> Window(values, i, w) == values[..i + 1];
    Mean(Window(values, i, w))
  }

  /**
   * The weighted average at index i: the weighted sum of the window's slots,
   * divided by the number of values in the window (not by the sum of the weights).
   */
  function WeightedMean(values: seq<real>, i: nat, w: nat, weights: seq<real>): (r: real)
    requires i < |values| && w >= 1
  {
    WeightedSum(values, i, weights, WindowCount(i, w)) / (WindowCount(i, w) as real)
  }

  /** Weights past the first w never reach a slot of a window of size w. */
  lemma TrimmedWeightedMean(values: seq<real>, i: nat, w: nat, weights: seq<real>)
    requires i < |values| && w >= 1 && |weights| > w
    ensures WeightedMean(values, i, w, weights[..w]) == WeightedMean(values, i, w, weights)
  {
    WeightedSumCongruent(values, i, weights[..w], weights, WindowCount(i, w));
  }

  /** With no weights at all, every slot's multiplier is 1 and the weighted mean is the plain mean. */
  lemma EmptyWeightsMean(values: seq<real>, i: nat, w: nat)
    requires i < |values| && w >= 1
    ensures WeightedMean(values, i, w, []) == WindowMean(values, i, w)
  {
    var c := WindowCount(i, w);
    WeightedSumConstant(values, i, [], c, 1.0);
    assert values[i + 1 - c .. i + 1] == Window(values, i, w);
    var total := Sum(Window(values, i, w));
    assert WeightedSum(values, i, [], c) == total;
    assert WindowMean(values, i, w) == total / (c as real);
  }

  /** The average at index i: weighted when a weights list is given, even an empty one. */
  function Average(values: seq<real>, i: nat, w: nat, weights: Option<seq<real>>): (r: real)
    requires i < |values| && w >= 1
    ensures weights.None? || weights == Some([]) ==> r == WindowMean(values, i, w)
    ensures weights.Some? && |weights.value| > w ==> r == WeightedMean(values, i, w, weights.value[..w])
  {
    match weights
    case None => WindowMean(values, i, w)
    case Some(ws) =>
      if |ws| > w then
        TrimmedWeightedMean(values, i, w, ws);
        WeightedMean(values, i, w, ws)
      else if ws == [] then
        EmptyWeightsMean(values, i, w);
        WeightedMean(values, i, w, ws)
      else
        WeightedMean(values, i, w, ws)
  }

  /** A window size, when given, is at least 1. */
  predicate ValidWindow(recordsToAverage: Option<nat>)
  {
    recordsToAverage.Some? ==> recordsToAverage.value >= 1
  }

  /**
   * The window actually used for an input of n values: the whole input when no
   * size is given, or when the size exceeds the input and lookback is not enforced.
   */
  function EffectiveWindow(n: nat, recordsToAverage: Option<nat>, enforceLookback: bool): (w: nat)
    requires ValidWindow(recordsToAverage)
    ensures w == 0 ==> n == 0
    ensures w <= n || (enforceLookback && recordsToAverage == Some(w))
  {
    match recordsToAverage
    case None => n
    case Some(r) => if r > n && !enforceLookback then n else r
  }

  /**
   * The expected output: one average per input index, or, under enforced
   * lookback, one per index that has a full window behind it.
   */
  function RollingAverages(values: seq<real>, recordsToAverage: Option<nat>, enforceLookback: bool,
                           weights: Option<seq<real>>): (r: seq<real>)
    requires ValidWindow(recordsToAverage)
    ensures |r| <= |values|
    ensures !enforceLookback ==> |r| == |values|
  {
    var n := |values|;
    var w := EffectiveWindow(n, recordsToAverage, enforceLookback);
    if !enforceLookback then
      seq(n, i requires 0 <= i < n => Average(values, i, w, weights))
    else if 1 <= w <= n then
      seq(n - w + 1, k requires 0 <= k < n - w + 1 => Average(values, k + w - 1, w, weights))
    else
      []
  }

  /**
   * The averages of every index are the whole output without enforced
   * lookback; with it, whatever follows the first w - 1 of them.
   */
  lemma RetainedAverages(values: seq<real>, recordsToAverage: Option<nat>, enforceLookback: bool,
                         weights: Option<seq<real>>, all: seq<real>)
    requires ValidWindow(recordsToAverage)
    requires EffectiveWindow(|values|, recordsToAverage, enforceLookback) <= |values|
    requires |all| == |values|
    requires forall i :: 0 <= i < |values| ==>
               all[i] == Average(values, i, EffectiveWindow(|values|, recordsToAverage, enforceLookback), weights)
    ensures var w := EffectiveWindow(|values|, recordsToAverage, enforceLookback);
            RollingAverages(values, recordsToAverage, enforceLookback, weights)
              == if enforceLookback && w >= 1 then all[w - 1 ..] else all
  {
  }
}
