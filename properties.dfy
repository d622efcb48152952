/**
 * What the rolling average promises, stated about its specification
 * RollingAverages (which the method CollectionRollingAverage.RollingAverage
 * produces exactly).
 */
module RollingAverageProperties {
  import opened Wrappers
  import opened Averages

  /**
   * Without weights and without enforcement there is one average per value,
   * the mean of values[max(0, i + 1 - w) .. i + 1].
   */
  lemma UnweightedOutput(values: seq<real>, recordsToAverage: Option<nat>)
    requires ValidWindow(recordsToAverage)
    ensures var r := RollingAverages(values, recordsToAverage, false, None);
            var w := EffectiveWindow(|values|, recordsToAverage, false);
            |r| == |values| &&
            forall i :: 0 <= i < |values| ==>
              var start := if i + 1 >= w then i + 1 - w else 0;
              start <= i && r[i] == Mean(values[start .. i + 1])
  {
  }

  /**
   * With weights and without enforcement, the average at i is the sum of the
   * c = min(i + 1, w) most recent values, each multiplied by its slot's
   * multiplier, divided by c.
   */
  lemma WeightedOutput(values: seq<real>, recordsToAverage: Option<nat>, weights: seq<real>)
    requires ValidWindow(recordsToAverage)
    ensures var r := RollingAverages(values, recordsToAverage, false, Some(weights));
            var w := EffectiveWindow(|values|, recordsToAverage, false);
            |r| == |values| &&
            forall i :: 0 <= i < |values| ==>
              r[i] == WeightedSum(values, i, weights, Min(i + 1, w)) / (Min(i + 1, w) as real)
  {
    var r := RollingAverages(values, recordsToAverage, false, Some(weights));
    var w := EffectiveWindow(|values|, recordsToAverage, false);
    forall i | 0 <= i < |values|
      ensures r[i] == WeightedSum(values, i, weights, Min(i + 1, w)) / (Min(i + 1, w) as real)
    {
      assert r[i] == WeightedMean(values, i, w, weights);
    }
  }

  /** A missing window size behaves exactly like a window of the whole input. */
  lemma NullWindowIsWholeInput(values: seq<real>, enforceLookback: bool, weights: Option<seq<real>>)
    requires |values| >= 1
    ensures RollingAverages(values, None, enforceLookback, weights)
         == RollingAverages(values, Some(|values|), enforceLookback, weights)
  {
  }

  /** Without enforcement, a window larger than the input behaves like a window of the whole input. */
  lemma OversizedWindowIsWholeInput(values: seq<real>, size: nat, weights: Option<seq<real>>)
    requires size > |values| >= 1
    ensures RollingAverages(values, Some(size), false, weights)
         == RollingAverages(values, Some(|values|), false, weights)
  {
  }

  /** With the whole input as window, the average at i is the mean of everything up to i. */
  lemma WholeInputMeans(values: seq<real>, recordsToAverage: Option<nat>)
    requires recordsToAverage.None? || recordsToAverage.value >= |values|
    requires ValidWindow(recordsToAverage)
    ensures var r := RollingAverages(values, recordsToAverage, false, None);
            |r| == |values| && forall i :: 0 <= i < |values| ==> r[i] == Mean(values[..i + 1])
  {
    var r := RollingAverages(values, recordsToAverage, false, None);
    var w := EffectiveWindow(|values|, recordsToAverage, false);
    forall i | 0 <= i < |values| ensures r[i] == Mean(values[..i + 1]) {
      assert WindowStart(i, w) == 0;
      assert Window(values, i, w) == values[..i + 1];
    }
  }

  /** Enforced lookback over more values than there are gives nothing, whatever the weights. */
  lemma EnforcedWindowTooLarge(values: seq<real>, size: nat, weights: Option<seq<real>>)
    requires size > |values|
    ensures RollingAverages(values, Some(size), true, weights) == []
  {
  }

  /**
   * Enforced lookback over w <= n values keeps n - w + 1 averages: the
   * unenforced ones from index w - 1 on, each taken over exactly w values.
   */
  lemma EnforcedWindowFits(values: seq<real>, w: nat, weights: Option<seq<real>>)
    requires 1 <= w <= |values|
    ensures var enforced := RollingAverages(values, Some(w), true, weights);
            var plain := RollingAverages(values, Some(w), false, weights);
            |enforced| == |values| - w + 1 &&
            forall k :: 0 <= k < |enforced| ==>
              enforced[k] == plain[k + w - 1] &&
              WindowCount(k + w - 1, w) == w && |Window(values, k + w - 1, w)| == w
  {
    var enforced := RollingAverages(values, Some(w), true, weights);
    var plain := RollingAverages(values, Some(w), false, weights);
    forall k | 0 <= k < |enforced| ensures enforced[k] == plain[k + w - 1] {
      assert enforced[k] == Average(values, k + w - 1, w, weights);
    }
  }

  /** Trimming the weights to the effective window never changes the output. */
  lemma TrimmingIsUnobservable(values: seq<real>, recordsToAverage: Option<nat>, enforceLookback: bool,
                               weights: seq<real>)
    requires ValidWindow(recordsToAverage)
    requires |weights| > EffectiveWindow(|values|, recordsToAverage, enforceLookback)
    ensures var w := EffectiveWindow(|values|, recordsToAverage, enforceLookback);
            RollingAverages(values, recordsToAverage, enforceLookback, Some(weights[..w]))
              == RollingAverages(values, recordsToAverage, enforceLookback, Some(weights))
  {
    var w := EffectiveWindow(|values|, recordsToAverage, enforceLookback);
    forall i | 0 <= i < |values| && w >= 1
      ensures WeightedMean(values, i, w, weights[..w]) == WeightedMean(values, i, w, weights)
    {
      TrimmedWeightedMean(values, i, w, weights);
    }
    SameAveragesSameOutput(values, recordsToAverage, enforceLookback, Some(weights[..w]), Some(weights));
  }

  /** Two weights settings that give the same average at every index give the same output. */
  lemma SameAveragesSameOutput(values: seq<real>, recordsToAverage: Option<nat>, enforceLookback: bool,
                               a: Option<seq<real>>, b: Option<seq<real>>)
    requires ValidWindow(recordsToAverage)
    requires var w := EffectiveWindow(|values|, recordsToAverage, enforceLookback);
             forall i :: 0 <= i < |values| && w >= 1 ==> Average(values, i, w, a) == Average(values, i, w, b)
    ensures RollingAverages(values, recordsToAverage, enforceLookback, a)
         == RollingAverages(values, recordsToAverage, enforceLookback, b)
  {
    var ra := RollingAverages(values, recordsToAverage, enforceLookback, a);
    var rb := RollingAverages(values, recordsToAverage, enforceLookback, b);
    assert |ra| == |rb|;
    forall k | 0 <= k < |ra| ensures ra[k] == rb[k] {
    }
  }

  /** A weight of zero counts as a missing weight: it leaves its value unmultiplied. */
  lemma ZeroWeightActsAsOne(values: seq<real>, recordsToAverage: Option<nat>, enforceLookback: bool,
                            weights: seq<real>, j: nat)
    requires ValidWindow(recordsToAverage)
    requires j < |weights| && weights[j] == 0.0
    ensures RollingAverages(values, recordsToAverage, enforceLookback, Some(weights))
         == RollingAverages(values, recordsToAverage, enforceLookback, Some(weights[j := 1.0]))
  {
    var w := EffectiveWindow(|values|, recordsToAverage, enforceLookback);
    forall i | 0 <= i < |values| && w >= 1
      ensures WeightedMean(values, i, w, weights) == WeightedMean(values, i, w, weights[j := 1.0])
    {
      WeightedSumCongruent(values, i, weights, weights[j := 1.0], WindowCount(i, w));
    }
    SameAveragesSameOutput(values, recordsToAverage, enforceLookback, Some(weights), Some(weights[j := 1.0]));
  }

  /** An empty weights list takes the weighted path and agrees with the unweighted one. */
  lemma EmptyWeightsAgreeWithUnweighted(values: seq<real>, recordsToAverage: Option<nat>,
                                        enforceLookback: bool)
    requires ValidWindow(recordsToAverage)
    ensures RollingAverages(values, recordsToAverage, enforceLookback, Some([]))
         == RollingAverages(values, recordsToAverage, enforceLookback, None)
  {
    var w := EffectiveWindow(|values|, recordsToAverage, enforceLookback);
    forall i | 0 <= i < |values| && w >= 1
      ensures Average(values, i, w, Some([])) == Average(values, i, w, None)
    {
    }
    SameAveragesSameOutput(values, recordsToAverage, enforceLookback, Some([]), None);
  }

  /**
   * The averages are not normalised by the weights: when every slot of the
   * window carries the same non-zero weight m, the weighted average is m times
   * the plain one.
   */
  lemma UniformWeightsScale(values: seq<real>, i: nat, w: nat, weights: seq<real>, m: real)
    requires i < |values| && w >= 1
    requires m != 0.0 && |weights| >= WindowCount(i, w)
    requires forall j :: 0 <= j < |weights| ==> weights[j] == m
    ensures WeightedMean(values, i, w, weights) == m * WindowMean(values, i, w)
  {
    var c := WindowCount(i, w) as real;
    var t := Sum(Window(values, i, w));
    var s := WeightedSum(values, i, weights, WindowCount(i, w));
    UniformWeightsSum(values, i, w, weights, m);
    var a := WeightedMean(values, i, w, weights);
    var b := WindowMean(values, i, w);
    assert a == s / c;
    assert b == t / c;
    ScaledQuotient(m, t, s, c, a, b);
  }

  /**
   * With every slot weighted m, the weighted sum of the window is m times its
   * plain sum.  The proof is not by induction; automatic induction is switched
   * off because the hypothesis it would add over Window and WindowCount only
   * slows the solver down.
   */
  lemma {:induction false} UniformWeightsSum(values: seq<real>, i: nat, w: nat, weights: seq<real>, m: real)
    requires i < |values| && w >= 1
    requires m != 0.0 && |weights| >= WindowCount(i, w)
    requires forall j :: 0 <= j < |weights| ==> weights[j] == m
    ensures WeightedSum(values, i, weights, WindowCount(i, w)) == m * Sum(Window(values, i, w))
  {
    var c := WindowCount(i, w);
    WeightedSumConstant(values, i, weights, c, m);
    assert values[i + 1 - c .. i + 1] == Window(values, i, w);
  }

  /** Dividing a scaled total by c scales the quotient: if s = m * t, then s / c = m * (t / c). */
  lemma ScaledQuotient(m: real, t: real, s: real, c: real, a: real, b: real)
    requires c != 0.0 && s == m * t && a == s / c && b == t / c
    ensures a == m * b
  {
  }

  /** A window of one value, without weights, reproduces the input, enforced or not. */
  lemma WindowOfOneIsIdentity(values: seq<real>, enforceLookback: bool)
    ensures RollingAverages(values, Some(1), enforceLookback, None) == values
  {
    var r := RollingAverages(values, Some(1), enforceLookback, None);
    var w := EffectiveWindow(|values|, Some(1), enforceLookback);
    if |values| > 0 {
      forall i | 0 <= i < |values| ensures WindowMean(values, i, 1) == values[i] {
        assert Window(values, i, 1) == [values[i]];
        assert Sum([values[i]]) == values[i] + Sum([]);
      }
      assert |r| == |values|;
      forall i | 0 <= i < |values| ensures r[i] == values[i] {
        if enforceLookback {
          assert r[i] == Average(values, i + w - 1, w, None);
        }
      }
    }
  }

  /** An empty input gives an empty output, whatever the settings. */
  lemma EmptyInput(recordsToAverage: Option<nat>, enforceLookback: bool, weights: Option<seq<real>>)
    requires ValidWindow(recordsToAverage)
    ensures RollingAverages([], recordsToAverage, enforceLookback, weights) == []
  {
  }
}
