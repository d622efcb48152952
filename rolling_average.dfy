/**
 * The rollingAverage collection macro as a standalone method: it walks the
 * input once, either keeping a running buffer of the most recent values
 * (no weights) or slicing, reversing and multiplying the window slot by slot
 * (weights given), and under enforced lookback drops the leading averages
 * that lack a full window.
 */
module CollectionRollingAverage {
  import opened Wrappers
  import opened Averages

  method RollingAverage(values: seq<real>, recordsToAverage: Option<nat>, enforceLookback: bool,
                        weights: Option<seq<real>>)
    returns (averages: seq<real>)
    requires ValidWindow(recordsToAverage)
    ensures averages == RollingAverages(values, recordsToAverage, enforceLookback, weights)
  {
    var n := |values|;
    // Resolve the effective window.
    var window: nat;
    if recordsToAverage.None? || (recordsToAverage.value > n && !enforceLookback) {
      window := n;
    } else {
      window := recordsToAverage.value;
    }
    assert window == EffectiveWindow(n, recordsToAverage, enforceLookback);
    // There should be no more weights than values to average: trim them.
    var trimmed := weights;
    if trimmed.Some? && |trimmed.value| > window {
      trimmed := Some(trimmed.value[..window]);
    }
    // A forced lookback over more values than there are: nothing to report.
    if enforceLookback && window > n {
      return [];
    }

    var rolling: seq<real> := [];
    averages := [];
    for index := 0 to n
      invariant |averages| == index
      invariant n > 0 ==> window >= 1
      invariant trimmed.Some? <==> weights.Some?
      invariant forall i :: 0 <= i < index ==> averages[i] == Average(values, i, window, weights)
      invariant trimmed.None? ==> rolling == Recent(values, index, Min(index, window))
    {
      var value := values[index];
      var average: real;
      if trimmed.Some? {
        average := WeightedAverage(values, index, window, trimmed.value);
        if trimmed.value != weights.value {
          TrimmedWeightedMean(values, index, window, weights.value);
        }
      } else {
        // Simple average: prepend to the running buffer and keep the window's worth.
        BufferStep(values, index, window);
        var prepended := [value] + rolling;
        assert |prepended| == Min(index, window) + 1;
        rolling := prepended[..Min(|prepended|, window)];
        average := Mean(rolling);
      }
      assert average == Average(values, index, window, weights);
      averages := averages + [average];
    }

    ghost var all := averages;
    // Enforced lookback ignores the first window - 1 averages.  The window is 0
    // only for an empty input, whose averages are empty already.
    if enforceLookback && window >= 1 {
      averages := averages[window - 1 ..];
    }
    RetainedAverages(values, recordsToAverage, enforceLookback, weights, all);
  }

  /**
   * The weighted average at one index: the window is sliced, reversed so that
   * the current value comes first, each value multiplied by the weight for its
   * slot (or by nothing when that weight is missing or zero), and the products
   * averaged.
   */
  method WeightedAverage(values: seq<real>, index: nat, window: nat, weights: seq<real>)
    returns (average: real)
    requires index < |values| && window >= 1
    ensures average == WeightedMean(values, index, window, weights)
  {
    var startingPoint := WindowStart(index, window);
    var recordsToTake := Min(index + 1, window);
    var weighted := Reversed(values[startingPoint .. startingPoint + recordsToTake]);
    var weightedAverage: seq<real> := [];
    for weightIndex := 0 to |weighted|
      invariant |weightedAverage| == weightIndex
      invariant Sum(weightedAverage) == WeightedSum(values, index, weights, weightIndex)
    {
      var item := weighted[weightIndex];
      assert item == values[index - weightIndex];
      if weightIndex < |weights| && weights[weightIndex] != 0.0 {
        weightedAverage := [weights[weightIndex] * item] + weightedAverage;
      } else {
        weightedAverage := [item] + weightedAverage;
      }
    }
    average := Mean(weightedAverage);
  }
}
