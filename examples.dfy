/** The hand-worked cases of the repository's tests, as facts about RollingAverages. */
module RollingAverageExamples {
  import opened Wrappers
  import opened Averages

  lemma WithoutLimit()
    ensures RollingAverages([1.0, 2.0, 3.0], None, false, None)
         == [1.0, 1.5, 2.0]
  {
    var values := [1.0, 2.0, 3.0];
    var r := RollingAverages([1.0, 2.0, 3.0], None, false, None);
    assert EffectiveWindow(3, None, false) == 3;
    assert Window(values, 0, 3) == [1.0];
    assert Sum([1.0]) == 1.0;
    assert r[0] == Average(values, 0, 3, None) == 1.0;
    assert Window(values, 1, 3) == [1.0, 2.0];
    assert Sum([1.0, 2.0]) == 3.0;
    assert Sum([2.0]) == 2.0;
    assert r[1] == Average(values, 1, 3, None) == 1.5;
    assert Window(values, 2, 3) == [1.0, 2.0, 3.0];
    assert Sum([1.0, 2.0, 3.0]) == 6.0;
    assert Sum([2.0, 3.0]) == 5.0;
    assert Sum([3.0]) == 3.0;
    assert r[2] == Average(values, 2, 3, None) == 2.0;
    assert |r| == 3;
  }

  lemma WithLookbackLimit()
    ensures RollingAverages([1.0, 2.0, 3.0, 4.0, 5.0, 6.0], Some(2), false, None)
         == [1.0, 1.5, 2.5, 3.5, 4.5, 5.5]
  {
    var values := [1.0, 2.0, 3.0, 4.0, 5.0, 6.0];
    var r := RollingAverages([1.0, 2.0, 3.0, 4.0, 5.0, 6.0], Some(2), false, None);
    assert EffectiveWindow(6, Some(2), false) == 2;
    assert Window(values, 0, 2) == [1.0];
    assert Sum([1.0]) == 1.0;
    assert r[0] == Average(values, 0, 2, None) == 1.0;
    assert Window(values, 1, 2) == [1.0, 2.0];
    assert Sum([1.0, 2.0]) == 3.0;
    assert Sum([2.0]) == 2.0;
    assert r[1] == Average(values, 1, 2, None) == 1.5;
    assert Window(values, 2, 2) == [2.0, 3.0];
    assert Sum([2.0, 3.0]) == 5.0;
    assert Sum([3.0]) == 3.0;
    assert r[2] == Average(values, 2, 2, None) == 2.5;
    assert Window(values, 3, 2) == [3.0, 4.0];
    assert Sum([3.0, 4.0]) == 7.0;
    assert Sum([4.0]) == 4.0;
    assert r[3] == Average(values, 3, 2, None) == 3.5;
    assert Window(values, 4, 2) == [4.0, 5.0];
    assert Sum([4.0, 5.0]) == 9.0;
    assert Sum([5.0]) == 5.0;
    assert r[4] == Average(values, 4, 2, None) == 4.5;
    assert Window(values, 5, 2) == [5.0, 6.0];
    assert Sum([5.0, 6.0]) == 11.0;
    assert Sum([6.0]) == 6.0;
    assert r[5] == Average(values, 5, 2, None) == 5.5;
    assert |r| == 6;
  }

  lemma WithLookbackLimitLargerThanSet()
    ensures RollingAverages([1.0, 2.0, 3.0], Some(5), false, None)
         == [1.0, 1.5, 2.0]
  {
    var values := [1.0, 2.0, 3.0];
    var r := RollingAverages([1.0, 2.0, 3.0], Some(5), false, None);
    assert EffectiveWindow(3, Some(5), false) == 3;
    assert Window(values, 0, 3) == [1.0];
    assert Sum([1.0]) == 1.0;
    assert r[0] == Average(values, 0, 3, None) == 1.0;
    assert Window(values, 1, 3) == [1.0, 2.0];
    assert Sum([1.0, 2.0]) == 3.0;
    assert Sum([2.0]) == 2.0;
    assert r[1] == Average(values, 1, 3, None) == 1.5;
    assert Window(values, 2, 3) == [1.0, 2.0, 3.0];
    assert Sum([1.0, 2.0, 3.0]) == 6.0;
    assert Sum([2.0, 3.0]) == 5.0;
    assert Sum([3.0]) == 3.0;
    assert r[2] == Average(values, 2, 3, None) == 2.0;
    assert |r| == 3;
  }

  lemma EnforcedLookbackReturnsSmallerSet()
    ensures RollingAverages([1.0, 2.0, 3.0, 4.0, 5.0, 6.0], Some(3), true, None)
         == [2.0, 3.0, 4.0, 5.0]
  {
    var values := [1.0, 2.0, 3.0, 4.0, 5.0, 6.0];
    var r := RollingAverages([1.0, 2.0, 3.0, 4.0, 5.0, 6.0], Some(3), true, None);
    assert EffectiveWindow(6, Some(3), true) == 3;
    assert Window(values, 2, 3) == [1.0, 2.0, 3.0];
    assert Sum([1.0, 2.0, 3.0]) == 6.0;
    assert Sum([2.0, 3.0]) == 5.0;
    assert Sum([3.0]) == 3.0;
    assert r[0] == Average(values, 2, 3, None) == 2.0;
    assert Window(values, 3, 3) == [2.0, 3.0, 4.0];
    assert Sum([2.0, 3.0, 4.0]) == 9.0;
    assert Sum([3.0, 4.0]) == 7.0;
    assert Sum([4.0]) == 4.0;
    assert r[1] == Average(values, 3, 3, None) == 3.0;
    assert Window(values, 4, 3) == [3.0, 4.0, 5.0];
    assert Sum([3.0, 4.0, 5.0]) == 12.0;
    assert Sum([4.0, 5.0]) == 9.0;
    assert Sum([5.0]) == 5.0;
    assert r[2] == Average(values, 4, 3, None) == 4.0;
    assert Window(values, 5, 3) == [4.0, 5.0, 6.0];
    assert Sum([4.0, 5.0, 6.0]) == 15.0;
    assert Sum([5.0, 6.0]) == 11.0;
    assert Sum([6.0]) == 6.0;
    assert r[3] == Average(values, 5, 3, None) == 5.0;
    assert |r| == 4;
  }

  lemma EnforcedLookbackLargerThanSet()
    ensures RollingAverages([1.0, 2.0, 3.0], Some(4), true, None)
         == []
  {
    var values := [1.0, 2.0, 3.0];
    var r := RollingAverages([1.0, 2.0, 3.0], Some(4), true, None);
    assert EffectiveWindow(3, Some(4), true) == 4;
  }

  lemma WeightsShorterThanWindow()
    ensures RollingAverages([1.0, 2.0, 2.0, 4.0, 5.0, 6.0], Some(4), false, Some([5.0, 2.0]))
         == [5.0, 6.0, 5.0, 6.75, 9.25, 11.5]
  {
    var values := [1.0, 2.0, 2.0, 4.0, 5.0, 6.0];
    var weights := [5.0, 2.0];
    var r := RollingAverages([1.0, 2.0, 2.0, 4.0, 5.0, 6.0], Some(4), false, Some([5.0, 2.0]));
    assert EffectiveWindow(6, Some(4), false) == 4;
    assert WeightedSum(values, 0, weights, 1) == 5.0;
    assert r[0] == Average(values, 0, 4, Some(weights)) == 5.0;
    assert WeightedSum(values, 1, weights, 1) == 10.0;
    assert WeightedSum(values, 1, weights, 2) == 12.0;
    assert r[1] == Average(values, 1, 4, Some(weights)) == 6.0;
    assert WeightedSum(values, 2, weights, 1) == 10.0;
    assert WeightedSum(values, 2, weights, 2) == 14.0;
    assert WeightedSum(values, 2, weights, 3) == 15.0;
    assert r[2] == Average(values, 2, 4, Some(weights)) == 5.0;
    assert WeightedSum(values, 3, weights, 1) == 20.0;
    assert WeightedSum(values, 3, weights, 2) == 24.0;
    assert WeightedSum(values, 3, weights, 3) == 26.0;
    assert WeightedSum(values, 3, weights, 4) == 27.0;
    assert r[3] == Average(values, 3, 4, Some(weights)) == 6.75;
    assert WeightedSum(values, 4, weights, 1) == 25.0;
    assert WeightedSum(values, 4, weights, 2) == 33.0;
    assert WeightedSum(values, 4, weights, 3) == 35.0;
    assert WeightedSum(values, 4, weights, 4) == 37.0;
    assert r[4] == Average(values, 4, 4, Some(weights)) == 9.25;
    assert WeightedSum(values, 5, weights, 1) == 30.0;
    assert WeightedSum(values, 5, weights, 2) == 40.0;
    assert WeightedSum(values, 5, weights, 3) == 44.0;
    assert WeightedSum(values, 5, weights, 4) == 46.0;
    assert r[5] == Average(values, 5, 4, Some(weights)) == 11.5;
    assert |r| == 6;
  }

  lemma WeightsLongerThanInput()
    ensures RollingAverages([1.0, 2.0, 3.0], Some(4), false, Some([5.0, 2.0, 2.0, 2.0]))
         == [5.0, 6.0, 7.0]
  {
    var values := [1.0, 2.0, 3.0];
    var weights := [5.0, 2.0, 2.0, 2.0];
    var r := RollingAverages([1.0, 2.0, 3.0], Some(4), false, Some([5.0, 2.0, 2.0, 2.0]));
    assert EffectiveWindow(3, Some(4), false) == 3;
    assert WeightedSum(values, 0, weights, 1) == 5.0;
    assert r[0] == Average(values, 0, 3, Some(weights)) == 5.0;
    assert WeightedSum(values, 1, weights, 1) == 10.0;
    assert WeightedSum(values, 1, weights, 2) == 12.0;
    assert r[1] == Average(values, 1, 3, Some(weights)) == 6.0;
    assert WeightedSum(values, 2, weights, 1) == 15.0;
    assert WeightedSum(values, 2, weights, 2) == 19.0;
    assert WeightedSum(values, 2, weights, 3) == 21.0;
    assert r[2] == Average(values, 2, 3, Some(weights)) == 7.0;
    assert |r| == 3;
  }

  lemma WeightsShorterThanWindowEnforced()
    ensures RollingAverages([1.0, 2.0, 2.0, 4.0, 5.0, 6.0], Some(4), true, Some([5.0, 2.0]))
         == [6.75, 9.25, 11.5]
  {
    var values := [1.0, 2.0, 2.0, 4.0, 5.0, 6.0];
    var weights := [5.0, 2.0];
    var r := RollingAverages([1.0, 2.0, 2.0, 4.0, 5.0, 6.0], Some(4), true, Some([5.0, 2.0]));
    assert EffectiveWindow(6, Some(4), true) == 4;
    assert WeightedSum(values, 3, weights, 1) == 20.0;
    assert WeightedSum(values, 3, weights, 2) == 24.0;
    assert WeightedSum(values, 3, weights, 3) == 26.0;
    assert WeightedSum(values, 3, weights, 4) == 27.0;
    assert r[0] == Average(values, 3, 4, Some(weights)) == 6.75;
    assert WeightedSum(values, 4, weights, 1) == 25.0;
    assert WeightedSum(values, 4, weights, 2) == 33.0;
    assert WeightedSum(values, 4, weights, 3) == 35.0;
    assert WeightedSum(values, 4, weights, 4) == 37.0;
    assert r[1] == Average(values, 4, 4, Some(weights)) == 9.25;
    assert WeightedSum(values, 5, weights, 1) == 30.0;
    assert WeightedSum(values, 5, weights, 2) == 40.0;
    assert WeightedSum(values, 5, weights, 3) == 44.0;
    assert WeightedSum(values, 5, weights, 4) == 46.0;
    assert r[2] == Average(values, 5, 4, Some(weights)) == 11.5;
    assert |r| == 3;
  }

  lemma WeightsLongerThanWindowEnforced()
    ensures RollingAverages([1.0, 2.0, 3.0, 1.0, 2.0, 3.0], Some(3), true, Some([5.0, 2.0, 2.0, 2.0, 3.0, 4.0]))
         == [7.0, 5.0, 6.0, 7.0]
  {
    var values := [1.0, 2.0, 3.0, 1.0, 2.0, 3.0];
    var weights := [5.0, 2.0, 2.0, 2.0, 3.0, 4.0];
    var r := RollingAverages([1.0, 2.0, 3.0, 1.0, 2.0, 3.0], Some(3), true, Some([5.0, 2.0, 2.0, 2.0, 3.0, 4.0]));
    assert EffectiveWindow(6, Some(3), true) == 3;
    assert WeightedSum(values, 2, weights, 1) == 15.0;
    assert WeightedSum(values, 2, weights, 2) == 19.0;
    assert WeightedSum(values, 2, weights, 3) == 21.0;
    assert r[0] == Average(values, 2, 3, Some(weights)) == 7.0;
    assert WeightedSum(values, 3, weights, 1) == 5.0;
    assert WeightedSum(values, 3, weights, 2) == 11.0;
    assert WeightedSum(values, 3, weights, 3) == 15.0;
    assert r[1] == Average(values, 3, 3, Some(weights)) == 5.0;
    assert WeightedSum(values, 4, weights, 1) == 10.0;
    assert WeightedSum(values, 4, weights, 2) == 12.0;
    assert WeightedSum(values, 4, weights, 3) == 18.0;
    assert r[2] == Average(values, 4, 3, Some(weights)) == 6.0;
    assert WeightedSum(values, 5, weights, 1) == 15.0;
    assert WeightedSum(values, 5, weights, 2) == 19.0;
    assert WeightedSum(values, 5, weights, 3) == 21.0;
    assert r[3] == Average(values, 5, 3, Some(weights)) == 7.0;
    assert |r| == 4;
  }
}
