/** Worked examples on a one-dimensional histogram with bins `[0, 1)`,
    `[1, 2)` and `[2, 3)` holding 1, 3 and 1 entries. */
module Examples {
  import opened Options
  import opened PrefixSums
  import opened Quantiles
  import opened RangeIntegral

  /** The cumulative histogram is `[1, 4, 5]` with 5 entries. */
  lemma ExampleCumulative()
    ensures Cumulative([1.0, 3.0, 1.0]) == [1.0, 4.0, 5.0]
    ensures Sum([1.0, 3.0, 1.0]) == 5.0
  {
    assert [1.0, 3.0, 1.0][1..] == [3.0, 1.0];
    assert [3.0, 1.0][1..] == [1.0];
  }

  /** The median target 2.5 falls in the second step (`low = 1`, `high = 4`),
      so `m = 0.5` and the median is `1 * 0.5 + 2 * 0.5 = 1.5`; a negative
      fraction is NaN and the fraction 1 is never reached. */
  lemma ExampleQuantiles()
    ensures QuantileValues([-1.0, 0.5, 1.0], 5.0, [1.0, 4.0, 5.0], [0.0, 1.0, 2.0], [1.0, 2.0, 3.0])
         == [None, Some(1.5), None]
  {
    var targets := Targets([-1.0, 0.5, 1.0], 5.0);
    assert LeadingNegatives([-1.0, 0.5, 1.0], 0) == 1;
    assert targets[1] == 2.5 && targets[2] == 5.0;
    assert FirstAbove([1.0, 4.0, 5.0], 2.5, 0) == Some(1);
    assert FirstAbove([1.0, 4.0, 5.0], 5.0, 1) == None;
  }

  /** The range `[0, 2]` covers the first two bins: 4 entries, 0.8 of the total. */
  lemma ExampleRangeSum()
    ensures BoxSum([1.0, 4.0, 5.0], 5.0, 0.0, 3.0, Box(0.0, 2.0)) == Some(4.0)
    ensures Normed(Some(4.0), 5.0) == Some(0.8)
  {
    assert StepIndex(3, 0.0, 3.0, 2.0) == 2.0;
    assert StepIndex(3, 0.0, 3.0, 0.0) == 0.0;
    assert (2.0).Floor == 2;
    assert Cdf([1.0, 4.0, 5.0], 5.0, 2.0) == 4.0;
  }
}
