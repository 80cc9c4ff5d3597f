/** Count-weighted statistics of one transverse bin: the `mean` and `std`
    of HistoNdProfile.update(). The source publishes the square root of the
    population variance; this model keeps the variance itself. */
module Statistics {
  import opened Strides
  import opened PrefixSums
  import opened RealArith

  /** Sum of `w[i] * v[i]`: the counts times the bin centres (line 111). */
  function WeightedSum(w: seq<real>, v: seq<real>): real
    requires |w| == |v|
    decreases |w|
  {
    if w == [] then 0.0 else w[0] * v[0] + WeightedSum(w[1..], v[1..])
  }

  /** The term one bin adds to the variance sum (line 116). */
  function Deviation(count: real, center: real, mu: real): real
  {
    (center - mu) * (center - mu) * count
  }

  /** Sum of `(v[i] - mu) * (v[i] - mu) * w[i]` (lines 114-118). */
  function SquaredDeviation(w: seq<real>, v: seq<real>, mu: real): real
    requires |w| == |v|
    decreases |w|
  {
    if w == [] then 0.0 else Deviation(w[0], v[0], mu) + SquaredDeviation(w[1..], v[1..], mu)
  }

  /** Count-weighted mean of the bin centres. */
  function Mean(w: seq<real>, v: seq<real>): real
    requires |w| == |v| && Sum(w) > 0.0
  {
    WeightedSum(w, v) / Sum(w)
  }

  /** Population variance of the bin centres around their weighted mean
      (the divisor is the number of entries, not one less). */
  function Variance(w: seq<real>, v: seq<real>): real
    requires |w| == |v| && Sum(w) > 0.0
  {
    SquaredDeviation(w, v, Mean(w, v)) / Sum(w)
  }

  function Min(v: seq<real>): (m: real)
    requires |v| > 0
    ensures forall i :: 0 <= i < |v| ==> m <= v[i]
    ensures exists i :: 0 <= i < |v| && m == v[i]
    decreases |v|
  {
    if |v| == 1 then v[0]
    else
      var m := Min(v[1..]);
      if v[0] < m then v[0] else m
  }

  function Max(v: seq<real>): (m: real)
    requires |v| > 0
    ensures forall i :: 0 <= i < |v| ==> v[i] <= m
    ensures exists i :: 0 <= i < |v| && m == v[i]
    decreases |v|
  {
    if |v| == 1 then v[0]
    else
      var m := Max(v[1..]);
      if m < v[0] then v[0] else m
  }

  /** With non-negative weights, values within `[lo, hi]` give a weighted sum
      within `[lo * Sum(w), hi * Sum(w)]`. */
  lemma {:induction false} WeightedSumBounds(w: seq<real>, v: seq<real>, lo: real, hi: real)
    requires |w| == |v| && NonNegative(w)
    requires forall i :: 0 <= i < |v| ==> lo <= v[i] <= hi
    ensures lo * Sum(w) <= WeightedSum(w, v) <= hi * Sum(w)
    decreases |w|
  {
    if w != [] {
      WeightedSumBounds(w[1..], v[1..], lo, hi);
      BoundsStep(Sum(w[1..]), Sum(w), WeightedSum(w[1..], v[1..]), WeightedSum(w, v), lo, hi, w[0], v[0]);
    } else {
      ScaleZero(lo);
      ScaleZero(hi);
    }
  }

  lemma ScaleZero(k: real)
    ensures k * 0.0 == 0.0
  {
  }

  lemma BoundsStep(total: real, total': real, weighted: real, weighted': real,
                   lo: real, hi: real, w: real, v: real)
    requires lo * total <= weighted <= hi * total
    requires w >= 0.0 && lo <= v <= hi
    requires total' == w + total && weighted' == w * v + weighted
    ensures lo * total' <= weighted' <= hi * total'
  {
    assert (v - lo) * w >= 0.0;
    assert (hi - v) * w >= 0.0;
  }

  lemma DivideBounds(weighted: real, total: real, lo: real, hi: real)
    requires total > 0.0 && lo * total <= weighted <= hi * total
    ensures lo <= weighted / total <= hi
  {
    var q := weighted / total;
    assert q * total == weighted;
    assert (q - lo) * total >= 0.0;
    assert (hi - q) * total >= 0.0;
  }

  /** Centres within `[lo, hi]` give a weighted mean within `[lo, hi]`. */
  lemma MeanBounds(w: seq<real>, v: seq<real>, lo: real, hi: real)
    requires |w| == |v| && NonNegative(w) && Sum(w) > 0.0
    requires forall i :: 0 <= i < |v| ==> lo <= v[i] <= hi
    ensures lo <= Mean(w, v) <= hi
  {
    var weighted, total := WeightedSum(w, v), Sum(w);
    WeightedSumBounds(w, v, lo, hi);
    DivideBounds(weighted, total, lo, hi);
  }

  /** The weighted mean lies between the smallest and the largest bin centre. */
  lemma MeanWithinCenters(w: seq<real>, v: seq<real>)
    requires |w| == |v| > 0 && NonNegative(w) && Sum(w) > 0.0
    ensures Min(v) <= Mean(w, v) <= Max(v)
  {
    MeanBounds(w, v, Min(v), Max(v));
  }

  lemma {:induction false} SquaredDeviationNonNegative(w: seq<real>, v: seq<real>, mu: real)
    requires |w| == |v| && NonNegative(w)
    ensures SquaredDeviation(w, v, mu) >= 0.0
    decreases |w|
  {
    if w != [] {
      SquaredDeviationNonNegative(w[1..], v[1..], mu);
      SquareTimesWeight(v[0] - mu, w[0]);
    }
  }

  lemma SquareTimesWeight(e: real, w: real)
    requires w >= 0.0
    ensures e * e * w >= 0.0
  {
    assert e * e >= 0.0;
  }

  /** The variance under the source's square root is never negative, so
      `std` is never NaN when `entries > 0`. */
  lemma VarianceNonNegative(w: seq<real>, v: seq<real>)
    requires |w| == |v| && NonNegative(w) && Sum(w) > 0.0
    ensures Variance(w, v) >= 0.0
  {
    var dev := SquaredDeviation(w, v, Mean(w, v));
    SquaredDeviationNonNegative(w, v, Mean(w, v));
    NonNegativeQuotient(dev, Sum(w));
  }


  /** One iteration of the mean loop: the walks from `y` start with the count
      and the centre at `base + y`. */
  lemma WeightedStep(a: seq<real>, c: seq<real>, base: nat, y: nat, step: nat, high: nat, i: nat, acc: real)
    requires |a| == |c| && step > 0 && y < high && InBounds(|a|, base, y, step, high) && i == base + y
    ensures i < |a| && InBounds(|a|, base, y + step, step, high)
    ensures acc + WeightedSum(Walk(a, base, y, step, high), Walk(c, base, y, step, high))
         == (acc + a[i] * c[i]) + WeightedSum(Walk(a, base, y + step, step, high), Walk(c, base, y + step, step, high))
  {
    WalkUnfold(a, base, y, step, high, i);
    WalkUnfold(c, base, y, step, high, i);
  }

  /** One iteration of the variance loop. */
  lemma DeviationStep(a: seq<real>, c: seq<real>, base: nat, y: nat, step: nat, high: nat, i: nat,
                      mu: real, acc: real)
    requires |a| == |c| && step > 0 && y < high && InBounds(|a|, base, y, step, high) && i == base + y
    ensures i < |a| && InBounds(|a|, base, y + step, step, high)
    ensures acc + SquaredDeviation(Walk(a, base, y, step, high), Walk(c, base, y, step, high), mu)
         == (acc + Deviation(a[i], c[i], mu))
            + SquaredDeviation(Walk(a, base, y + step, step, high), Walk(c, base, y + step, step, high), mu)
  {
    WalkUnfold(a, base, y, step, high, i);
    WalkUnfold(c, base, y, step, high, i);
  }

  /** The first `y` loop of the `entries > 0` branch (lines 109-113): the
      count-weighted sum of the centres, divided by `entries`. */
  method WeightedMeanAlongAxis(binCount: seq<real>, binCenters: seq<real>, x: nat, z: nat,
                               strideLow: nat, strideHigh: nat, entries: real)
    returns (mean: real)
    requires |binCenters| == |binCount| && strideLow > 0
    requires InBounds(|binCount|, x + z, 0, strideLow, strideHigh)
    requires entries == Sum(AxisSlice(binCount, x, z, strideLow, strideHigh)) && entries > 0.0
    ensures mean == Mean(AxisSlice(binCount, x, z, strideLow, strideHigh),
                         AxisSlice(binCenters, x, z, strideLow, strideHigh))
  {
    mean := 0.0;
    var y := 0;
    while y < strideHigh
      invariant InBounds(|binCount|, x + z, y, strideLow, strideHigh)
      invariant mean + WeightedSum(Walk(binCount, x + z, y, strideLow, strideHigh),
                                   Walk(binCenters, x + z, y, strideLow, strideHigh))
             == WeightedSum(AxisSlice(binCount, x, z, strideLow, strideHigh),
                            AxisSlice(binCenters, x, z, strideLow, strideHigh))
      decreases strideHigh - y
    {
      WeightedStep(binCount, binCenters, x + z, y, strideLow, strideHigh, x + y + z, mean);
      mean := mean + binCount[x + y + z] * binCenters[x + y + z];
      y := y + strideLow;
    }
    mean := mean / entries;
  }

  /** The second `y` loop (lines 114-118): the count-weighted squared deviation
      from `mean`, divided by `entries`. Line 119 then takes its square root. */
  method VarianceAlongAxis(binCount: seq<real>, binCenters: seq<real>, x: nat, z: nat,
                           strideLow: nat, strideHigh: nat, entries: real, mean: real)
    returns (variance: real)
    requires |binCenters| == |binCount| && strideLow > 0
    requires InBounds(|binCount|, x + z, 0, strideLow, strideHigh)
    requires entries == Sum(AxisSlice(binCount, x, z, strideLow, strideHigh)) && entries > 0.0
    requires mean == Mean(AxisSlice(binCount, x, z, strideLow, strideHigh),
                          AxisSlice(binCenters, x, z, strideLow, strideHigh))
    ensures variance == Variance(AxisSlice(binCount, x, z, strideLow, strideHigh),
                                 AxisSlice(binCenters, x, z, strideLow, strideHigh))
  {
    variance := 0.0;
    var y := 0;
    while y < strideHigh
      invariant InBounds(|binCount|, x + z, y, strideLow, strideHigh)
      invariant variance + SquaredDeviation(Walk(binCount, x + z, y, strideLow, strideHigh),
                                            Walk(binCenters, x + z, y, strideLow, strideHigh), mean)
             == SquaredDeviation(AxisSlice(binCount, x, z, strideLow, strideHigh),
                                 AxisSlice(binCenters, x, z, strideLow, strideHigh), mean)
      decreases strideHigh - y
    {
      DeviationStep(binCount, binCenters, x + z, y, strideLow, strideHigh, x + y + z, mean, variance);
      variance := variance + Deviation(binCount[x + y + z], binCenters[x + y + z], mean);
      y := y + strideLow;
    }
    variance := variance / entries;
  }
}
