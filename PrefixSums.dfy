/** Prefix sums of the counts along the profile axis: the `entries` counter
    and the `cumulative_histogram` array of HistoNdProfile.update(). */
module PrefixSums {
  import opened Strides

  /** Total of `s`. */
  function Sum(s: seq<real>): real
    decreases |s|
  {
    if s == [] then 0.0 else s[0] + Sum(s[1..])
  }

  /** The values that `entries += s[i]; cumulative.push(entries)` pushes,
      starting from `entries == acc`. */
  function RunningTotals(acc: real, s: seq<real>): (r: seq<real>)
    ensures |r| == |s|
    decreases |s|
  {
    if s == [] then [] else [acc + s[0]] + RunningTotals(acc + s[0], s[1..])
  }

  /** The cumulative histogram of `s`. */
  function Cumulative(s: seq<real>): (c: seq<real>)
    ensures |c| == |s|
  {
    RunningTotals(0.0, s)
  }

  /** The running total before profile step `j` (zero before the first). */
  function Low(cumulative: seq<real>, j: nat): real
    requires j <= |cumulative|
  {
    if j == 0 then 0.0 else cumulative[j - 1]
  }

  predicate NonNegative(s: seq<real>) {
    forall i :: 0 <= i < |s| ==> s[i] >= 0.0
  }

  /** Non-decreasing and starting at or above zero: the shape of a CDF. */
  predicate NonDecreasingFromZero(c: seq<real>) {
    (|c| > 0 ==> c[0] >= 0.0) &&
    forall i, j :: 0 <= i <= j < |c| ==> c[i] <= c[j]
  }

  lemma {:induction false} SumConcat(s: seq<real>, t: seq<real>)
    ensures Sum(s + t) == Sum(s) + Sum(t)
    decreases |s|
  {
    if s != [] {
      assert (s + t)[1..] == s[1..] + t;
      SumConcat(s[1..], t);
    } else {
      assert s + t == t;
    }
  }

  /** The `i`-th running total is `acc` plus the sum of the first `i + 1` values. */
  lemma {:induction false} RunningTotalsAt(acc: real, s: seq<real>, i: nat)
    requires i < |s|
    ensures RunningTotals(acc, s)[i] == acc + Sum(s[..i + 1])
    decreases i
  {
    if i > 0 {
      RunningTotalsAt(acc + s[0], s[1..], i - 1);
      assert s[..i + 1][1..] == s[1..][..i];
    } else {
      assert s[..1][1..] == [];
    }
  }

  /** `Cumulative(s)[i]` is the total of the first `i + 1` counts. */
  lemma CumulativeAt(s: seq<real>, i: nat)
    requires i < |s|
    ensures Cumulative(s)[i] == Sum(s[..i + 1])
  {
    RunningTotalsAt(0.0, s, i);
  }

  lemma {:induction false} RunningTotalsLast(acc: real, s: seq<real>)
    requires |s| > 0
    ensures RunningTotals(acc, s)[|s| - 1] == acc + Sum(s)
    decreases |s|
  {
    if |s| > 1 {
      RunningTotalsLast(acc + s[0], s[1..]);
    }
  }

  /** The last prefix sum is the total. */
  lemma CumulativeLast(s: seq<real>)
    requires |s| > 0
    ensures Cumulative(s)[|s| - 1] == Sum(s)
  {
    RunningTotalsLast(0.0, s);
  }

  lemma {:induction false} SumNonNegative(s: seq<real>)
    requires NonNegative(s)
    ensures Sum(s) >= 0.0
    decreases |s|
  {
    if s != [] {
      SumNonNegative(s[1..]);
    }
  }

  /** With non-negative values the running totals never decrease, start at or
      above `acc` and end at most at `acc + Sum(s)`. */
  lemma {:induction false} RunningTotalsMonotone(acc: real, s: seq<real>)
    requires NonNegative(s)
    ensures forall i, j :: 0 <= i <= j < |s| ==>
      acc <= RunningTotals(acc, s)[i] <= RunningTotals(acc, s)[j] <= acc + Sum(s)
    decreases |s|
  {
    if s != [] {
      var r, t := RunningTotals(acc, s), RunningTotals(acc + s[0], s[1..]);
      RunningTotalsMonotone(acc + s[0], s[1..]);
      assert forall i :: 1 <= i < |s| ==> r[i] == t[i - 1];
      SumNonNegative(s[1..]);
    }
  }

  /** With non-negative counts the cumulative histogram is a CDF bounded by
      the total number of entries. */
  lemma CumulativeNonDecreasing(s: seq<real>)
    requires NonNegative(s)
    ensures NonDecreasingFromZero(Cumulative(s))
    ensures forall i :: 0 <= i < |s| ==> Cumulative(s)[i] <= Sum(s)
  {
    RunningTotalsMonotone(0.0, s);
    var c := Cumulative(s);
    forall i | 0 <= i < |s|
      ensures c[i] <= Sum(s)
    {
      assert c[i] <= c[|s| - 1];
    }
  }

  /** One iteration of the accumulation loop: the walk from `y` is the count
      at `base + y` followed by the walk from `y + step`. */
  lemma AccumulateStep(a: seq<real>, base: nat, y: nat, step: nat, high: nat, i: nat,
                       pushed: seq<real>, acc: real)
    requires step > 0 && y < high && InBounds(|a|, base, y, step, high) && i == base + y
    ensures i < |a| && InBounds(|a|, base, y + step, step, high)
    ensures pushed + RunningTotals(acc, Walk(a, base, y, step, high))
         == (pushed + [acc + a[i]]) + RunningTotals(acc + a[i], Walk(a, base, y + step, step, high))
    ensures acc + Sum(Walk(a, base, y, step, high)) == (acc + a[i]) + Sum(Walk(a, base, y + step, step, high))
  {
    var rest := Walk(a, base, y + step, step, high);
    assert Walk(a, base, y, step, high) == [a[i]] + rest;
    assert ([a[i]] + rest)[1..] == rest;
  }

  /** The first `y` loop of update() (lines 101-107): walks the bin that
      starts at `x + z`, adding each count to `entries` and pushing the
      running total. */
  method AccumulateAlongAxis(binCount: seq<real>, x: nat, z: nat, strideLow: nat, strideHigh: nat)
    returns (cumulative: seq<real>, entries: real)
    requires strideLow > 0 && InBounds(|binCount|, x + z, 0, strideLow, strideHigh)
    ensures cumulative == Cumulative(AxisSlice(binCount, x, z, strideLow, strideHigh))
    ensures entries == Sum(AxisSlice(binCount, x, z, strideLow, strideHigh))
  {
    cumulative := [];
    entries := 0.0;
    var y := 0;
    while y < strideHigh
      invariant InBounds(|binCount|, x + z, y, strideLow, strideHigh)
      invariant cumulative + RunningTotals(entries, Walk(binCount, x + z, y, strideLow, strideHigh))
             == Cumulative(AxisSlice(binCount, x, z, strideLow, strideHigh))
      invariant entries + Sum(Walk(binCount, x + z, y, strideLow, strideHigh))
             == Sum(AxisSlice(binCount, x, z, strideLow, strideHigh))
      decreases strideHigh - y
    {
      AccumulateStep(binCount, x + z, y, strideLow, strideHigh, x + y + z, cumulative, entries);
      entries := entries + binCount[x + y + z];
      cumulative := cumulative + [entries];
      y := y + strideLow;
    }
  }
}
