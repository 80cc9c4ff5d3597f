/** The quantile columns of HistoNdProfile.update() (lines 124-143): a single
    cursor walk over the cumulative histogram of one transverse bin that
    interpolates linearly inside the profile step where each quantile falls. */
module Quantiles {
  import opened Options
  import opened PrefixSums
  import opened RealArith

  /** The first profile step at or after `j` whose running total exceeds
      `target`, if any. */
  function FirstAbove(cumulative: seq<real>, target: real, j: nat): (r: Option<nat>)
    requires j <= |cumulative|
    ensures r.Some? ==> j <= r.value < |cumulative| && cumulative[r.value] > target
    ensures r.Some? ==> forall i :: j <= i < r.value ==> cumulative[i] <= target
    ensures r.None? ==> forall i :: j <= i < |cumulative| ==> cumulative[i] <= target
    decreases |cumulative| - j
  {
    if j == |cumulative| then None
    else if cumulative[j] > target then Some(j)
    else FirstAbove(cumulative, target, j + 1)
  }

  /** `m = (target - low) / (high - low)` and `left * (1 - m) + right * m`
      (lines 134-135). */
  function Interp(left: real, right: real, low: real, high: real, target: real): real
    requires high != low
  {
    var m := (target - low) / (high - low);
    left * (1.0 - m) + right * m
  }

  /** `None` once per remaining quantile: the NaN pushes. */
  function Nones(n: nat): (r: seq<Option<real>>)
    ensures |r| == n && forall i :: 0 <= i < n ==> r[i] == None
  {
    seq(n, _ => None)
  }

  /** `quantiles[k] * entries`: how many entries lie below each quantile. */
  function Targets(q: seq<real>, entries: real): (t: seq<real>)
    ensures |t| == |q| && forall k :: 0 <= k < |q| ==> t[k] == q[k] * entries
  {
    seq(|q|, k requires 0 <= k < |q| => q[k] * entries)
  }

  /** What the division at line 134 relies on: at step `j` the next target is
      at least `low`, or the step's total is above `low`. */
  predicate Ready(targets: seq<real>, cumulative: seq<real>, k: nat, j: nat)
    requires j <= |cumulative|
  {
    k < |targets| && j < |cumulative| ==> Low(cumulative, j) < cumulative[j] || Low(cumulative, j) <= targets[k]
  }

  /** The values the cursor walk pushes for quantiles `k, k + 1, ...` when it
      stands at profile step `j`: each target is interpolated in the first
      step at or after the cursor whose total exceeds it, and once one target
      finds no such step, it and all later ones are NaN. */
  function WalkFrom(targets: seq<real>, cumulative: seq<real>, edgesLeft: seq<real>,
                    edgesRight: seq<real>, k: nat, j: nat): (r: seq<Option<real>>)
    requires |cumulative| <= |edgesLeft| && |cumulative| <= |edgesRight|
    requires k <= |targets| && j <= |cumulative| && Ready(targets, cumulative, k, j)
    ensures |r| == |targets| - k
    decreases |targets| - k
  {
    if k == |targets| then []
    else
      match FirstAbove(cumulative, targets[k], j)
      case None => Nones(|targets| - k)
      case Some(b) =>
        [Some(Interp(edgesLeft[b], edgesRight[b], Low(cumulative, b), cumulative[b], targets[k]))]
        + WalkFrom(targets, cumulative, edgesLeft, edgesRight, k + 1, b)
  }

  /** The number of leading negative quantiles (lines 127-130). */
  function LeadingNegatives(q: seq<real>, k: nat): (n: nat)
    requires k <= |q|
    ensures k <= n <= |q| && (n < |q| ==> q[n] >= 0.0)
    ensures forall i :: k <= i < n ==> q[i] < 0.0
    decreases |q| - k
  {
    if k < |q| && q[k] < 0.0 then LeadingNegatives(q, k + 1) else k
  }

  /** After the leading negatives the walk starts at step 0 with `low == 0`
      and a non-negative target. */
  lemma FirstTargetNonNegative(q: seq<real>, entries: real, n: nat)
    requires entries >= 0.0 && n <= |q| && (n < |q| ==> q[n] >= 0.0)
    ensures n < |q| ==> Targets(q, entries)[n] >= 0.0
  {
    if n < |q| {
      ProductNonNegative(q[n], entries);
    }
  }

  /** The value pushed for every quantile of a bin with `entries > 0`, in
      quantile order, as the source computes it. */
  function QuantileValues(q: seq<real>, entries: real, cumulative: seq<real>,
                          edgesLeft: seq<real>, edgesRight: seq<real>): (r: seq<Option<real>>)
    requires entries > 0.0 && |cumulative| <= |edgesLeft| && |cumulative| <= |edgesRight|
    ensures |r| == |q|
  {
    var n := LeadingNegatives(q, 0);
    FirstTargetNonNegative(q, entries, n);
    Nones(n) + WalkFrom(Targets(q, entries), cumulative, edgesLeft, edgesRight, n, 0)
  }

  // ---- The quantile of one fraction on its own ----

  /** Interpolation in the first profile step whose total exceeds `target`. */
  function Located(cumulative: seq<real>, edgesLeft: seq<real>, edgesRight: seq<real>, target: real): Option<real>
    requires target >= 0.0 && |cumulative| <= |edgesLeft| && |cumulative| <= |edgesRight|
  {
    match FirstAbove(cumulative, target, 0)
    case None => None
    case Some(b) => Some(Interp(edgesLeft[b], edgesRight[b], Low(cumulative, b), cumulative[b], target))
  }

  /** The profile step in which fraction `q` of the entries is reached. */
  function QuantileBin(cumulative: seq<real>, entries: real, q: real): Option<nat>
  {
    if q < 0.0 then None else FirstAbove(cumulative, q * entries, 0)
  }

  /** The `q`-quantile of one bin, defined for each fraction independently. */
  function QuantileAt(cumulative: seq<real>, entries: real, edgesLeft: seq<real>, edgesRight: seq<real>,
                      q: real): (r: Option<real>)
    requires entries >= 0.0 && |cumulative| <= |edgesLeft| && |cumulative| <= |edgesRight|
    ensures r.Some? <==> QuantileBin(cumulative, entries, q).Some?
  {
    if q < 0.0 then None
    else
      ProductNonNegative(q, entries);
      Located(cumulative, edgesLeft, edgesRight, q * entries)
  }

  predicate Sorted(q: seq<real>) {
    forall i, j :: 0 <= i <= j < |q| ==> q[i] <= q[j]
  }

  lemma TargetsSorted(q: seq<real>, entries: real)
    requires Sorted(q) && entries >= 0.0
    ensures Sorted(Targets(q, entries))
  {
    var t := Targets(q, entries);
    forall i, j | 0 <= i <= j < |t|
      ensures t[i] <= t[j]
    {
      ProductMonotone(q[i], q[j], entries);
    }
  }

  /** Skipping steps whose totals do not exceed the target does not change
      where the target is found. */
  lemma {:induction false} FirstAboveSkip(cumulative: seq<real>, target: real, i: nat, j: nat)
    requires i <= j <= |cumulative|
    requires forall l :: i <= l < j ==> cumulative[l] <= target
    ensures FirstAbove(cumulative, target, i) == FirstAbove(cumulative, target, j)
    decreases j - i
  {
    if i < j {
      FirstAboveSkip(cumulative, target, i + 1, j);
    }
  }

  /** A target above every running total stays so when it grows. */
  lemma NoneAbove(cumulative: seq<real>, target: real, target': real)
    requires target <= target' && FirstAbove(cumulative, target, 0).None?
    ensures FirstAbove(cumulative, target', 0).None?
  {
  }

  /** For sorted targets, the cursor walk from target `k` at step `j` locates
      every target as if it were located on its own. */
  lemma {:induction false} WalkFromSorted(targets: seq<real>, cumulative: seq<real>,
                                          edgesLeft: seq<real>, edgesRight: seq<real>, k: nat, j: nat)
    requires |cumulative| <= |edgesLeft| && |cumulative| <= |edgesRight|
    requires Sorted(targets) && k <= |targets| && j <= |cumulative| && Ready(targets, cumulative, k, j)
    requires k < |targets| ==> targets[k] >= 0.0
    requires k < |targets| ==> forall l :: 0 <= l < j ==> cumulative[l] <= targets[k]
    ensures forall i :: k <= i < |targets| ==>
      WalkFrom(targets, cumulative, edgesLeft, edgesRight, k, j)[i - k]
        == Located(cumulative, edgesLeft, edgesRight, targets[i])
    decreases |targets| - k
  {
    if k < |targets| {
      var r := WalkFrom(targets, cumulative, edgesLeft, edgesRight, k, j);
      FirstAboveSkip(cumulative, targets[k], 0, j);
      match FirstAbove(cumulative, targets[k], j)
      case None =>
        assert r == Nones(|targets| - k);
        forall i | k <= i < |targets|
          ensures Located(cumulative, edgesLeft, edgesRight, targets[i]) == None
        {
          NoneAbove(cumulative, targets[k], targets[i]);
        }
      case Some(b) =>
        WalkFromSorted(targets, cumulative, edgesLeft, edgesRight, k + 1, b);
    }
  }

  /** For sorted fractions the published quantiles are each fraction's own
      quantile. */
  lemma SortedQuantiles(q: seq<real>, entries: real, cumulative: seq<real>,
                        edgesLeft: seq<real>, edgesRight: seq<real>)
    requires entries > 0.0 && |cumulative| <= |edgesLeft| && |cumulative| <= |edgesRight| && Sorted(q)
    ensures forall i :: 0 <= i < |q| ==>
      QuantileValues(q, entries, cumulative, edgesLeft, edgesRight)[i]
        == QuantileAt(cumulative, entries, edgesLeft, edgesRight, q[i])
  {
    var n := LeadingNegatives(q, 0);
    var t := Targets(q, entries);
    FirstTargetNonNegative(q, entries, n);
    TargetsSorted(q, entries);
    WalkFromSorted(t, cumulative, edgesLeft, edgesRight, n, 0);
    var r := QuantileValues(q, entries, cumulative, edgesLeft, edgesRight);
    forall i | 0 <= i < |q|
      ensures r[i] == QuantileAt(cumulative, entries, edgesLeft, edgesRight, q[i])
    {
      if i >= n {
        assert q[n] <= q[i];
      }
    }
  }

  lemma ProductBelow(q: real, entries: real)
    requires entries > 0.0
    ensures q * entries < entries <==> q < 1.0
  {
    if q < 1.0 {
      assert (1.0 - q) * entries > 0.0;
    } else {
      assert (q - 1.0) * entries >= 0.0;
    }
  }

  /** On a cumulative histogram that ends at `entries > 0`, a quantile is
      defined exactly for fractions in `[0, 1)`. */
  lemma QuantileDefined(cumulative: seq<real>, entries: real, q: real)
    requires NonDecreasingFromZero(cumulative) && |cumulative| > 0
    requires cumulative[|cumulative| - 1] == entries > 0.0
    ensures QuantileBin(cumulative, entries, q).Some? <==> 0.0 <= q < 1.0
  {
    ProductBelow(q, entries);
    if 0.0 <= q < 1.0 {
      assert cumulative[|cumulative| - 1] > q * entries;
    }
  }

  /** The quantile's step brackets its target: `low <= q * entries < high`. */
  lemma QuantileBracket(cumulative: seq<real>, entries: real, q: real)
    requires entries >= 0.0 && QuantileBin(cumulative, entries, q).Some?
    ensures var b := QuantileBin(cumulative, entries, q).value;
      b < |cumulative| && Low(cumulative, b) <= q * entries < cumulative[b]
  {
    ProductNonNegative(q, entries);
  }


  lemma InterpWithin(left: real, right: real, low: real, high: real, target: real)
    requires low <= target < high && left <= right
    ensures left <= Interp(left, right, low, high, target) <= right
    ensures left < right ==> Interp(left, right, low, high, target) < right
  {
    var m := (target - low) / (high - low);
    QuotientInUnit(target - low, high - low);
    assert Interp(left, right, low, high, target) == left + (right - left) * m;
    assert (right - left) * (1.0 - m) >= 0.0;
    if left < right {
      assert (right - left) * (1.0 - m) > 0.0;
    }
  }

  /** A defined quantile lies inside the edges of its step (lower edge
      included, upper edge excluded when the step has width). */
  lemma QuantileWithinEdges(cumulative: seq<real>, entries: real, edgesLeft: seq<real>,
                            edgesRight: seq<real>, q: real)
    requires entries >= 0.0 && |cumulative| <= |edgesLeft| && |cumulative| <= |edgesRight|
    requires QuantileBin(cumulative, entries, q).Some?
    requires var b := QuantileBin(cumulative, entries, q).value; edgesLeft[b] <= edgesRight[b]
    ensures var b := QuantileBin(cumulative, entries, q).value;
      var v := QuantileAt(cumulative, entries, edgesLeft, edgesRight, q).value;
      edgesLeft[b] <= v <= edgesRight[b] && (edgesLeft[b] < edgesRight[b] ==> v < edgesRight[b])
  {
    var b := QuantileBin(cumulative, entries, q).value;
    QuantileBracket(cumulative, entries, q);
    InterpWithin(edgesLeft[b], edgesRight[b], Low(cumulative, b), cumulative[b], q * entries);
  }

  // ---- The loop ----

  /** A step whose total is above the target: the quantile is interpolated
      there and the cursor stays. */
  lemma Hit(targets: seq<real>, cumulative: seq<real>, edgesLeft: seq<real>,
            edgesRight: seq<real>, k: nat, j: nat)
    requires |cumulative| <= |edgesLeft| && |cumulative| <= |edgesRight|
    requires k < |targets| && j < |cumulative| && Ready(targets, cumulative, k, j)
    requires cumulative[j] > targets[k]
    ensures Low(cumulative, j) < cumulative[j] && Ready(targets, cumulative, k + 1, j)
    ensures WalkFrom(targets, cumulative, edgesLeft, edgesRight, k, j)
         == [Some(Interp(edgesLeft[j], edgesRight[j], Low(cumulative, j), cumulative[j], targets[k]))]
            + WalkFrom(targets, cumulative, edgesLeft, edgesRight, k + 1, j)
  {
  }

  /** A step whose total does not exceed the target is passed over. */
  lemma Miss(targets: seq<real>, cumulative: seq<real>, edgesLeft: seq<real>,
             edgesRight: seq<real>, k: nat, j: nat)
    requires |cumulative| <= |edgesLeft| && |cumulative| <= |edgesRight|
    requires k <= |targets| && j < |cumulative| && Ready(targets, cumulative, k, j)
    requires k < |targets| ==> cumulative[j] <= targets[k]
    ensures Ready(targets, cumulative, k, j + 1)
    ensures WalkFrom(targets, cumulative, edgesLeft, edgesRight, k, j)
         == WalkFrom(targets, cumulative, edgesLeft, edgesRight, k, j + 1)
  {
  }

  lemma PushOne(done: seq<Option<real>>, v: Option<real>, rest: seq<Option<real>>)
    ensures done + ([v] + rest) == (done + [v]) + rest
  {
  }

  /** Lines 127-130: a NaN for every leading negative fraction. */
  method SkipNegatives(q: seq<real>) returns (quantiles: seq<Option<real>>, iQuantile: nat)
    ensures iQuantile == LeadingNegatives(q, 0) && quantiles == Nones(iQuantile)
  {
    quantiles := [];
    iQuantile := 0;
    while iQuantile < |q| && q[iQuantile] < 0.0
      invariant iQuantile <= |q| && LeadingNegatives(q, iQuantile) == LeadingNegatives(q, 0)
      invariant quantiles == Nones(iQuantile)
    {
      quantiles := quantiles + [None];
      iQuantile := iQuantile + 1;
    }
  }

  /** Lines 140-143: a NaN for every quantile the walk did not reach. */
  method PadMissing(count: nat, quantiles: seq<Option<real>>, iQuantile: nat)
    returns (quantiles': seq<Option<real>>)
    requires iQuantile <= count
    ensures quantiles' == quantiles + Nones(count - iQuantile)
  {
    quantiles' := quantiles;
    var i := iQuantile;
    while i < count
      invariant i <= count && quantiles' + Nones(count - i) == quantiles + Nones(count - iQuantile)
    {
      assert Nones(count - i) == [None] + Nones(count - i - 1);
      quantiles' := quantiles' + [None];
      i := i + 1;
    }
  }

  /** The inner loop of lines 133-137: while the current step's total
      `high` exceeds the next target, interpolate that quantile in the step. */
  method QuantilesInStep(q: seq<real>, entries: real, cumulative: seq<real>, edgesLeft: seq<real>,
                         edgesRight: seq<real>, j: nat, low: real, high: real,
                         quantiles: seq<Option<real>>, iQuantile: nat)
    returns (quantiles': seq<Option<real>>, iQuantile': nat)
    requires |cumulative| <= |edgesLeft| && |cumulative| <= |edgesRight|
    requires iQuantile <= |q| && j < |cumulative| && low == Low(cumulative, j) && high == cumulative[j]
    requires Ready(Targets(q, entries), cumulative, iQuantile, j)
    ensures iQuantile <= iQuantile' <= |q| && Ready(Targets(q, entries), cumulative, iQuantile', j)
    ensures iQuantile' < |q| ==> cumulative[j] <= Targets(q, entries)[iQuantile']
    ensures quantiles' + WalkFrom(Targets(q, entries), cumulative, edgesLeft, edgesRight, iQuantile', j)
         == quantiles + WalkFrom(Targets(q, entries), cumulative, edgesLeft, edgesRight, iQuantile, j)
  {
    ghost var targets := Targets(q, entries);
    ghost var spec := quantiles + WalkFrom(targets, cumulative, edgesLeft, edgesRight, iQuantile, j);
    quantiles', iQuantile' := quantiles, iQuantile;
    while iQuantile' < |q| && high > q[iQuantile'] * entries
      invariant iQuantile <= iQuantile' <= |q| && Ready(targets, cumulative, iQuantile', j)
      invariant quantiles' + WalkFrom(targets, cumulative, edgesLeft, edgesRight, iQuantile', j) == spec
      decreases |q| - iQuantile'
    {
      Hit(targets, cumulative, edgesLeft, edgesRight, iQuantile', j);
      var value := Interp(edgesLeft[j], edgesRight[j], low, high, q[iQuantile'] * entries);
      PushOne(quantiles', Some(value), WalkFrom(targets, cumulative, edgesLeft, edgesRight, iQuantile' + 1, j));
      quantiles' := quantiles' + [Some(value)];
      iQuantile' := iQuantile' + 1;
    }
  }

  /** Lines 124-143: the leading NaNs for negative fractions, the cursor walk
      over the cumulative histogram, and the trailing NaNs. `quantiles[k]`
      is what the source pushes onto `quantile_columns[k]`. */
  method QuantileWalk(q: seq<real>, entries: real, cumulative: seq<real>,
                      edgesLeft: seq<real>, edgesRight: seq<real>)
    returns (quantiles: seq<Option<real>>)
    requires entries > 0.0 && |cumulative| <= |edgesLeft| && |cumulative| <= |edgesRight|
    ensures quantiles == QuantileValues(q, entries, cumulative, edgesLeft, edgesRight)
  {
    var iQuantile: nat;
    quantiles, iQuantile := SkipNegatives(q);
    ghost var n := iQuantile;
    FirstTargetNonNegative(q, entries, n);
    ghost var targets := Targets(q, entries);
    ghost var spec := QuantileValues(q, entries, cumulative, edgesLeft, edgesRight);
    var low := 0.0;
    var high := 0.0;
    var j := 0;
    while j < |cumulative| && iQuantile < |q|
      invariant iQuantile <= |q| && j <= |cumulative| && low == Low(cumulative, j)
      invariant Ready(targets, cumulative, iQuantile, j)
      invariant quantiles + WalkFrom(targets, cumulative, edgesLeft, edgesRight, iQuantile, j) == spec
    {
      high := cumulative[j];
      quantiles, iQuantile := QuantilesInStep(q, entries, cumulative, edgesLeft, edgesRight, j, low, high,
                                              quantiles, iQuantile);
      Miss(targets, cumulative, edgesLeft, edgesRight, iQuantile, j);
      low := high;
      j := j + 1;
    }
    quantiles := PadMissing(|q|, quantiles, iQuantile);
  }
}
