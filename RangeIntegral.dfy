/** The `sum_i` and `sum_normed_i` columns of HistoNdProfile.update()
    (lines 153-187): the number of entries of one transverse bin inside a
    range of the profile axis, read off the cumulative histogram with linear
    interpolation inside a profile step, and that number over `entries`. */
module RangeIntegral {
  import opened Options
  import opened PrefixSums
  import opened RealArith

  /** One element of `sum_range`: the range `[lower, upper]` on the profile axis. */
  datatype Box = Box(lower: real, upper: real)

  /** The entries below fractional step position `index` (lines 160-172 and 173-183):
      zero left of the histogram, `entries` right of it, and in between the
      straight line joining the running totals at whole positions. `index|0`
      and `index % 1` are the whole and the fractional part of a positive
      `index`. */
  function Cdf(cumulative: seq<real>, entries: real, index: real): real
    requires |cumulative| > 0
  {
    if index < 0.0 then 0.0
    else if index < 1.0 then index * cumulative[0]
    else if index < |cumulative| as real then
      var whole := index.Floor;
      var m := index - whole as real;
      cumulative[whole - 1] * (1.0 - m) + cumulative[whole] * m
    else entries
  }

  /** Profile-axis coordinate `b` in step units: `b * scale + origin` with
      `scale = n / (high - low)` and `origin = -low * scale` (lines 154-157, 160, 173). */
  function StepIndex(n: nat, low: real, high: real, b: real): real
    requires high != low
  {
    var scale := n as real / (high - low);
    var origin := -low * scale;
    b * scale + origin
  }

  /** `val_right - val_left` for one box (line 184); `None` when the edges
      span no width and the source divides by zero. */
  function BoxSum(cumulative: seq<real>, entries: real, low: real, high: real, box: Box): Option<real>
    requires |cumulative| > 0
  {
    if high == low then None
    else
      var n := |cumulative|;
      Some(Cdf(cumulative, entries, StepIndex(n, low, high, box.upper))
           - Cdf(cumulative, entries, StepIndex(n, low, high, box.lower)))
  }

  /** `integral / entries` (line 186); `None` where that is not a number. */
  function Normed(sum: Option<real>, entries: real): Option<real>
  {
    if sum.None? || entries == 0.0 then None else Some(sum.value / entries)
  }

  /** `BoxSum` for every box of `sum_range`, in order. */
  function BoxSums(cumulative: seq<real>, entries: real, low: real, high: real, boxes: seq<Box>): (r: seq<Option<real>>)
    requires |cumulative| > 0
    ensures |r| == |boxes|
  {
    seq(|boxes|, i requires 0 <= i < |boxes| => BoxSum(cumulative, entries, low, high, boxes[i]))
  }

  /** `Normed` for every sum, in order. */
  function NormedSums(sums: seq<Option<real>>, entries: real): (r: seq<Option<real>>)
    ensures |r| == |sums|
  {
    seq(|sums|, i requires 0 <= i < |sums| => Normed(sums[i], entries))
  }

  // ---- Properties of the interpolated CDF ----

  /** At whole step positions the CDF passes through the running totals. */
  lemma CdfAtKnot(cumulative: seq<real>, entries: real, k: nat)
    requires 0 < |cumulative| && k < |cumulative|
    ensures Cdf(cumulative, entries, k as real) == Low(cumulative, k)
  {
    if k > 0 {
      assert (k as real).Floor == k;
    }
  }

  /** Inside step `k` the CDF is the straight line from `Low(k)` to the
      step's running total. */
  lemma CdfOnStep(cumulative: seq<real>, entries: real, index: real, k: nat)
    requires k < |cumulative| && k as real <= index < k as real + 1.0
    ensures var m := index - k as real;
      Cdf(cumulative, entries, index) == Low(cumulative, k) + (cumulative[k] - Low(cumulative, k)) * m
  {
    var m := index - k as real;
    if k > 0 {
      assert index.Floor == k;
      Blend(cumulative[k - 1], cumulative[k], m);
    } else {
      assert index == m;
      assert index * cumulative[0] == 0.0 + (cumulative[0] - 0.0) * m;
    }
  }

  lemma Blend(a: real, b: real, m: real)
    ensures a * (1.0 - m) + b * m == a + (b - a) * m
  {
  }

  /** Between two ordered values, the straight line is monotone in its
      parameter and stays between them. */
  lemma LineMonotone(a: real, b: real, m: real, m': real)
    requires a <= b && 0.0 <= m <= m' <= 1.0
    ensures a <= a + (b - a) * m <= a + (b - a) * m' <= b
  {
    ProductNonNegative(b - a, m);
    ProductNonNegative(b - a, m' - m);
    ProductNonNegative(b - a, 1.0 - m');
  }

  /** The step that holds a position inside the histogram. */
  lemma StepOf(n: nat, index: real)
    requires 0.0 <= index < n as real
    ensures 0 <= index.Floor < n
    ensures index.Floor as real <= index < index.Floor as real + 1.0
  {
  }

  /** On a CDF each step rises from its `Low` to its own total, between zero
      and the last total. */
  lemma StepTotals(cumulative: seq<real>, k: nat)
    requires k < |cumulative| && NonDecreasingFromZero(cumulative)
    ensures 0.0 <= Low(cumulative, k) <= cumulative[k] <= cumulative[|cumulative| - 1]
  {
    if k > 0 {
      assert cumulative[0] <= cumulative[k - 1];
    }
  }

  /** Inside step `k` the CDF lies between the step's `Low` and its total. */
  lemma CdfInStep(cumulative: seq<real>, entries: real, index: real, k: nat)
    requires k < |cumulative| && NonDecreasingFromZero(cumulative)
    requires k as real <= index < k as real + 1.0
    ensures Low(cumulative, k) <= Cdf(cumulative, entries, index) <= cumulative[k]
  {
    CdfOnStep(cumulative, entries, index, k);
    StepTotals(cumulative, k);
    LineBetween(Low(cumulative, k), cumulative[k], index - k as real, Cdf(cumulative, entries, index));
  }

  lemma LineBetween(a: real, b: real, m: real, v: real)
    requires a <= b && 0.0 <= m <= 1.0 && v == a + (b - a) * m
    ensures a <= v <= b
  {
    ProductNonNegative(b - a, m);
    ProductNonNegative(b - a, 1.0 - m);
  }

  /** On a CDF that ends at `entries`, the interpolated CDF lies in `[0, entries]`. */
  lemma CdfBounds(cumulative: seq<real>, entries: real, index: real)
    requires |cumulative| > 0 && NonDecreasingFromZero(cumulative)
    requires cumulative[|cumulative| - 1] == entries
    ensures 0.0 <= Cdf(cumulative, entries, index) <= entries
  {
    var n := |cumulative|;
    StepTotals(cumulative, n - 1);
    if 0.0 <= index < n as real {
      StepOf(n, index);
      var k: nat := index.Floor;
      CdfInStep(cumulative, entries, index, k);
      StepTotals(cumulative, k);
    }
  }

  /** On a CDF that ends at `entries`, the interpolated CDF never decreases. */
  lemma CdfMonotone(cumulative: seq<real>, entries: real, index: real, index': real)
    requires |cumulative| > 0 && NonDecreasingFromZero(cumulative)
    requires cumulative[|cumulative| - 1] == entries
    requires index <= index'
    ensures Cdf(cumulative, entries, index) <= Cdf(cumulative, entries, index')
  {
    var n := |cumulative|;
    CdfBounds(cumulative, entries, index);
    CdfBounds(cumulative, entries, index');
    if 0.0 <= index && index' < n as real {
      StepOf(n, index);
      StepOf(n, index');
      var k: nat, k': nat := index.Floor, index'.Floor;
      if k == k' {
        CdfWithinStep(cumulative, entries, index, index', k);
      } else {
        CdfAcrossSteps(cumulative, entries, index, index', k, k');
      }
    }
  }

  lemma CdfWithinStep(cumulative: seq<real>, entries: real, index: real, index': real, k: nat)
    requires k < |cumulative| && NonDecreasingFromZero(cumulative)
    requires k as real <= index <= index' < k as real + 1.0
    ensures Cdf(cumulative, entries, index) <= Cdf(cumulative, entries, index')
  {
    CdfOnStep(cumulative, entries, index, k);
    CdfOnStep(cumulative, entries, index', k);
    StepTotals(cumulative, k);
    LineMonotone(Low(cumulative, k), cumulative[k], index - k as real, index' - k as real);
  }

  lemma CdfAcrossSteps(cumulative: seq<real>, entries: real, index: real, index': real, k: nat, k': nat)
    requires k < k' < |cumulative| && NonDecreasingFromZero(cumulative)
    requires k as real <= index < k as real + 1.0 && k' as real <= index' < k' as real + 1.0
    ensures Cdf(cumulative, entries, index) <= Cdf(cumulative, entries, index')
  {
    CdfInStep(cumulative, entries, index, k);
    CdfInStep(cumulative, entries, index', k');
    assert cumulative[k] <= cumulative[k' - 1];
  }

  // ---- Properties of the box sums ----

  lemma IndexMonotone(n: nat, low: real, high: real, b: real, b': real)
    requires low < high && b <= b'
    ensures StepIndex(n, low, high, b) <= StepIndex(n, low, high, b')
  {
    var scale := n as real / (high - low);
    assert scale >= 0.0;
    assert (b' - b) * scale >= 0.0;
  }

  /** For increasing edges and an ordered box, the sum is between zero and
      `entries`, and the normalised sum between zero and one. */
  lemma BoxSumBounds(cumulative: seq<real>, entries: real, low: real, high: real, box: Box)
    requires |cumulative| > 0 && NonDecreasingFromZero(cumulative)
    requires cumulative[|cumulative| - 1] == entries
    requires low < high && box.lower <= box.upper
    ensures BoxSum(cumulative, entries, low, high, box).Some?
    ensures 0.0 <= BoxSum(cumulative, entries, low, high, box).value <= entries
    ensures entries > 0.0 ==> 0.0 <= Normed(BoxSum(cumulative, entries, low, high, box), entries).value <= 1.0
  {
    var n := |cumulative|;
    var i, i' := StepIndex(n, low, high, box.lower), StepIndex(n, low, high, box.upper);
    IndexMonotone(n, low, high, box.lower, box.upper);
    CdfMonotone(cumulative, entries, i, i');
    CdfBounds(cumulative, entries, i);
    CdfBounds(cumulative, entries, i');
    if entries > 0.0 {
      UnitQuotient(BoxSum(cumulative, entries, low, high, box).value, entries);
    }
  }


  /** The box from the first lower edge to the last upper edge holds every entry. */
  lemma FullRangeSum(cumulative: seq<real>, entries: real, low: real, high: real)
    requires |cumulative| > 0 && high != low
    ensures BoxSum(cumulative, entries, low, high, Box(low, high)) == Some(entries)
  {
    var n := |cumulative|;
    var scale := n as real / (high - low);
    assert StepIndex(n, low, high, low) == 0.0;
    assert scale * (high - low) == n as real;
    assert StepIndex(n, low, high, high) == n as real;
  }

  /** Widening a box to the right never lowers its sum. */
  lemma BoxSumMonotone(cumulative: seq<real>, entries: real, low: real, high: real, box: Box, upper: real)
    requires |cumulative| > 0 && NonDecreasingFromZero(cumulative)
    requires cumulative[|cumulative| - 1] == entries
    requires low < high && box.upper <= upper
    ensures BoxSum(cumulative, entries, low, high, box).value
         <= BoxSum(cumulative, entries, low, high, Box(box.lower, upper)).value
  {
    var n := |cumulative|;
    IndexMonotone(n, low, high, box.upper, upper);
    CdfMonotone(cumulative, entries, StepIndex(n, low, high, box.upper), StepIndex(n, low, high, upper));
  }

  /** The box loop of lines 158-187 for one transverse bin: `sums[i]` and
      `normed[i]` are what the source pushes onto `integral_columns[i]` and
      `efficiency_columns[i]`. `low` and `high` are `edges_left[0]` and
      `edges_right[edges_right.length - 1]`. */
  method RangeSums(cumulative: seq<real>, entries: real, low: real, high: real, boxes: seq<Box>)
    returns (sums: seq<Option<real>>, normed: seq<Option<real>>)
    requires |cumulative| > 0
    ensures sums == BoxSums(cumulative, entries, low, high, boxes)
    ensures normed == NormedSums(sums, entries)
  {
    sums, normed := [], [];
    var iBox := 0;
    while iBox < |boxes|
      invariant iBox <= |boxes| && |sums| == iBox == |normed|
      invariant forall i :: 0 <= i < iBox ==>
        sums[i] == BoxSum(cumulative, entries, low, high, boxes[i]) && normed[i] == Normed(sums[i], entries)
    {
      var integral := BoxSum(cumulative, entries, low, high, boxes[iBox]);
      sums := sums + [integral];
      normed := normed + [Normed(integral, entries)];
      iBox := iBox + 1;
    }
    assert sums == BoxSums(cumulative, entries, low, high, boxes);
  }
}
