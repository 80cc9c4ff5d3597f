/** The strided layout of a flattened N-dimensional histogram.

    Moving one bin along the profile axis advances the flat index by
    `strideLow`; the bins of one transverse slice span `strideHigh` flat
    positions, so the transverse bin that starts at `x + z` owns the
    `strideHigh / strideLow` flat positions `x + z + y`, for
    `y = 0, strideLow, 2 * strideLow, ...` below `strideHigh`.

    Products and quotients are written as the repeated additions and
    subtractions that the loops perform, so that the loop proofs stay linear. */
module Strides {

  /** `k * step`: the value of `y` after `k` iterations of `y += step`. */
  function Offset(k: nat, step: nat): nat
    decreases k
  {
    if k == 0 then 0 else Offset(k - 1, step) + step
  }

  /** `total / step`: how many whole steps fit in `total`. */
  function Steps(step: nat, total: nat): nat
    requires step > 0
    decreases total
  {
    if total < step then 0 else 1 + Steps(step, total - step)
  }

  /** `total` is a positive whole number of positive steps. The source needs
      this of `strideHigh` against `strideLow`, and of the flat length against
      `strideHigh`. */
  predicate Divides(step: nat, total: nat) {
    step > 0 && Offset(Steps(step, total), step) == total
  }

  /** Every flat index `base + t`, for `t = y, y + step, ...` below `high`,
      lies inside a buffer of `length` elements. */
  predicate InBounds(length: nat, base: nat, y: nat, step: nat, high: nat)
    requires step > 0
    decreases high - y
  {
    y >= high || (base + y < length && InBounds(length, base, y + step, step, high))
  }

  /** How many times `y += step` runs from `y` while `y < high`. */
  function GridCount(y: nat, step: nat, high: nat): nat
    requires step > 0
    decreases high - y
  {
    if y >= high then 0 else 1 + GridCount(y + step, step, high)
  }

  /** The values `a[base + t]` that `for (t = y; t < high; t += step)` reads, in order. */
  function Walk(a: seq<real>, base: nat, y: nat, step: nat, high: nat): (s: seq<real>)
    requires step > 0 && InBounds(|a|, base, y, step, high)
    ensures |s| == GridCount(y, step, high)
    decreases high - y
  {
    if y >= high then [] else [a[base + y]] + Walk(a, base, y + step, step, high)
  }

  /** A walk that has not reached `high` starts with the value at `base + y`. */
  lemma WalkUnfold(a: seq<real>, base: nat, y: nat, step: nat, high: nat, i: nat)
    requires step > 0 && y < high && InBounds(|a|, base, y, step, high) && i == base + y
    ensures i < |a| && InBounds(|a|, base, y + step, step, high)
    ensures |Walk(a, base, y, step, high)| > 0
    ensures Walk(a, base, y, step, high)[0] == a[i]
    ensures Walk(a, base, y, step, high)[1..] == Walk(a, base, y + step, step, high)
  {
    var r := Walk(a, base, y + step, step, high);
    assert ([a[i]] + r)[1..] == r;
  }

  /** The values that the transverse bin starting at flat index `x + z` holds
      along the profile axis: `a[x + y + z]` for `y = 0, strideLow, ...` below
      `strideHigh`. */
  function AxisSlice(a: seq<real>, x: nat, z: nat, strideLow: nat, strideHigh: nat): (s: seq<real>)
    requires strideLow > 0 && InBounds(|a|, x + z, 0, strideLow, strideHigh)
    ensures |s| == GridCount(0, strideLow, strideHigh)
  {
    Walk(a, x + z, 0, strideLow, strideHigh)
  }

  /** When `strideLow` divides `strideHigh`, every profile step of the bin
      that starts at `x + z`, with `x < strideLow` and the block `z` whole,
      reads inside the buffer. */
  lemma LayoutInBounds(length: nat, x: nat, z: nat, strideLow: nat, strideHigh: nat)
    requires Divides(strideLow, strideHigh) && x < strideLow && z + strideHigh <= length
    ensures InBounds(length, x + z, 0, strideLow, strideHigh)
  {
    LayoutInBoundsFrom(length, x, z, strideLow, strideHigh, 0);
  }

  lemma {:induction false} LayoutInBoundsFrom(length: nat, x: nat, z: nat, strideLow: nat, strideHigh: nat, k: nat)
    requires Divides(strideLow, strideHigh) && x < strideLow && z + strideHigh <= length
    requires Offset(k, strideLow) <= strideHigh
    ensures InBounds(length, x + z, Offset(k, strideLow), strideLow, strideHigh)
    decreases strideHigh - Offset(k, strideLow)
  {
    if Offset(k, strideLow) < strideHigh {
      NextMultiple(k, strideLow, strideHigh);
      LayoutInBoundsFrom(length, x, z, strideLow, strideHigh, k + 1);
    }
  }

  /** A walk that stays inside the buffer reads no more values than the
      buffer holds after `base + y`. */
  lemma {:induction false} WalkFits(length: nat, base: nat, y: nat, step: nat, high: nat)
    requires step > 0 && InBounds(length, base, y, step, high)
    ensures GridCount(y, step, high) == 0 || base + y + GridCount(y, step, high) <= length
    decreases high - y
  {
    if y < high {
      WalkFits(length, base, y + step, step, high);
    }
  }

  /** `total` is `step` times its number of steps when `step` divides it. */
  lemma WholeSteps(step: nat, total: nat)
    requires Divides(step, total)
    ensures step * (total / step) == total
  {
    StepsIsQuotient(step, total);
    OffsetIsProduct(Steps(step, total), step);
  }

  /** Every positive stride divides itself: one step per bin. */
  lemma DividesSelf(step: nat)
    requires step > 0
    ensures Divides(step, step) && Steps(step, step) == 1
  {
    assert Steps(step, step) == 1 + Steps(step, 0);
  }

  /** With `strideLow` dividing `strideHigh`, a bin has `strideHigh / strideLow`
      profile steps (the source's `length`). */
  lemma StepsPerBin(strideLow: nat, strideHigh: nat)
    requires Divides(strideLow, strideHigh)
    ensures GridCount(0, strideLow, strideHigh) == Steps(strideLow, strideHigh) == strideHigh / strideLow
  {
    StepsPerBinFrom(strideLow, strideHigh, 0);
    StepsIsQuotient(strideLow, strideHigh);
  }

  lemma {:induction false} StepsPerBinFrom(strideLow: nat, strideHigh: nat, k: nat)
    requires Divides(strideLow, strideHigh) && Offset(k, strideLow) <= strideHigh
    ensures k <= Steps(strideLow, strideHigh)
    ensures GridCount(Offset(k, strideLow), strideLow, strideHigh) == Steps(strideLow, strideHigh) - k
    decreases strideHigh - Offset(k, strideLow)
  {
    StepCount(k, strideLow, strideHigh);
    if Offset(k, strideLow) < strideHigh {
      NextMultiple(k, strideLow, strideHigh);
      StepsPerBinFrom(strideLow, strideHigh, k + 1);
    } else {
      if k > Steps(strideLow, strideHigh) {
        OffsetStrict(Steps(strideLow, strideHigh), k, strideLow);
      }
    }
  }

  lemma {:induction false} OffsetMonotone(i: int, j: nat, step: nat)
    requires i <= j
    ensures i >= 0 ==> Offset(i, step) <= Offset(j, step)
    decreases j
  {
    if i >= 0 && i < j {
      OffsetMonotone(i, j - 1, step);
    }
  }

  lemma {:induction false} OffsetStrict(i: nat, j: nat, step: nat)
    requires i < j && step > 0
    ensures Offset(i, step) + step <= Offset(j, step)
    decreases j
  {
    OffsetMonotone(i, j - 1, step);
  }

  /** Walking `y` by `step` from 0 stays below `total` for exactly
      `Steps(step, total)` iterations. */
  lemma StepCount(k: nat, step: nat, total: nat)
    requires Divides(step, total)
    ensures Offset(k, step) < total <==> k < Steps(step, total)
  {
    var n := Steps(step, total);
    if k < n { OffsetStrict(k, n, step); }
    if n <= k { OffsetMonotone(n, k, step); }
  }

  /** A multiple of `step` below a multiple of `step` leaves room for a whole step. */
  lemma NextMultiple(g: nat, step: nat, total: nat)
    requires Divides(step, total) && Offset(g, step) < total
    ensures Offset(g, step) + step <= total
  {
    StepCount(g, step, total);
    OffsetStrict(g, Steps(step, total), step);
  }

  lemma {:induction false} OffsetIsProduct(k: nat, step: nat)
    ensures Offset(k, step) == k * step
    decreases k
  {
    if k > 0 {
      OffsetIsProduct(k - 1, step);
    }
  }

  lemma {:induction false} StepsBracket(step: nat, total: nat)
    requires step > 0
    ensures Offset(Steps(step, total), step) <= total < Offset(Steps(step, total), step) + step
    decreases total
  {
    if total >= step {
      StepsBracket(step, total - step);
      assert Offset(Steps(step, total), step) == Offset(Steps(step, total - step), step) + step by {
        assert Steps(step, total) == Steps(step, total - step) + 1;
      }
    }
  }

  lemma DivModUnique(a: int, b: int, q: int, r: int)
    requires b > 0 && a == q * b + r && 0 <= r < b
    ensures q == a / b && r == a % b
  {
    var q', r' := a / b, a % b;
    assert a == q' * b + r' && 0 <= r' < b;
    if q < q' {
      MulStrict(q, q', b);
      assert (q + 1) * b <= q' * b by { if q + 1 < q' { MulStrict(q + 1, q', b); } }
    } else if q' < q {
      assert (q' + 1) * b <= q * b by { if q' + 1 < q { MulStrict(q' + 1, q, b); } }
    }
  }

  lemma MulStrict(i: int, j: int, s: int)
    requires i < j && s > 0
    ensures i * s < j * s
  {
    assert j * s - i * s == (j - i) * s;
  }

  lemma StepsIsQuotient(step: nat, total: nat)
    requires step > 0
    ensures Steps(step, total) == total / step
    ensures total - Offset(Steps(step, total), step) == total % step
  {
    var n := Steps(step, total);
    StepsBracket(step, total);
    OffsetIsProduct(n, step);
    DivModUnique(total, step, n, total - Offset(n, step));
  }

  /** `Divides` is the source's divisibility condition `total % step == 0`. */
  lemma DividesIsModulo(step: nat, total: nat)
    requires step > 0
    ensures Divides(step, total) <==> total % step == 0
  {
    StepsIsQuotient(step, total);
  }
}
