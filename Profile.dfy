/** HistoNdProfile.update(): for every transverse bin of the source
    histogram, reduce the counts along the profile axis to one row of
    statistics (mean, variance, entries, isOK, quantiles, range sums), append
    that row to the output columns, and publish the columns into `data`. */
module Profile {
  import opened Options
  import opened Strides
  import opened PrefixSums
  import opened Statistics
  import opened Quantiles
  import opened RangeIntegral

  // ---- What update() reads ----

  /** The source HistoNdCDS as update() sees it: its flat length, the stride
      of every axis, the `bin_count` array (`None` when it is null) and, per
      axis `i`, the `bin_center_i` array (`None` when null) and the
      `bin_bottom_i` and `bin_top_i` edge arrays. */
  datatype Histogram = Histogram(length: nat, strides: seq<nat>, binCount: Option<seq<real>>,
                                 binCenters: seq<Option<seq<real>>>,
                                 binBottom: seq<seq<real>>, binTop: seq<seq<real>>)

  /** The four arrays of lines 80-83, read for the profile axis. */
  datatype Axis = Axis(binCount: Option<seq<real>>, binCenters: Option<seq<real>>,
                       edgesLeft: seq<real>, edgesRight: seq<real>)

  predicate HasAxis(h: Histogram, axisIdx: nat) {
    axisIdx < |h.strides| && axisIdx < |h.binCenters| && axisIdx < |h.binBottom| && axisIdx < |h.binTop|
  }

  function AxisOf(h: Histogram, axisIdx: nat): Axis
    requires HasAxis(h, axisIdx)
  {
    Axis(h.binCount, h.binCenters[axisIdx], h.binBottom[axisIdx], h.binTop[axisIdx])
  }

  /** Every array present holds one value per flat bin. */
  predicate Shaped(v: Axis, length: nat) {
    (v.binCount.Some? ==> |v.binCount.value| == length)
    && (v.binCenters.Some? ==> |v.binCenters.value| == length)
    && |v.edgesLeft| == length && |v.edgesRight| == length
  }

  predicate HasData(v: Axis) {
    v.binCount.Some? && v.binCenters.Some?
  }

  /** Everything the row at `(x, z)` reads lies inside the arrays. */
  predicate RowReadable(v: Axis, length: nat, strideLow: nat, strideHigh: nat, x: nat, z: nat) {
    Shaped(v, length) && strideLow > 0 && strideHigh > 0 && z < length
    && InBounds(length, x + z, 0, strideLow, strideHigh)
  }

  /** The rows `z, z + strideHigh, ...` below `length` of the `x` loop are readable. */
  predicate RowsReadable(v: Axis, length: nat, strideLow: nat, strideHigh: nat, x: nat, z: nat)
    decreases length - z
  {
    z >= length
    || (strideHigh > 0 && RowReadable(v, length, strideLow, strideHigh, x, z)
        && RowsReadable(v, length, strideLow, strideHigh, x, z + strideHigh))
  }

  /** Every row of the `x` loop, from `x` on, is readable (lines 85-86). */
  predicate TableReadable(v: Axis, length: nat, strideLow: nat, strideHigh: nat, x: nat)
    decreases strideLow - x
  {
    x >= strideLow
    || (RowsReadable(v, length, strideLow, strideHigh, x, 0)
        && TableReadable(v, length, strideLow, strideHigh, x + 1))
  }

  // ---- One row ----

  /** What one pass of the `z` loop appends: one value to each of the
      `mean`, `std`, `entries` and `isOK` columns, and `quantiles[k]`,
      `sums[i]`, `normed[i]` to the `k`-th quantile and `i`-th sum columns.
      `variance` is the value under the square root of line 119. */
  datatype Row = Row(mean: Option<real>, variance: Option<real>, entries: Option<real>, isOK: bool,
                     quantiles: seq<Option<real>>, sums: seq<Option<real>>, normed: seq<Option<real>>)

  /** The row of lines 94-99: NaN, NaN, NaN, false, and because of the
      `continue` nothing for the quantile and sum columns. */
  function NullRow(): Row {
    Row(None, None, None, false, [], [], [])
  }

  /** A row that appends to every quantile and sum column. */
  predicate Full(r: Row, quantileCount: nat, boxCount: nat) {
    |r.quantiles| == quantileCount && |r.sums| == boxCount && |r.normed| == boxCount
  }

  /** The row for the transverse bin that starts at flat index `x + z`
      (lines 94-187). The quantiles are placed with the edges of the flat
      bins `0, 1, ...`, and the range sums measure the profile axis from
      `edgesLeft[0]` to `edgesRight[length - 1]`. */
  function RowAt(v: Axis, length: nat, q: seq<real>, boxes: seq<Box>,
                 strideLow: nat, strideHigh: nat, x: nat, z: nat): (r: Row)
    requires RowReadable(v, length, strideLow, strideHigh, x, z)
    ensures HasData(v) ==> Full(r, |q|, |boxes|)
    ensures !HasData(v) ==> r == NullRow()
  {
    if !HasData(v) then NullRow()
    else
      var counts := AxisSlice(v.binCount.value, x, z, strideLow, strideHigh);
      var centers := AxisSlice(v.binCenters.value, x, z, strideLow, strideHigh);
      var cumulative := Cumulative(counts);
      var entries := Sum(counts);
      WalkFits(length, x + z, 0, strideLow, strideHigh);
      var sums := BoxSums(cumulative, entries, v.edgesLeft[0], v.edgesRight[length - 1], boxes);
      var normed := NormedSums(sums, entries);
      if entries > 0.0 then
        Row(Some(Mean(counts, centers)), Some(Variance(counts, centers)), Some(entries), true,
            QuantileValues(q, entries, cumulative, v.edgesLeft, v.edgesRight), sums, normed)
      else
        Row(None, None, Some(entries), false, Nones(|q|), sums, normed)
  }

  /** One pass of the `z` loop body (lines 94-187). */
  method ProfileRow(v: Axis, length: nat, q: seq<real>, boxes: seq<Box>,
                    strideLow: nat, strideHigh: nat, x: nat, z: nat)
    returns (row: Row)
    requires RowReadable(v, length, strideLow, strideHigh, x, z)
    ensures row == RowAt(v, length, q, boxes, strideLow, strideHigh, x, z)
  {
    if v.binCount.None? || v.binCenters.None? {
      return NullRow();
    }
    var binCount, binCenters := v.binCount.value, v.binCenters.value;
    var cumulative, entries := AccumulateAlongAxis(binCount, x, z, strideLow, strideHigh);
    WalkFits(length, x + z, 0, strideLow, strideHigh);
    var quantiles: seq<Option<real>>;
    if entries > 0.0 {
      var mean := WeightedMeanAlongAxis(binCount, binCenters, x, z, strideLow, strideHigh, entries);
      var variance := VarianceAlongAxis(binCount, binCenters, x, z, strideLow, strideHigh, entries, mean);
      quantiles := QuantileWalk(q, entries, cumulative, v.edgesLeft, v.edgesRight);
      row := Row(Some(mean), Some(variance), Some(entries), true, quantiles, [], []);
    } else {
      quantiles := [];
      while |quantiles| < |q|
        invariant |quantiles| <= |q| && quantiles == Nones(|quantiles|)
        decreases |q| - |quantiles|
      {
        quantiles := quantiles + [None];
      }
      row := Row(None, None, Some(entries), false, quantiles, [], []);
    }
    var sums, normed := RangeSums(cumulative, entries, v.edgesLeft[0], v.edgesRight[length - 1], boxes);
    row := row.(sums := sums, normed := normed);
  }

  // ---- The traversal ----

  /** The rows of the inner loop `for (z = z0; z < length; z += strideHigh)`. */
  function ColumnRows(v: Axis, length: nat, q: seq<real>, boxes: seq<Box>,
                      strideLow: nat, strideHigh: nat, x: nat, z: nat): (rows: seq<Row>)
    requires RowsReadable(v, length, strideLow, strideHigh, x, z)
    ensures forall i :: 0 <= i < |rows| ==> if HasData(v) then Full(rows[i], |q|, |boxes|) else rows[i] == NullRow()
    decreases length - z
  {
    if z >= length then []
    else [RowAt(v, length, q, boxes, strideLow, strideHigh, x, z)]
         + ColumnRows(v, length, q, boxes, strideLow, strideHigh, x, z + strideHigh)
  }

  /** The rows of `for (x = x0; x < strideLow; x++)`, in the order the
      columns receive them. */
  function AllRows(v: Axis, length: nat, q: seq<real>, boxes: seq<Box>,
                   strideLow: nat, strideHigh: nat, x: nat): (rows: seq<Row>)
    requires TableReadable(v, length, strideLow, strideHigh, x)
    ensures forall i :: 0 <= i < |rows| ==> if HasData(v) then Full(rows[i], |q|, |boxes|) else rows[i] == NullRow()
    decreases strideLow - x
  {
    if x >= strideLow then []
    else ColumnRows(v, length, q, boxes, strideLow, strideHigh, x, 0)
         + AllRows(v, length, q, boxes, strideLow, strideHigh, x + 1)
  }

  // ---- The output columns ----

  /** The local arrays of lines 50-65. */
  datatype Table = Table(mean: seq<Option<real>>, std: seq<Option<real>>, entries: seq<Option<real>>,
                         isOK: seq<bool>, quantiles: seq<seq<Option<real>>>,
                         sums: seq<seq<Option<real>>>, normed: seq<seq<Option<real>>>)

  /** One empty column per quantile and two per box (lines 50-65). */
  function EmptyTable(quantileCount: nat, boxCount: nat): Table {
    Table([], [], [], [], seq(quantileCount, _ => []), seq(boxCount, _ => []), seq(boxCount, _ => []))
  }

  /** Column `k` receives `values[k]` when the row has one. */
  function Append(columns: seq<seq<Option<real>>>, values: seq<Option<real>>): seq<seq<Option<real>>> {
    seq(|columns|, k requires 0 <= k < |columns| =>
      if k < |values| then columns[k] + [values[k]] else columns[k])
  }

  /** The pushes of one row. */
  function Emit(t: Table, r: Row): Table {
    Table(t.mean + [r.mean], t.std + [r.variance], t.entries + [r.entries], t.isOK + [r.isOK],
          Append(t.quantiles, r.quantiles), Append(t.sums, r.sums), Append(t.normed, r.normed))
  }

  function EmitAll(t: Table, rows: seq<Row>): Table
    decreases |rows|
  {
    if rows == [] then t else EmitAll(Emit(t, rows[0]), rows[1..])
  }

  /** The columns after the traversal of lines 85-189. */
  function TableOf(v: Axis, length: nat, q: seq<real>, boxes: seq<Box>,
                   strideLow: nat, strideHigh: nat): (t: Table)
    requires TableReadable(v, length, strideLow, strideHigh, 0)
    ensures |t.quantiles| == |q| && |t.sums| == |boxes| == |t.normed|
  {
    EmitAllShape(EmptyTable(|q|, |boxes|), AllRows(v, length, q, boxes, strideLow, strideHigh, 0));
    EmitAll(EmptyTable(|q|, |boxes|), AllRows(v, length, q, boxes, strideLow, strideHigh, 0))
  }

  lemma EmitFirst(t: Table, r: Row, rest: seq<Row>)
    ensures EmitAll(t, [r] + rest) == EmitAll(Emit(t, r), rest)
  {
    assert ([r] + rest)[1..] == rest;
  }

  /** Appending two runs of rows is appending the first, then the second. */
  lemma {:induction false} EmitAllConcat(t: Table, a: seq<Row>, b: seq<Row>)
    ensures EmitAll(t, a + b) == EmitAll(EmitAll(t, a), b)
    decreases |a|
  {
    if a != [] {
      assert (a + b)[1..] == a[1..] + b;
      EmitAllConcat(Emit(t, a[0]), a[1..], b);
    } else {
      assert a + b == b;
    }
  }

  /** The `z` loop of lines 86-188 for one `x`. */
  method ReduceColumn(v: Axis, length: nat, q: seq<real>, boxes: seq<Box>,
                      strideLow: nat, strideHigh: nat, x: nat, t: Table)
    returns (t': Table)
    requires RowsReadable(v, length, strideLow, strideHigh, x, 0)
    ensures t' == EmitAll(t, ColumnRows(v, length, q, boxes, strideLow, strideHigh, x, 0))
  {
    t' := t;
    var z: nat := 0;
    while z < length
      invariant RowsReadable(v, length, strideLow, strideHigh, x, z)
      invariant EmitAll(t', ColumnRows(v, length, q, boxes, strideLow, strideHigh, x, z))
             == EmitAll(t, ColumnRows(v, length, q, boxes, strideLow, strideHigh, x, 0))
      decreases length - z
    {
      var row := ProfileRow(v, length, q, boxes, strideLow, strideHigh, x, z);
      EmitFirst(t', row, ColumnRows(v, length, q, boxes, strideLow, strideHigh, x, z + strideHigh));
      t' := Emit(t', row);
      z := z + strideHigh;
    }
  }

  /** The loops of lines 85-189: one row per `(x, z)`, appended in loop order. */
  method Reduce(v: Axis, length: nat, q: seq<real>, boxes: seq<Box>, strideLow: nat, strideHigh: nat)
    returns (t: Table)
    requires TableReadable(v, length, strideLow, strideHigh, 0)
    ensures t == TableOf(v, length, q, boxes, strideLow, strideHigh)
  {
    t := EmptyTable(|q|, |boxes|);
    var x: nat := 0;
    while x < strideLow
      invariant TableReadable(v, length, strideLow, strideHigh, x)
      invariant EmitAll(t, AllRows(v, length, q, boxes, strideLow, strideHigh, x))
             == TableOf(v, length, q, boxes, strideLow, strideHigh)
      decreases strideLow - x
    {
      EmitAllConcat(t, ColumnRows(v, length, q, boxes, strideLow, strideHigh, x, 0),
                    AllRows(v, length, q, boxes, strideLow, strideHigh, x + 1));
      t := ReduceColumn(v, length, q, boxes, strideLow, strideHigh, x, t);
      x := x + 1;
    }
  }

  // ---- Publishing ----

  /** The names of lines 191-200: `mean`, `std`, `entries`, `isOK`,
      `quantile_k`, `sum_i` and `sum_normed_i`. */
  datatype Key = MeanKey | StdKey | EntriesKey | IsOKKey
               | QuantileKey(k: nat) | SumKey(i: nat) | SumNormedKey(i: nat)

  datatype Column = Numbers(numbers: seq<Option<real>>) | Flags(flags: seq<bool>)

  /** `key` is one of the names written when `quantileCount` quantile
      columns and `boxCount` pairs of sum columns are published. */
  predicate Published(key: Key, quantileCount: nat, boxCount: nat) {
    match key
    case QuantileKey(k) => k < quantileCount
    case SumKey(i) => i < boxCount
    case SumNormedKey(i) => i < boxCount
    case _ => true
  }

  /** The column of `t` published under `key` (empty for a key past the table). */
  function ColumnOf(t: Table, key: Key): Column {
    match key
    case MeanKey => Numbers(t.mean)
    case StdKey => Numbers(t.std)
    case EntriesKey => Numbers(t.entries)
    case IsOKKey => Flags(t.isOK)
    case QuantileKey(k) => if k < |t.quantiles| then Numbers(t.quantiles[k]) else Numbers([])
    case SumKey(i) => if i < |t.sums| then Numbers(t.sums[i]) else Numbers([])
    case SumNormedKey(i) => if i < |t.normed| then Numbers(t.normed[i]) else Numbers([])
  }

  /** Lines 191-194. */
  function WithFixed(data: map<Key, Column>, t: Table): map<Key, Column> {
    data[MeanKey := Numbers(t.mean)][StdKey := Numbers(t.std)]
        [EntriesKey := Numbers(t.entries)][IsOKKey := Flags(t.isOK)]
  }

  /** Lines 195-197, after `k` iterations. */
  function WithQuantiles(data: map<Key, Column>, t: Table, k: nat): map<Key, Column>
    requires k <= |t.quantiles|
    decreases k
  {
    if k == 0 then data
    else WithQuantiles(data, t, k - 1)[QuantileKey(k - 1) := Numbers(t.quantiles[k - 1])]
  }

  /** Lines 198-201, after `i` iterations. */
  function WithSums(data: map<Key, Column>, t: Table, i: nat): map<Key, Column>
    requires i <= |t.sums| && i <= |t.normed|
    decreases i
  {
    if i == 0 then data
    else WithSums(data, t, i - 1)[SumKey(i - 1) := Numbers(t.sums[i - 1])]
                                 [SumNormedKey(i - 1) := Numbers(t.normed[i - 1])]
  }

  /** `data` after lines 191-201. */
  function Publish(data: map<Key, Column>, t: Table): map<Key, Column>
    requires |t.normed| == |t.sums|
  {
    WithSums(WithQuantiles(WithFixed(data, t), t, |t.quantiles|), t, |t.sums|)
  }

  // ---- The data source ----

  class HistoNdProfile {
    var source: Histogram
    var axisIdx: nat
    var quantiles: seq<real>
    var sumRange: seq<Box>
    var data: map<Key, Column>

    /** update() reads every row it visits inside the arrays. */
    predicate Readable()
      reads this
    {
      HasAxis(source, axisIdx)
      && TableReadable(AxisOf(source, axisIdx), source.length,
                       source.strides[axisIdx], source.strides[axisIdx], 0)
    }

    /** The columns update() computes: both strides are
        `source.get_stride(axis_idx)` (lines 76-77). */
    function Profiled(): Table
      reads this
      requires Readable()
    {
      var stride := source.strides[axisIdx];
      TableOf(AxisOf(source, axisIdx), source.length, quantiles, sumRange, stride, stride)
    }

    /** The constructor and initialize() (lines 21-23, 37-41): the properties
        are set and update() runs once. */
    constructor (source: Histogram, axisIdx: nat, quantiles: seq<real>, sumRange: seq<Box>)
      requires HasAxis(source, axisIdx)
      requires TableReadable(AxisOf(source, axisIdx), source.length,
                             source.strides[axisIdx], source.strides[axisIdx], 0)
      ensures this.source == source && this.axisIdx == axisIdx
      ensures this.quantiles == quantiles && this.sumRange == sumRange
      ensures data == Publish(map[], Profiled())
    {
      this.source := source;
      this.axisIdx := axisIdx;
      this.quantiles := quantiles;
      this.sumRange := sumRange;
      data := map[];
      new;
      Update();
    }

    /** update() (lines 49-204). */
    method Update()
      requires Readable()
      modifies this`data
      ensures data == Publish(old(data), Profiled())
    {
      var stride := source.strides[axisIdx];
      var t := Reduce(AxisOf(source, axisIdx), source.length, quantiles, sumRange, stride, stride);
      PublishTable(t);
    }

    /** Lines 191-201: the fixed columns, then one column per quantile, then
        two per box. */
    method PublishTable(t: Table)
      requires |t.normed| == |t.sums|
      modifies this`data
      ensures data == Publish(old(data), t)
    {
      data := data[MeanKey := Numbers(t.mean)][StdKey := Numbers(t.std)]
                  [EntriesKey := Numbers(t.entries)][IsOKKey := Flags(t.isOK)];
      ghost var fixed := data;
      var k: nat := 0;
      while k < |t.quantiles|
        invariant k <= |t.quantiles| && data == WithQuantiles(fixed, t, k)
      {
        data := data[QuantileKey(k) := Numbers(t.quantiles[k])];
        k := k + 1;
      }
      ghost var quantiled := data;
      var i: nat := 0;
      while i < |t.sums|
        invariant i <= |t.sums| && data == WithSums(quantiled, t, i)
      {
        data := data[SumKey(i) := Numbers(t.sums[i])][SumNormedKey(i) := Numbers(t.normed[i])];
        i := i + 1;
      }
    }
  }

  lemma {:induction false} WithQuantilesAt(data: map<Key, Column>, t: Table, k: nat, key: Key)
    requires k <= |t.quantiles|
    ensures key in WithQuantiles(data, t, k) <==> key in data || (Published(key, k, 0) && key.QuantileKey?)
    ensures Published(key, k, 0) && key.QuantileKey? ==> WithQuantiles(data, t, k)[key] == ColumnOf(t, key)
    ensures key in data && !(Published(key, k, 0) && key.QuantileKey?) ==>
      WithQuantiles(data, t, k)[key] == data[key]
    decreases k
  {
    if k > 0 {
      WithQuantilesAt(data, t, k - 1, key);
    }
  }

  lemma {:induction false} WithSumsAt(data: map<Key, Column>, t: Table, i: nat, key: Key)
    requires i <= |t.sums| && i <= |t.normed|
    ensures key in WithSums(data, t, i) <==>
      key in data || (Published(key, 0, i) && (key.SumKey? || key.SumNormedKey?))
    ensures Published(key, 0, i) && (key.SumKey? || key.SumNormedKey?) ==>
      WithSums(data, t, i)[key] == ColumnOf(t, key)
    ensures key in data && !(Published(key, 0, i) && (key.SumKey? || key.SumNormedKey?)) ==>
      WithSums(data, t, i)[key] == data[key]
    decreases i
  {
    if i > 0 {
      WithSumsAt(data, t, i - 1, key);
    }
  }

  /** After publishing, `data` holds every column of the table under its
      name and keeps every other key as it was. */
  lemma PublishedColumns(data: map<Key, Column>, t: Table)
    requires |t.normed| == |t.sums|
    ensures forall key :: key in Publish(data, t) <==> key in data || Published(key, |t.quantiles|, |t.sums|)
    ensures forall key :: Published(key, |t.quantiles|, |t.sums|) ==> Publish(data, t)[key] == ColumnOf(t, key)
    ensures forall key :: key in data && !Published(key, |t.quantiles|, |t.sums|) ==>
      Publish(data, t)[key] == data[key]
  {
    forall key
      ensures key in Publish(data, t) <==> key in data || Published(key, |t.quantiles|, |t.sums|)
      ensures Published(key, |t.quantiles|, |t.sums|) ==> Publish(data, t)[key] == ColumnOf(t, key)
      ensures key in data && !Published(key, |t.quantiles|, |t.sums|) ==> Publish(data, t)[key] == data[key]
    {
      PublishedAt(data, t, key);
    }
  }

  lemma PublishedAt(data: map<Key, Column>, t: Table, key: Key)
    requires |t.normed| == |t.sums|
    ensures key in Publish(data, t) <==> key in data || Published(key, |t.quantiles|, |t.sums|)
    ensures Published(key, |t.quantiles|, |t.sums|) ==> Publish(data, t)[key] == ColumnOf(t, key)
    ensures key in data && !Published(key, |t.quantiles|, |t.sums|) ==> Publish(data, t)[key] == data[key]
  {
    var fixed := WithFixed(data, t);
    WithQuantilesAt(fixed, t, |t.quantiles|, key);
    WithSumsAt(WithQuantiles(fixed, t, |t.quantiles|), t, |t.sums|, key);
  }

  /** Running update() twice on the same source leaves the same `data` as
      running it once. */
  lemma PublishIdempotent(data: map<Key, Column>, t: Table)
    requires |t.normed| == |t.sums|
    ensures Publish(Publish(data, t), t) == Publish(data, t)
  {
    PublishedColumns(data, t);
    PublishedColumns(Publish(data, t), t);
  }

  // ---- Shape of the published columns ----

  /** Every fixed column holds `n` values and every quantile and sum column
      holds `n` values too. */
  predicate Aligned(t: Table, n: nat) {
    |t.mean| == n && |t.std| == n && |t.entries| == n && |t.isOK| == n
    && (forall k :: 0 <= k < |t.quantiles| ==> |t.quantiles[k]| == n)
    && (forall i :: 0 <= i < |t.sums| ==> |t.sums[i]| == n)
    && (forall i :: 0 <= i < |t.normed| ==> |t.normed[i]| == n)
  }

  lemma {:induction false} EmitAllShape(t: Table, rows: seq<Row>)
    ensures var e := EmitAll(t, rows);
      |e.quantiles| == |t.quantiles| && |e.sums| == |t.sums| && |e.normed| == |t.normed|
      && |e.mean| == |t.mean| + |rows| && |e.std| == |t.std| + |rows|
      && |e.entries| == |t.entries| + |rows| && |e.isOK| == |t.isOK| + |rows|
    decreases |rows|
  {
    if rows != [] {
      EmitAllShape(Emit(t, rows[0]), rows[1..]);
    }
  }

  /** One column per quantile, two per box, and one value per row in each of
      `mean`, `std`, `entries` and `isOK`. */
  lemma TableShape(v: Axis, length: nat, q: seq<real>, boxes: seq<Box>, strideLow: nat, strideHigh: nat)
    requires TableReadable(v, length, strideLow, strideHigh, 0)
    ensures var t := TableOf(v, length, q, boxes, strideLow, strideHigh);
      var n := |AllRows(v, length, q, boxes, strideLow, strideHigh, 0)|;
      |t.quantiles| == |q| && |t.sums| == |boxes| == |t.normed|
      && |t.mean| == n && |t.std| == n && |t.entries| == n && |t.isOK| == n
  {
    EmitAllShape(EmptyTable(|q|, |boxes|), AllRows(v, length, q, boxes, strideLow, strideHigh, 0));
  }

  /** With data present, every quantile and sum column receives one value per
      row, like the fixed columns: the published columns line up. */
  lemma TableAligned(v: Axis, length: nat, q: seq<real>, boxes: seq<Box>, strideLow: nat, strideHigh: nat)
    requires TableReadable(v, length, strideLow, strideHigh, 0) && HasData(v)
    ensures Aligned(TableOf(v, length, q, boxes, strideLow, strideHigh),
                    |AllRows(v, length, q, boxes, strideLow, strideHigh, 0)|)
  {
    EmitAllAligned(EmptyTable(|q|, |boxes|), AllRows(v, length, q, boxes, strideLow, strideHigh, 0), 0);
  }

  lemma {:induction false} EmitAllAligned(t: Table, rows: seq<Row>, n: nat)
    requires Aligned(t, n) && |t.sums| == |t.normed|
    requires forall i :: 0 <= i < |rows| ==> Full(rows[i], |t.quantiles|, |t.sums|)
    ensures Aligned(EmitAll(t, rows), n + |rows|)
    decreases |rows|
  {
    if rows != [] {
      EmitAllAligned(Emit(t, rows[0]), rows[1..], n + 1);
    }
  }

  predicate AllNone(column: seq<Option<real>>) {
    forall j :: 0 <= j < |column| ==> column[j].None?
  }

  predicate AllFalse(column: seq<bool>) {
    forall j :: 0 <= j < |column| ==> !column[j]
  }

  /** Without `bin_count` or without the centres every row is NaN and not
      OK, and the `continue` of line 99 leaves every quantile and sum
      column empty however many rows the fixed columns get. */
  lemma NullTable(v: Axis, length: nat, q: seq<real>, boxes: seq<Box>, strideLow: nat, strideHigh: nat)
    requires TableReadable(v, length, strideLow, strideHigh, 0) && !HasData(v)
    ensures var t := TableOf(v, length, q, boxes, strideLow, strideHigh);
      AllNone(t.mean) && AllNone(t.std) && AllNone(t.entries) && AllFalse(t.isOK)
      && (forall k :: 0 <= k < |t.quantiles| ==> t.quantiles[k] == [])
      && (forall i :: 0 <= i < |t.sums| ==> t.sums[i] == [] && t.normed[i] == [])
  {
    EmitAllNull(EmptyTable(|q|, |boxes|), AllRows(v, length, q, boxes, strideLow, strideHigh, 0));
  }

  lemma {:induction false} EmitAllNull(t: Table, rows: seq<Row>)
    requires AllNone(t.mean) && AllNone(t.std) && AllNone(t.entries) && AllFalse(t.isOK)
    requires forall i :: 0 <= i < |rows| ==> rows[i] == NullRow()
    ensures var e := EmitAll(t, rows);
      AllNone(e.mean) && AllNone(e.std) && AllNone(e.entries) && AllFalse(e.isOK)
      && e.quantiles == t.quantiles && e.sums == t.sums && e.normed == t.normed
    decreases |rows|
  {
    if rows != [] {
      var e := Emit(t, rows[0]);
      assert e.quantiles == t.quantiles && e.sums == t.sums && e.normed == t.normed;
      EmitAllNull(e, rows[1..]);
    }
  }

  // ---- Row count and layout ----

  lemma {:induction false} ColumnRowCount(v: Axis, length: nat, q: seq<real>, boxes: seq<Box>,
                                          strideLow: nat, strideHigh: nat, x: nat, z: nat)
    requires RowsReadable(v, length, strideLow, strideHigh, x, z) && strideHigh > 0
    ensures |ColumnRows(v, length, q, boxes, strideLow, strideHigh, x, z)| == GridCount(z, strideHigh, length)
    decreases length - z
  {
    if z < length {
      ColumnRowCount(v, length, q, boxes, strideLow, strideHigh, x, z + strideHigh);
    }
  }

  /** `strideLow` passes of the `x` loop, each with one row per block of
      `strideHigh` flat bins. */
  lemma {:induction false} RowCount(v: Axis, length: nat, q: seq<real>, boxes: seq<Box>,
                                    strideLow: nat, strideHigh: nat, x: nat)
    requires TableReadable(v, length, strideLow, strideHigh, x) && strideHigh > 0 && x <= strideLow
    ensures |AllRows(v, length, q, boxes, strideLow, strideHigh, x)|
         == (strideLow - x) * GridCount(0, strideHigh, length)
    decreases strideLow - x
  {
    if x < strideLow {
      var g := GridCount(0, strideHigh, length);
      ColumnRowCount(v, length, q, boxes, strideLow, strideHigh, x, 0);
      RowCount(v, length, q, boxes, strideLow, strideHigh, x + 1);
      PeelFactor(strideLow - x, g);
    }
  }

  lemma PeelFactor(n: nat, g: nat)
    requires n > 0
    ensures n * g == g + (n - 1) * g
  {
  }

  lemma {:induction false} RowsReadableFrom(v: Axis, length: nat, strideLow: nat, strideHigh: nat, x: nat, k: nat)
    requires Shaped(v, length) && Divides(strideLow, strideHigh) && Divides(strideHigh, length)
    requires x < strideLow && Offset(k, strideHigh) <= length
    ensures RowsReadable(v, length, strideLow, strideHigh, x, Offset(k, strideHigh))
    decreases length - Offset(k, strideHigh)
  {
    var z := Offset(k, strideHigh);
    if z < length {
      NextMultiple(k, strideHigh, length);
      LayoutInBounds(length, x, z, strideLow, strideHigh);
      RowsReadableFrom(v, length, strideLow, strideHigh, x, k + 1);
    }
  }

  /** On a histogram whose strides divide each other and the flat length,
      every read of the traversal is inside the arrays. */
  lemma {:induction false} LayoutReadable(v: Axis, length: nat, strideLow: nat, strideHigh: nat, x: nat)
    requires Shaped(v, length) && Divides(strideLow, strideHigh) && Divides(strideHigh, length)
    ensures TableReadable(v, length, strideLow, strideHigh, x)
    decreases strideLow - x
  {
    if x < strideLow {
      RowsReadableFrom(v, length, strideLow, strideHigh, x, 0);
      LayoutReadable(v, length, strideLow, strideHigh, x + 1);
    }
  }

  /** update() reads inside the arrays of any histogram whose flat length is
      a whole number of strides of the profile axis. */
  lemma HistogramReadable(h: Histogram, axisIdx: nat)
    requires HasAxis(h, axisIdx) && Shaped(AxisOf(h, axisIdx), h.length)
    requires h.strides[axisIdx] > 0 ==> Divides(h.strides[axisIdx], h.length)
    ensures TableReadable(AxisOf(h, axisIdx), h.length, h.strides[axisIdx], h.strides[axisIdx], 0)
  {
    var stride := h.strides[axisIdx];
    if stride > 0 {
      DividesSelf(stride);
      LayoutReadable(AxisOf(h, axisIdx), h.length, stride, stride, 0);
    }
  }

  /** With both strides equal (lines 76-77) the table has one row per flat
      bin of the histogram. */
  lemma AsWrittenRowCount(v: Axis, length: nat, q: seq<real>, boxes: seq<Box>, stride: nat)
    requires Shaped(v, length) && Divides(stride, length)
    ensures TableReadable(v, length, stride, stride, 0)
    ensures |AllRows(v, length, q, boxes, stride, stride, 0)| == length
  {
    DividesSelf(stride);
    LayoutReadable(v, length, stride, stride, 0);
    RowCount(v, length, q, boxes, stride, stride, 0);
    StepsPerBin(stride, length);
    WholeSteps(stride, length);
  }

  /** With both strides equal every profile has a single step: the row of
      the bin at `x + z` has that bin's count as `entries` and, when the
      count is positive, that bin's centre as mean and a variance of zero. */
  lemma AsWrittenRow(v: Axis, length: nat, q: seq<real>, boxes: seq<Box>, stride: nat, x: nat, z: nat)
    requires RowReadable(v, length, stride, stride, x, z) && HasData(v)
    ensures x + z < length
    ensures var r := RowAt(v, length, q, boxes, stride, stride, x, z);
      var count := v.binCount.value[x + z];
      r.entries == Some(count)
      && (count > 0.0 ==> r.mean == Some(v.binCenters.value[x + z]) && r.variance == Some(0.0))
  {
    var counts, centers := v.binCount.value, v.binCenters.value;
    WalkUnfold(counts, x + z, 0, stride, stride, x + z);
    WalkUnfold(centers, x + z, 0, stride, stride, x + z);
    var c, m := counts[x + z], centers[x + z];
    assert AxisSlice(counts, x, z, stride, stride) == [c];
    assert AxisSlice(centers, x, z, stride, stride) == [m];
    assert Sum([c]) == c;
    if c > 0.0 {
      assert WeightedSum([c], [m]) == c * m;
      assert c * m / c == m;
      assert SquaredDeviation([c], [m], m) == 0.0;
    }
  }

  // ---- Properties of one row ----

  /** With non-negative counts: `entries` is the non-negative total, the row
      is OK exactly when it is positive, the mean then lies between the
      smallest and the largest centre and the variance is non-negative;
      otherwise mean, variance and every quantile are NaN. */
  lemma RowStatistics(v: Axis, length: nat, q: seq<real>, boxes: seq<Box>,
                      strideLow: nat, strideHigh: nat, x: nat, z: nat)
    requires RowReadable(v, length, strideLow, strideHigh, x, z) && HasData(v)
    requires NonNegative(AxisSlice(v.binCount.value, x, z, strideLow, strideHigh))
    ensures var r := RowAt(v, length, q, boxes, strideLow, strideHigh, x, z);
      var centers := AxisSlice(v.binCenters.value, x, z, strideLow, strideHigh);
      |centers| > 0 && r.entries.Some? && r.entries.value >= 0.0
      && (r.isOK <==> r.entries.value > 0.0)
      && (r.isOK ==> r.mean.Some? && Min(centers) <= r.mean.value <= Max(centers)
                     && r.variance.Some? && r.variance.value >= 0.0)
      && (!r.isOK ==> r.mean.None? && r.variance.None? && forall k :: 0 <= k < |q| ==> r.quantiles[k].None?)
  {
    var counts := AxisSlice(v.binCount.value, x, z, strideLow, strideHigh);
    var centers := AxisSlice(v.binCenters.value, x, z, strideLow, strideHigh);
    assert GridCount(0, strideLow, strideHigh) > 0;
    SumNonNegative(counts);
    if Sum(counts) > 0.0 {
      MeanWithinCenters(counts, centers);
      VarianceNonNegative(counts, centers);
    }
  }

  /** For sorted fractions and non-negative counts with `entries > 0`,
      quantile `k` is a number exactly when `0 <= quantiles[k] < 1`. */
  lemma RowQuantiles(v: Axis, length: nat, q: seq<real>, boxes: seq<Box>,
                     strideLow: nat, strideHigh: nat, x: nat, z: nat)
    requires RowReadable(v, length, strideLow, strideHigh, x, z) && HasData(v) && Sorted(q)
    requires NonNegative(AxisSlice(v.binCount.value, x, z, strideLow, strideHigh))
    requires Sum(AxisSlice(v.binCount.value, x, z, strideLow, strideHigh)) > 0.0
    ensures var r := RowAt(v, length, q, boxes, strideLow, strideHigh, x, z);
      forall k :: 0 <= k < |q| ==> (r.quantiles[k].Some? <==> 0.0 <= q[k] < 1.0)
  {
    var counts := AxisSlice(v.binCount.value, x, z, strideLow, strideHigh);
    var cumulative, entries := Cumulative(counts), Sum(counts);
    assert GridCount(0, strideLow, strideHigh) > 0;
    WalkFits(length, x + z, 0, strideLow, strideHigh);
    CumulativeNonDecreasing(counts);
    CumulativeLast(counts);
    SortedQuantiles(q, entries, cumulative, v.edgesLeft, v.edgesRight);
    forall k | 0 <= k < |q|
      ensures QuantileBin(cumulative, entries, q[k]).Some? <==> 0.0 <= q[k] < 1.0
    {
      QuantileDefined(cumulative, entries, q[k]);
    }
  }

  /** With non-negative counts and edges that span a positive width, each
      ordered box sums to between 0 and `entries` (its normed value to
      between 0 and 1 when `entries > 0`), and the box of the whole axis
      sums to `entries`. */
  lemma RowSums(v: Axis, length: nat, q: seq<real>, boxes: seq<Box>,
                strideLow: nat, strideHigh: nat, x: nat, z: nat)
    requires RowReadable(v, length, strideLow, strideHigh, x, z) && HasData(v)
    requires NonNegative(AxisSlice(v.binCount.value, x, z, strideLow, strideHigh))
    requires v.edgesLeft[0] < v.edgesRight[length - 1]
    ensures var r := RowAt(v, length, q, boxes, strideLow, strideHigh, x, z);
      var entries := Sum(AxisSlice(v.binCount.value, x, z, strideLow, strideHigh));
      forall i :: 0 <= i < |boxes| ==>
        (boxes[i].lower <= boxes[i].upper ==>
           r.sums[i].Some? && 0.0 <= r.sums[i].value <= entries
           && (entries > 0.0 ==> r.normed[i].Some? && 0.0 <= r.normed[i].value <= 1.0))
        && (boxes[i] == Box(v.edgesLeft[0], v.edgesRight[length - 1]) ==> r.sums[i] == Some(entries))
  {
    var counts := AxisSlice(v.binCount.value, x, z, strideLow, strideHigh);
    var cumulative, entries := Cumulative(counts), Sum(counts);
    var low, high := v.edgesLeft[0], v.edgesRight[length - 1];
    assert GridCount(0, strideLow, strideHigh) > 0;
    CumulativeNonDecreasing(counts);
    CumulativeLast(counts);
    FullRangeSum(cumulative, entries, low, high);
    forall i | 0 <= i < |boxes| && boxes[i].lower <= boxes[i].upper
      ensures var s := BoxSum(cumulative, entries, low, high, boxes[i]);
        s.Some? && 0.0 <= s.value <= entries
        && (entries > 0.0 ==> Normed(s, entries).Some? && 0.0 <= Normed(s, entries).value <= 1.0)
    {
      BoxSumBounds(cumulative, entries, low, high, boxes[i]);
    }
  }
}
