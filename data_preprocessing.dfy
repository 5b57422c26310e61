/**
 * The dataset cleaner `clean_data` (src/data_preprocessing.py, lines 3-26).
 * A frame is a sequence of rows and a missing cell is `None`. The cleaner
 *  1. drops the rows whose CPU temperature is missing,
 *  2. fills missing memory-usage and CPU-frequency cells with the mean of the
 *     present cells of that column, over the rows left by step 1,
 *  3. keeps the rows whose CPU temperature lies in [20, 100], bounds included,
 *  4. keeps six columns, in a fixed order.
 * `CleanData` is that pipeline as a composition of whole-frame functions;
 * `CleanFrame` computes it step by step, filling the two columns of an array
 * in place as the source overwrites them.
 */
module DataPreprocessing {
  import opened Wrappers

  /** A row of the raw telemetry frame. */
  datatype RawRow = RawRow(
    cpuUsage: Option<real>,
    cpuFrequency: Option<real>,
    memoryUsage: Option<real>,
    diskUsage: Option<real>,
    processCount: Option<real>,
    threadCount: Option<real>,
    gpuTemperature: Option<real>,
    cpuTemperature: Option<real>)

  /** A row of the cleaned frame: the six columns kept, in their order. */
  datatype CleanRow = CleanRow(
    cpuUsage: Option<real>,
    cpuFrequency: Option<real>,
    memoryUsage: Option<real>,
    processCount: Option<real>,
    threadCount: Option<real>,
    cpuTemperature: Option<real>)

  /** The columns the cleaner keeps (src/data_preprocessing.py:20-23). */
  const RequiredColumns: seq<string> := [
    "CPU_Usage", "CPU_Frequency", "Memory_Usage",
    "Process_Count", "Thread_Count", "CPU_Temperature"
  ]

  const MinTemperature: real := 20.0
  const MaxTemperature: real := 100.0

  /** The two columns whose missing cells are filled with the column mean. */
  datatype ImputedColumn = MemoryUsage | CpuFrequency

  // ---------------------------------------------------------------------------
  // Order-preserving row selection

  /** The elements of `s` that satisfy `p`, in their order (a boolean-mask selection). */
  function Filter(p: RawRow -> bool, s: seq<RawRow>): (r: seq<RawRow>)
    ensures |r| <= |s|
  {
    if s == [] then []
    else Filter(p, s[..|s| - 1]) + (if p(s[|s| - 1]) then [s[|s| - 1]] else [])
  }

  /** The positions of the elements of `s` that satisfy `p`, in increasing order. */
  function Selected(p: RawRow -> bool, s: seq<RawRow>): seq<nat> {
    if s == [] then []
    else Selected(p, s[..|s| - 1]) + (if p(s[|s| - 1]) then [|s| - 1] else [])
  }

  /** The positions `Selected` lists are in range and strictly increasing. */
  lemma {:induction false} SelectedIncreasing(p: RawRow -> bool, s: seq<RawRow>)
    ensures forall k :: 0 <= k < |Selected(p, s)| ==> Selected(p, s)[k] < |s|
    ensures forall j, k :: 0 <= j < k < |Selected(p, s)| ==> Selected(p, s)[j] < Selected(p, s)[k]
  {
    if s != [] {
      var init := s[..|s| - 1];
      SelectedIncreasing(p, init);
      var rest := Selected(p, init);
      assert Selected(p, s) == rest + (if p(s[|s| - 1]) then [|s| - 1] else []);
    }
  }

  /**
   * `Selected` lists the positions `Filter` keeps: increasing, exactly the
   * positions whose element satisfies `p`, and each one holding the element
   * `Filter` puts at the same place.
   */
  lemma {:induction false} SelectedIsFilter(p: RawRow -> bool, s: seq<RawRow>)
    ensures var idx, r := Selected(p, s), Filter(p, s);
      |idx| == |r|
      && (forall k :: 0 <= k < |idx| ==> idx[k] < |s| && s[idx[k]] == r[k])
      && (forall j, k :: 0 <= j < k < |idx| ==> idx[j] < idx[k])
      && (forall i :: 0 <= i < |s| ==> (p(s[i]) <==> i in idx))
  {
    SelectedIncreasing(p, s);
    if s != [] {
      var init, last := s[..|s| - 1], s[|s| - 1];
      SelectedIsFilter(p, init);
      var rest, kept := Selected(p, init), Filter(p, init);
      var idx, r := Selected(p, s), Filter(p, s);
      assert idx == rest + (if p(last) then [|s| - 1] else []);
      assert r == kept + (if p(last) then [last] else []);
      forall k | 0 <= k < |idx|
        ensures s[idx[k]] == r[k]
      {
        if k < |rest| {
          assert idx[k] == rest[k] && r[k] == kept[k];
          assert s[rest[k]] == init[rest[k]];
        }
      }
      forall i | 0 <= i < |s|
        ensures p(s[i]) <==> i in idx
      {
        if i < |init| {
          assert s[i] == init[i];
          assert i in idx <==> i in rest;
        } else {
          assert i !in rest;
        }
      }
    }
  }

  lemma {:induction false} FilterAppend(p: RawRow -> bool, s: seq<RawRow>, x: RawRow)
    ensures Filter(p, s + [x]) == Filter(p, s) + (if p(x) then [x] else [])
  {
    assert (s + [x])[..|s + [x]| - 1] == s;
  }

  /** Selecting by `q` and then by a stronger `p` is selecting by `p`. */
  lemma {:induction false} FilterStronger(p: RawRow -> bool, q: RawRow -> bool, s: seq<RawRow>)
    requires forall x :: p(x) ==> q(x)
    ensures Filter(p, Filter(q, s)) == Filter(p, s)
  {
    if s != [] {
      var init, last := s[..|s| - 1], s[|s| - 1];
      FilterStronger(p, q, init);
      assert Filter(p, s) == Filter(p, init) + (if p(last) then [last] else []);
      if q(last) {
        assert Filter(q, s) == Filter(q, init) + [last];
        FilterAppend(p, Filter(q, init), last);
      } else {
        assert Filter(q, s) == Filter(q, init);
        assert !p(last);
      }
    }
  }

  // ---------------------------------------------------------------------------
  // Step 1: drop rows with a missing target (src/data_preprocessing.py:9)

  predicate HasTarget(r: RawRow) {
    r.cpuTemperature.Some?
  }

  // ---------------------------------------------------------------------------
  // Step 2: mean imputation (src/data_preprocessing.py:12-13)

  function Cell(r: RawRow, c: ImputedColumn): Option<real> {
    match c
    case MemoryUsage => r.memoryUsage
    case CpuFrequency => r.cpuFrequency
  }

  /** The present cells of a column, in row order (what a pandas mean skips NaN to). */
  function PresentValues(rows: seq<RawRow>, c: ImputedColumn): (v: seq<real>)
    ensures |v| <= |rows|
  {
    if rows == [] then []
    else
      var last := Cell(rows[|rows| - 1], c);
      PresentValues(rows[..|rows| - 1], c) + (if last.Some? then [last.value] else [])
  }

  function Sum(s: seq<real>): real {
    if s == [] then 0.0 else Sum(s[..|s| - 1]) + s[|s| - 1]
  }

  /** The mean of the present cells of a column; missing when no cell is present. */
  function ColumnMean(rows: seq<RawRow>, c: ImputedColumn): (m: Option<real>)
    ensures m.None? <==> PresentValues(rows, c) == []
    ensures m.Some? ==> m.value * |PresentValues(rows, c)| as real == Sum(PresentValues(rows, c))
  {
    var v := PresentValues(rows, c);
    if |v| == 0 then None else Some(Sum(v) / |v| as real)
  }

  /** `fillna(m)` on one cell: a present cell stays, a missing one becomes `m`. */
  function FillCell(r: RawRow, c: ImputedColumn, m: Option<real>): RawRow {
    if Cell(r, c).Some? then r
    else match c
      case MemoryUsage => r.(memoryUsage := m)
      case CpuFrequency => r.(cpuFrequency := m)
  }

  function FillColumn(rows: seq<RawRow>, c: ImputedColumn, m: Option<real>): (r: seq<RawRow>)
    ensures |r| == |rows|
  {
    seq(|rows|, i requires 0 <= i < |rows| => FillCell(rows[i], c, m))
  }

  // ---------------------------------------------------------------------------
  // Step 3: the physical range of the target (src/data_preprocessing.py:17)

  /** The boolean mask of line 17; a missing target compares false, as NaN does. */
  predicate TargetInRange(r: RawRow) {
    r.cpuTemperature.Some? && MinTemperature <= r.cpuTemperature.value <= MaxTemperature
  }

  // ---------------------------------------------------------------------------
  // Step 4: column projection (src/data_preprocessing.py:20-24)

  function Project(r: RawRow): CleanRow {
    CleanRow(r.cpuUsage, r.cpuFrequency, r.memoryUsage, r.processCount, r.threadCount,
             r.cpuTemperature)
  }

  function ProjectAll(rows: seq<RawRow>): (r: seq<CleanRow>)
    ensures |r| == |rows|
  {
    seq(|rows|, i requires 0 <= i < |rows| => Project(rows[i]))
  }

  /** A row as named cells. */
  type NamedCells = seq<(string, Option<real>)>

  /** The eight telemetry cells of a raw row, by name. */
  function RawCells(r: RawRow): NamedCells {
    [ ("CPU_Usage", r.cpuUsage), ("CPU_Frequency", r.cpuFrequency),
      ("Memory_Usage", r.memoryUsage), ("Disk_Usage", r.diskUsage),
      ("Process_Count", r.processCount), ("Thread_Count", r.threadCount),
      ("GPU_Temperature", r.gpuTemperature), ("CPU_Temperature", r.cpuTemperature) ]
  }

  /** The named cells of a cleaned row, in column order. */
  function Cells(c: CleanRow): NamedCells {
    [ ("CPU_Usage", c.cpuUsage), ("CPU_Frequency", c.cpuFrequency),
      ("Memory_Usage", c.memoryUsage), ("Process_Count", c.processCount),
      ("Thread_Count", c.threadCount), ("CPU_Temperature", c.cpuTemperature) ]
  }

  /** The cell of the first column called `name`, as `df[name]` selects it. */
  function Column(cells: NamedCells, name: string): Option<Option<real>> {
    if cells == [] then None
    else if cells[0].0 == name then Some(cells[0].1)
    else Column(cells[1..], name)
  }

  // ---------------------------------------------------------------------------
  // The whole cleaner

  /** `clean_data`: the four steps in the source's order. */
  function CleanData(rows: seq<RawRow>): (r: seq<CleanRow>)
    ensures |r| <= |rows|
  {
    var withTarget := Filter(HasTarget, rows);
    var memFilled := FillColumn(withTarget, MemoryUsage, ColumnMean(withTarget, MemoryUsage));
    var filled := FillColumn(memFilled, CpuFrequency, ColumnMean(memFilled, CpuFrequency));
    ProjectAll(Filter(TargetInRange, filled))
  }

  /** The cleaned form of one raw row, given the two column means. */
  function CleanRowOf(r: RawRow, memMean: Option<real>, freqMean: Option<real>): CleanRow {
    Project(FillCell(FillCell(r, MemoryUsage, memMean), CpuFrequency, freqMean))
  }

  /** The means the cleaner fills with: over the rows that have a target, outliers included. */
  function ImputationMean(rows: seq<RawRow>, c: ImputedColumn): Option<real> {
    ColumnMean(Filter(HasTarget, rows), c)
  }

  // ---------------------------------------------------------------------------
  // Lemmas

  /** Filling a column does not change whether a row passes the range mask. */
  lemma {:induction false} FilterRangeFill(rows: seq<RawRow>, c: ImputedColumn, m: Option<real>)
    ensures Filter(TargetInRange, FillColumn(rows, c, m))
            == FillColumn(Filter(TargetInRange, rows), c, m)
  {
    if rows != [] {
      var init, last := rows[..|rows| - 1], rows[|rows| - 1];
      assert FillColumn(rows, c, m)[..|rows| - 1] == FillColumn(init, c, m);
      FilterRangeFill(init, c, m);
      var kept := Filter(TargetInRange, init);
      if TargetInRange(last) {
        assert FillColumn(kept + [last], c, m) == FillColumn(kept, c, m) + [FillCell(last, c, m)];
      }
    }
  }

  /** Filling missing memory cells leaves the frequency column as it was. */
  lemma {:induction false} FillMemoryKeepsFrequency(rows: seq<RawRow>, m: Option<real>)
    ensures PresentValues(FillColumn(rows, MemoryUsage, m), CpuFrequency)
            == PresentValues(rows, CpuFrequency)
  {
    if rows != [] {
      var init := rows[..|rows| - 1];
      assert FillColumn(rows, MemoryUsage, m)[..|rows| - 1] == FillColumn(init, MemoryUsage, m);
      FillMemoryKeepsFrequency(init, m);
    }
  }

  /**
   * The cleaner works row by row: its output is the cleaned form of each row
   * whose target is present and in range, in order, filled with the means
   * taken before the range filter.
   */
  lemma CleanDataRowwise(rows: seq<RawRow>)
    ensures var out, kept := CleanData(rows), Filter(TargetInRange, rows);
      |out| == |kept|
      && forall k :: 0 <= k < |out| ==>
           out[k] == CleanRowOf(kept[k], ImputationMean(rows, MemoryUsage),
                                ImputationMean(rows, CpuFrequency))
  {
    var withTarget := Filter(HasTarget, rows);
    var mm := ColumnMean(withTarget, MemoryUsage);
    var memFilled := FillColumn(withTarget, MemoryUsage, mm);
    FillMemoryKeepsFrequency(withTarget, mm);
    var fm := ColumnMean(memFilled, CpuFrequency);
    var filled := FillColumn(memFilled, CpuFrequency, fm);
    FilterRangeFill(memFilled, CpuFrequency, fm);
    FilterRangeFill(withTarget, MemoryUsage, mm);
    FilterStronger(TargetInRange, HasTarget, rows);
  }

  /**
   * Output row `k` is the cleaned form of input row `Selected(TargetInRange, rows)[k]`:
   * the rows are traced back to their original positions.
   */
  lemma CleanDataOrigin(rows: seq<RawRow>)
    ensures var out, idx := CleanData(rows), Selected(TargetInRange, rows);
      |out| == |idx|
      && forall k :: 0 <= k < |out| ==>
           idx[k] < |rows|
           && out[k] == CleanRowOf(rows[idx[k]], ImputationMean(rows, MemoryUsage),
                                   ImputationMean(rows, CpuFrequency))
  {
    CleanDataRowwise(rows);
    SelectedIsFilter(TargetInRange, rows);
  }

  /** Every cleaned row has a present CPU temperature in [20, 100]. */
  lemma CleanedTargetsInRange(rows: seq<RawRow>)
    ensures forall k :: 0 <= k < |CleanData(rows)| ==>
      var t := CleanData(rows)[k].cpuTemperature;
      t.Some? && 20.0 <= t.value <= 100.0
  {
    CleanDataRowwise(rows);
    var kept := Filter(TargetInRange, rows);
    SelectedIsFilter(TargetInRange, rows);
    forall k | 0 <= k < |kept|
      ensures TargetInRange(kept[k])
    {
      var idx := Selected(TargetInRange, rows);
      assert idx[k] in idx;
    }
  }

  /**
   * Row `i` of the input survives exactly when its target is present and in
   * range; no other condition drops a row. The survivors keep their relative
   * order and their targets.
   */
  lemma CleanDataKeepsExactlyInOrder(rows: seq<RawRow>)
    ensures var out, idx := CleanData(rows), Selected(TargetInRange, rows);
      |out| == |idx| <= |rows|
      && (forall i :: 0 <= i < |rows| ==> (TargetInRange(rows[i]) <==> i in idx))
      && (forall j, k :: 0 <= j < k < |idx| ==> idx[j] < idx[k])
      && (forall k :: 0 <= k < |idx| ==>
            idx[k] < |rows| && out[k].cpuTemperature == rows[idx[k]].cpuTemperature)
  {
    CleanDataOrigin(rows);
    SelectedIsFilter(TargetInRange, rows);
  }

  /** CPU usage, process count and thread count pass through, missing cells included. */
  lemma CleanDataPassesThrough(rows: seq<RawRow>)
    ensures var out, idx := CleanData(rows), Selected(TargetInRange, rows);
      |out| == |idx|
      && forall k :: 0 <= k < |out| ==>
           idx[k] < |rows|
           && out[k].cpuUsage == rows[idx[k]].cpuUsage
           && out[k].processCount == rows[idx[k]].processCount
           && out[k].threadCount == rows[idx[k]].threadCount
  {
    CleanDataOrigin(rows);
  }

  /**
   * A present memory-usage or CPU-frequency cell is kept as it is; a missing
   * one becomes the mean of the present cells of its column over the rows
   * with a target, including rows the range filter later drops.
   */
  lemma CleanDataImputes(rows: seq<RawRow>)
    ensures var out, idx := CleanData(rows), Selected(TargetInRange, rows);
      var mm, fm := ImputationMean(rows, MemoryUsage), ImputationMean(rows, CpuFrequency);
      |out| == |idx|
      && forall k :: 0 <= k < |out| ==>
           idx[k] < |rows|
           && out[k].memoryUsage
              == (if rows[idx[k]].memoryUsage.Some? then rows[idx[k]].memoryUsage else mm)
           && out[k].cpuFrequency
              == (if rows[idx[k]].cpuFrequency.Some? then rows[idx[k]].cpuFrequency else fm)
  {
    CleanDataOrigin(rows);
  }

  /**
   * After cleaning, a column has no missing cell when some row with a target
   * had the cell present; when none had, every cell of that column stays missing.
   */
  lemma CleanDataFillsAllOrNone(rows: seq<RawRow>, c: ImputedColumn)
    ensures var out := CleanData(rows);
      var present := PresentValues(Filter(HasTarget, rows), c);
      forall k :: 0 <= k < |out| ==>
        (present != [] ==> CleanCell(out[k], c).Some?)
        && (present == [] ==> CleanCell(out[k], c).None?)
  {
    CleanDataRowwise(rows);
    var out, kept := CleanData(rows), Filter(TargetInRange, rows);
    var withTarget := Filter(HasTarget, rows);
    if PresentValues(withTarget, c) == [] {
      forall k | 0 <= k < |out|
        ensures CleanCell(out[k], c).None?
      {
        FilterStronger(TargetInRange, HasTarget, rows);
        FilterKeepsOnly(TargetInRange, withTarget, k);
        if Cell(kept[k], c).Some? {
          PresentValuesComplete(withTarget, c, kept[k]);
        }
      }
    }
  }

  /** Every element `Filter` keeps comes from the input and satisfies `p`. */
  lemma FilterKeepsOnly(p: RawRow -> bool, s: seq<RawRow>, k: nat)
    requires k < |Filter(p, s)|
    ensures Filter(p, s)[k] in s && p(Filter(p, s)[k])
  {
    SelectedIsFilter(p, s);
    var idx := Selected(p, s);
    assert idx[k] in idx;
  }

  function CleanCell(r: CleanRow, c: ImputedColumn): Option<real> {
    match c
    case MemoryUsage => r.memoryUsage
    case CpuFrequency => r.cpuFrequency
  }

  /** A row with a present cell contributes that cell to the column's present values. */
  lemma {:induction false} PresentValuesComplete(rows: seq<RawRow>, c: ImputedColumn, r: RawRow)
    requires r in rows && Cell(r, c).Some?
    ensures Cell(r, c).value in PresentValues(rows, c)
  {
    var init := rows[..|rows| - 1];
    if r != rows[|rows| - 1] {
      assert r in init;
      PresentValuesComplete(init, c, r);
    }
  }

  lemma {:induction false} SumBounds(s: seq<real>, lo: real, hi: real)
    requires forall i :: 0 <= i < |s| ==> lo <= s[i] <= hi
    ensures |s| as real * lo <= Sum(s) <= |s| as real * hi
  {
    if s != [] {
      SumBounds(s[..|s| - 1], lo, hi);
    }
  }

  /** The fill value lies within the range of the present cells it averages. */
  lemma ColumnMeanWithin(rows: seq<RawRow>, c: ImputedColumn, lo: real, hi: real)
    requires forall i :: 0 <= i < |rows| && Cell(rows[i], c).Some? ==>
      lo <= Cell(rows[i], c).value <= hi
    requires ColumnMean(rows, c).Some?
    ensures lo <= ColumnMean(rows, c).value <= hi
  {
    var v := PresentValues(rows, c);
    PresentValuesWithin(rows, c, lo, hi);
    SumBounds(v, lo, hi);
    var n, m := |v| as real, ColumnMean(rows, c).value;
    assert m * n == Sum(v) && 0.0 < n;
    assert lo * n <= m * n <= hi * n;
  }

  lemma {:induction false} PresentValuesWithin(rows: seq<RawRow>, c: ImputedColumn, lo: real, hi: real)
    requires forall i :: 0 <= i < |rows| && Cell(rows[i], c).Some? ==>
      lo <= Cell(rows[i], c).value <= hi
    ensures forall i :: 0 <= i < |PresentValues(rows, c)| ==> lo <= PresentValues(rows, c)[i] <= hi
  {
    if rows != [] {
      PresentValuesWithin(rows[..|rows| - 1], c, lo, hi);
    }
  }

  /**
   * The projection `df[required_columns]`: a cleaned row has the six required
   * columns in order, each holding the raw row's cell of the same name, and
   * the raw columns Disk_Usage and GPU_Temperature are gone.
   */
  lemma ProjectSelectsRequiredColumns(r: RawRow)
    ensures |Cells(Project(r))| == |RequiredColumns|
    ensures forall i :: 0 <= i < |RequiredColumns| ==>
      Cells(Project(r))[i].0 == RequiredColumns[i]
      && Column(RawCells(r), RequiredColumns[i]) == Some(Cells(Project(r))[i].1)
    ensures Column(RawCells(r), "Disk_Usage") == Some(r.diskUsage)
    ensures Column(RawCells(r), "GPU_Temperature") == Some(r.gpuTemperature)
    ensures Column(Cells(Project(r)), "Disk_Usage") == None
    ensures Column(Cells(Project(r)), "GPU_Temperature") == None
  {
    var raw, kept := RawCells(r), Cells(Project(r));
    assert CellNames(raw) == ["CPU_Usage", "CPU_Frequency", "Memory_Usage", "Disk_Usage",
                              "Process_Count", "Thread_Count", "GPU_Temperature", "CPU_Temperature"];
    assert CellNames(kept) == RequiredColumns;
    ColumnByDistinctName(raw, 0);
    ColumnByDistinctName(raw, 1);
    ColumnByDistinctName(raw, 2);
    ColumnByDistinctName(raw, 3);
    ColumnByDistinctName(raw, 4);
    ColumnByDistinctName(raw, 5);
    ColumnByDistinctName(raw, 6);
    ColumnByDistinctName(raw, 7);
    ColumnAbsentName(kept, "Disk_Usage");
    ColumnAbsentName(kept, "GPU_Temperature");
  }

  function CellNames(cells: NamedCells): seq<string> {
    seq(|cells|, i requires 0 <= i < |cells| => cells[i].0)
  }

  /** In a row whose column names are distinct, selecting a column by name finds its own cell. */
  lemma {:induction false} ColumnByDistinctName(cells: NamedCells, i: nat)
    requires forall j, k :: 0 <= j < k < |cells| ==> cells[j].0 != cells[k].0
    requires i < |cells|
    ensures Column(cells, cells[i].0) == Some(cells[i].1)
  {
    if i > 0 {
      assert cells[0].0 != cells[i].0;
      ColumnByDistinctName(cells[1..], i - 1);
    }
  }

  /** Selecting a name that is not a column finds nothing. */
  lemma {:induction false} ColumnAbsentName(cells: NamedCells, name: string)
    requires name !in CellNames(cells)
    ensures Column(cells, name) == None
  {
    if cells != [] {
      assert CellNames(cells)[0] == cells[0].0;
      assert CellNames(cells[1..]) == CellNames(cells)[1..];
      ColumnAbsentName(cells[1..], name);
    }
  }

  /**
   * An outlier row still counts towards the mean: its memory usage of 90
   * and CPU frequency of 3000 fill the missing cells of the one row that
   * survives, while a row without a target does not count.
   */
  lemma OutlierCountsTowardsMean()
    ensures CleanData([ExampleOutlier, ExampleKept, ExampleUntargeted])
            == [CleanRow(Some(10.0), Some(3000.0), Some(90.0), Some(80.0), Some(700.0), Some(40.0))]
  {
    var rows := [ExampleOutlier, ExampleKept, ExampleUntargeted];
    var both := [ExampleOutlier, ExampleKept];
    assert rows[..2] == both && both[..1] == [ExampleOutlier];
    assert Filter(HasTarget, rows) == both by {
      assert Filter(HasTarget, both) == both;
    }
    assert ImputationMean(rows, MemoryUsage) == Some(90.0) by {
      assert PresentValues(both, MemoryUsage) == [90.0];
      assert [90.0][..0] == [];
    }
    assert ImputationMean(rows, CpuFrequency) == Some(3000.0) by {
      assert PresentValues(both, CpuFrequency) == [3000.0];
      assert [3000.0][..0] == [];
    }
    assert Filter(TargetInRange, rows) == [ExampleKept] by {
      assert Filter(TargetInRange, both) == [ExampleKept];
    }
    CleanDataRowwise(rows);
  }

  const ExampleOutlier: RawRow :=
    RawRow(Some(50.0), Some(3000.0), Some(90.0), None, Some(100.0), Some(900.0), None, Some(150.0))
  const ExampleKept: RawRow :=
    RawRow(Some(10.0), None, None, None, Some(80.0), Some(700.0), None, Some(40.0))
  const ExampleUntargeted: RawRow :=
    RawRow(None, Some(1000.0), Some(10.0), None, None, None, None, None)

  // ---------------------------------------------------------------------------
  // The cleaner, step by step

  /** The mean of the present cells of column `c` of the frame. */
  method ComputeMean(a: array<RawRow>, c: ImputedColumn) returns (m: Option<real>)
    ensures m == ColumnMean(a[..], c)
  {
    ghost var rows := a[..];
    var sum, n := 0.0, 0;
    var i := 0;
    while i < a.Length
      invariant 0 <= i <= a.Length
      invariant sum == Sum(PresentValues(rows[..i], c))
      invariant n == |PresentValues(rows[..i], c)|
    {
      ghost var v := PresentValues(rows[..i], c);
      assert rows[..i + 1][..i] == rows[..i];
      if Cell(a[i], c).Some? {
        assert PresentValues(rows[..i + 1], c) == v + [Cell(a[i], c).value];
        sum, n := sum + Cell(a[i], c).value, n + 1;
      } else {
        assert PresentValues(rows[..i + 1], c) == v;
      }
      i := i + 1;
    }
    assert rows[..a.Length] == rows;
    m := if n == 0 then None else Some(sum / n as real);
  }

  /** `df[col] = df[col].fillna(m)`: overwrites the missing cells of one column in place. */
  method FillMissing(a: array<RawRow>, c: ImputedColumn, m: Option<real>)
    modifies a
    ensures a[..] == FillColumn(old(a[..]), c, m)
  {
    var i := 0;
    while i < a.Length
      invariant 0 <= i <= a.Length
      invariant forall k :: 0 <= k < i ==> a[k] == FillCell(old(a[k]), c, m)
      invariant forall k :: i <= k < a.Length ==> a[k] == old(a[k])
    {
      a[i] := FillCell(a[i], c, m);
      i := i + 1;
    }
  }

  /** `df.dropna(subset=['CPU_Temperature'])`. */
  method DropMissingTarget(rows: seq<RawRow>) returns (withTarget: seq<RawRow>)
    ensures withTarget == Filter(HasTarget, rows)
  {
    withTarget := [];
    var i := 0;
    while i < |rows|
      invariant 0 <= i <= |rows|
      invariant withTarget == Filter(HasTarget, rows[..i])
    {
      FilterAppend(HasTarget, rows[..i], rows[i]);
      assert rows[..i + 1] == rows[..i] + [rows[i]];
      if HasTarget(rows[i]) {
        withTarget := withTarget + [rows[i]];
      }
      i := i + 1;
    }
    assert rows[..|rows|] == rows;
  }

  /** The range mask of line 17 followed by the projection of line 24. */
  method SelectInRange(a: array<RawRow>) returns (out: seq<CleanRow>)
    ensures out == ProjectAll(Filter(TargetInRange, a[..]))
  {
    ghost var rows := a[..];
    out := [];
    var i := 0;
    while i < a.Length
      invariant 0 <= i <= a.Length
      invariant out == ProjectAll(Filter(TargetInRange, rows[..i]))
    {
      FilterAppend(TargetInRange, rows[..i], a[i]);
      assert rows[..i + 1] == rows[..i] + [a[i]];
      if TargetInRange(a[i]) {
        ghost var kept := Filter(TargetInRange, rows[..i]);
        assert ProjectAll(kept + [a[i]]) == ProjectAll(kept) + [Project(a[i])];
        out := out + [Project(a[i])];
      }
      i := i + 1;
    }
    assert rows[..a.Length] == rows;
  }

  /** `clean_data(df)`: the four steps in order, the two fills in place. */
  method CleanFrame(rows: seq<RawRow>) returns (out: seq<CleanRow>)
    ensures out == CleanData(rows)
  {
    var withTarget := DropMissingTarget(rows);
    var frame := new RawRow[|withTarget|](k requires 0 <= k < |withTarget| => withTarget[k]);
    assert frame[..] == withTarget;
    var memMean := ComputeMean(frame, MemoryUsage);
    FillMissing(frame, MemoryUsage, memMean);
    var freqMean := ComputeMean(frame, CpuFrequency);
    FillMissing(frame, CpuFrequency, freqMean);
    out := SelectInRange(frame);
  }
}
