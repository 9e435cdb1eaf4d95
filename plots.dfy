/**
 * `process_json_files` of the four aggregation scripts and the `plot` driver
 * of the two later ones.  `process_json_files` chooses the chart axes, reads
 * every platform folder of one try folder into `metric_data`, draws the
 * grouped bar charts and writes `metric.csv`; `plot` runs it on the try
 * folders 1..tries, appends each value to `metric_results` and ends with
 * `save_confidence_interval`.  A directory listing is passed in as the
 * entries it holds; the charts and the files written are represented by
 * what decides whether they can be produced and by the rows and tables that
 * would be written.
 */
module Plots {
  import opened Wrappers
  import opened Dicts
  import opened JsonValues
  import opened Tables
  import opened Ordering
  import opened Aggregation
  import opened TryReport
  import opened Series

  /** How a script chooses its chart axes. */
  datatype Axes =
      /** Sizes found in the first platform folder by the stem suffixes, platforms from the listing; `seeded` when `metric_data` starts as `{metric: {size: {}}}`. */
    | Discovered(suffixes: seq<string>, seeded: bool)
      /** The sizes and platforms spelled out in the script. */
    | Fixed(sizes: seq<string>, platforms: seq<string>)

  /** What distinguishes one aggregation script from another. */
  datatype Script = Script(variant: Variant, axes: Axes, header: seq<string>, columns: seq<string>)

  /** Every suffix looked for ends in a digit and "%", as "_10%" and "100%" do. */
  predicate ValidAxes(axes: Axes) {
    axes.Discovered? ==> forall i :: 0 <= i < |axes.suffixes| ==> SizeSuffix(axes.suffixes[i])
  }

  /** The chart axes and the table the folders are read into. */
  datatype Layout = Layout(sizes: seq<string>, platforms: seq<string>, seed: MetricTable)

  /**
   * How `process_json_files` ends: it returns `metric_data` after writing
   * every row, an exception stops it before `metric.csv` is opened, or one
   * stops it while writing, after the rows listed.
   */
  datatype Outcome =
    | Returned(table: MetricTable, csv: seq<seq<Json>>)
    | CrashedBeforeCsv
    | CrashedInCsv(written: seq<seq<Json>>)

  // ---------------------------------------------------------------------
  // One try folder
  // ---------------------------------------------------------------------

  /** The axes and the starting table; `None` where `platform_folders[0]` raises `IndexError`. */
  function ChooseLayout(script: Script, entries: seq<Entry>): (r: Option<Layout>)
    requires ValidAxes(script.axes)
    ensures r.None? <==> script.axes.Discovered? && PlatformFolders(entries) == []
    ensures r.Some? && script.axes.Fixed? ==> r.value == Layout(script.axes.sizes, script.axes.platforms, [])
    ensures r.Some? && script.axes.Discovered? ==>
              && r.value.platforms == SortPlatforms(PlatformFolders(entries))
              && Some(r.value.sizes) == SortSizes(DatasetSizes(FirstFolderFiles(entries).value, script.axes.suffixes))
              && r.value.seed == (if script.axes.seeded then Seed(script.variant.metrics, r.value.sizes) else [])
  {
    match script.axes
    case Fixed(sizes, platforms) => Some(Layout(sizes, platforms, []))
    case Discovered(suffixes, seeded) =>
      match FirstFolderFiles(entries)
      case None => None
      case Some(files) =>
        DatasetSizesSort(files, suffixes);
        var sizes := SortSizes(DatasetSizes(files, suffixes)).value;
        Some(Layout(sizes, SortPlatforms(PlatformFolders(entries)), if seeded then Seed(script.variant.metrics, sizes) else []))
  }

  /** The charts, then `metric.csv`, for a table that has been read. */
  function Finish(script: Script, layout: Layout, t: MetricTable): Outcome {
    if !ChartsDrawable(t, script.variant.metrics, layout.sizes, layout.platforms) then CrashedBeforeCsv
    else
      var (lines, completed) := CsvLines(t, script.header, script.columns);
      if completed then Returned(t, lines) else CrashedInCsv(lines)
  }

  /** What `process_json_files` does with one try folder. */
  function ProcessOutcome(script: Script, entries: seq<Entry>, toSeconds: real -> real): Outcome
    requires ValidAxes(script.axes)
  {
    match ChooseLayout(script, entries)
    case None => CrashedBeforeCsv
    case Some(layout) => Finish(script, layout, FoldEntries(script.variant, layout.seed, entries, toSeconds))
  }

  /** `process_json_files(root_folder)`, the listing of `root_folder` being `entries`. */
  method ProcessJsonFiles(script: Script, entries: seq<Entry>, toSeconds: real -> real) returns (o: Outcome)
    requires ValidAxes(script.axes)
    ensures o == ProcessOutcome(script, entries, toSeconds)
  {
    var layout := ChooseLayout(script, entries);
    if layout.None? {
      return CrashedBeforeCsv;
    }
    var t := ProcessFolders(script.variant, layout.value.seed, entries, toSeconds);
    if !ChartsDrawable(t, script.variant.metrics, layout.value.sizes, layout.value.platforms) {
      return CrashedBeforeCsv;
    }
    var lines, completed := CreateCsv(t, script.header, script.columns);
    if completed {
      o := Returned(t, lines);
    } else {
      o := CrashedInCsv(lines);
    }
  }

  /** A script that discovers its axes stops at once in a folder without platform folders. */
  lemma NoPlatformFolders(script: Script, entries: seq<Entry>, toSeconds: real -> real)
    requires ValidAxes(script.axes) && script.axes.Discovered?
    requires forall i :: 0 <= i < |entries| ==> entries[i].Other?
    ensures ProcessOutcome(script, entries, toSeconds) == CrashedBeforeCsv
  {
  }

  /**
   * When `process_json_files` returns, its table is what the folders'
   * files wrote over the starting table, every metric dictionary exists or
   * no file matched, the charts were drawable, and `metric.csv` is the
   * header followed by the 10%, 50% and 100% rows.
   */
  lemma ReturnedShape(script: Script, entries: seq<Entry>, toSeconds: real -> real)
    requires ValidAxes(script.axes)
    requires ProcessOutcome(script, entries, toSeconds).Returned?
    ensures var o := ProcessOutcome(script, entries, toSeconds);
            var layout := ChooseLayout(script, entries).value;
            && o.table == FoldEntries(script.variant, layout.seed, entries, toSeconds)
            && ChartsDrawable(o.table, script.variant.metrics, layout.sizes, layout.platforms)
            && Get(o.table, "training_time").Some?
            && var training := Get(o.table, "training_time").value;
               && RowsComplete(o.table, script.columns, training)
               && o.csv == [HeaderRow(script.header)]
                        + RowsOfSize(o.table, script.columns, training, "10%")
                        + RowsOfSize(o.table, script.columns, training, "50%")
                        + RowsOfSize(o.table, script.columns, training, "100%")
  {
    var layout := ChooseLayout(script, entries).value;
    var t := FoldEntries(script.variant, layout.seed, entries, toSeconds);
    CsvIncomplete(t, script.header, script.columns);
    CsvComplete(t, script.header, script.columns);
  }

  /**
   * A returned table has every metric at every size on the chart axis: the
   * charts are drawn before `metric.csv` and `data[metric][size]` raises
   * `KeyError` otherwise.
   */
  lemma ReturnedCharts(script: Script, entries: seq<Entry>, toSeconds: real -> real)
    requires ValidAxes(script.axes)
    requires ProcessOutcome(script, entries, toSeconds).Returned? && script.variant.metrics != []
    ensures var t := ProcessOutcome(script, entries, toSeconds).table;
            var sizes := ChooseLayout(script, entries).value.sizes;
            forall i, j :: 0 <= i < |script.variant.metrics| && 0 <= j < |sizes| ==> HasPath(t, script.variant.metrics[i], sizes[j])
  {
    ReturnedShape(script, entries, toSeconds);
    var t := ProcessOutcome(script, entries, toSeconds).table;
    var layout := ChooseLayout(script, entries).value;
    forall i, j | 0 <= i < |script.variant.metrics| && 0 <= j < |layout.sizes|
      ensures HasPath(t, script.variant.metrics[i], layout.sizes[j])
    {
      assert ChartValues(t, script.variant.metrics[i], layout.sizes, layout.platforms[0]).Some?;
    }
  }

  /** The starting table has every metric dictionary, or is empty. */
  lemma LayoutSeedComplete(script: Script, entries: seq<Entry>)
    requires ValidAxes(script.axes) && ChooseLayout(script, entries).Some?
    ensures EmptyOrComplete(ChooseLayout(script, entries).value.seed, script.variant.metrics)
    ensures UniqueLevels(ChooseLayout(script, entries).value.seed)
  {
    var layout := ChooseLayout(script, entries).value;
    if script.axes.Discovered? && script.axes.seeded {
      forall i | 0 <= i < |script.variant.metrics|
        ensures Get(layout.seed, script.variant.metrics[i]).Some?
      {
        SeedFacts(script.variant.metrics, layout.sizes, script.variant.metrics[i], "", "");
      }
      SeedUnique(script.variant.metrics, layout.sizes);
    }
  }

  /** A returned table has no repeated key at any level, and has every metric dictionary or is empty. */
  lemma ReturnedTable(script: Script, entries: seq<Entry>, toSeconds: real -> real)
    requires ValidAxes(script.axes)
    requires ProcessOutcome(script, entries, toSeconds).Returned?
    ensures var t := ProcessOutcome(script, entries, toSeconds).table;
            UniqueLevels(t) && EmptyOrComplete(t, script.variant.metrics)
  {
    var layout := ChooseLayout(script, entries).value;
    LayoutSeedComplete(script, entries);
    EntriesComplete(script.variant, layout.seed, entries, toSeconds);
    FoldEntriesFlat(script.variant, layout.seed, entries, toSeconds);
    FoldFilesUnique(script.variant, layout.seed, AllFiles(entries), toSeconds);
  }

  // ---------------------------------------------------------------------
  // `plot`: the tries
  // ---------------------------------------------------------------------

  /** A table from every try. */
  predicate AllReturned(script: Script, tries: seq<seq<Entry>>, toSeconds: real -> real)
    requires ValidAxes(script.axes)
  {
    forall i :: 0 <= i < |tries| ==> ProcessOutcome(script, tries[i], toSeconds).Returned?
  }

  /** The tables the tries return, in try order. */
  function TryTables(script: Script, tries: seq<seq<Entry>>, toSeconds: real -> real): (r: seq<MetricTable>)
    requires ValidAxes(script.axes) && AllReturned(script, tries, toSeconds)
    ensures |r| == |tries|
    ensures forall i :: 0 <= i < |tries| ==> r[i] == ProcessOutcome(script, tries[i], toSeconds).table
  {
    seq(|tries|, i requires 0 <= i < |tries| => ProcessOutcome(script, tries[i], toSeconds).table)
  }

  /** `metric_results` after the tries, or `None` where an exception ends `plot`. */
  function Accumulate(script: Script, tries: seq<seq<Entry>>, toSeconds: real -> real): Option<Table<seq<Json>>>
    requires ValidAxes(script.axes)
    decreases |tries|
  {
    if tries == [] then Some([])
    else
      match Accumulate(script, tries[..|tries| - 1], toSeconds)
      case None => None
      case Some(results) =>
        match ProcessOutcome(script, tries[|tries| - 1], toSeconds)
        case Returned(data, _) =>
          if HasMetrics(data, script.variant.metrics)
          then Some(FoldTriples(AppendValue, results, Triples(data, script.variant.metrics)))
          else None
        case _ => None
  }

  /** What `plot` leaves behind: `metric_results` and the report, or `None` where it raises. */
  function PlotResult(script: Script, tries: seq<seq<Entry>>, toSeconds: real -> real, ci: seq<Json> -> (Json, Json))
    : Option<(Table<seq<Json>>, Table<Json>)>
    requires ValidAxes(script.axes)
  {
    match Accumulate(script, tries, toSeconds)
    case None => None
    case Some(results) =>
      match CiReport(script.variant.metrics, ci, results)
      case None => None
      case Some(report) => Some((results, report))
  }

  /** An exception in an earlier try ends `plot` whatever the later tries hold. */
  lemma {:induction false} AccumulateStops(script: Script, tries: seq<seq<Entry>>, toSeconds: real -> real, k: nat)
    requires ValidAxes(script.axes)
    requires k <= |tries| && Accumulate(script, tries[..k], toSeconds).None?
    ensures Accumulate(script, tries, toSeconds).None?
    decreases |tries|
  {
    if k < |tries| {
      assert tries[..|tries| - 1][..k] == tries[..k];
      AccumulateStops(script, tries[..|tries| - 1], toSeconds, k);
    } else {
      assert tries[..k] == tries;
    }
  }

  /** One more try extends the collected values by the table it returns, or ends `plot`. */
  lemma AccumulateNext(script: Script, tries: seq<seq<Entry>>, toSeconds: real -> real, i: nat)
    requires ValidAxes(script.axes) && i < |tries|
    ensures Accumulate(script, tries[..i + 1], toSeconds)
         == match Accumulate(script, tries[..i], toSeconds)
            case None => None
            case Some(results) =>
              match ProcessOutcome(script, tries[i], toSeconds)
              case Returned(data, _) =>
                if HasMetrics(data, script.variant.metrics)
                then Some(FoldTriples(AppendValue, results, Triples(data, script.variant.metrics)))
                else None
              case _ => None
  {
    assert tries[..i + 1][..i] == tries[..i];
  }

  /** The tries' values are collected exactly when every try returns, from the tables they return. */
  lemma {:induction false} AccumulateCollect(script: Script, tries: seq<seq<Entry>>, toSeconds: real -> real)
    requires ValidAxes(script.axes)
    ensures Accumulate(script, tries, toSeconds)
         == if AllReturned(script, tries, toSeconds)
            then Collect(TryTables(script, tries, toSeconds), script.variant.metrics)
            else None
    decreases |tries|
  {
    if tries != [] {
      var init, last := tries[..|tries| - 1], tries[|tries| - 1];
      AccumulateCollect(script, init, toSeconds);
      AllSplit(tries, init, last, (entries: seq<Entry>) => ProcessOutcome(script, entries, toSeconds).Returned?);
      if AllReturned(script, tries, toSeconds) {
        var datas := TryTables(script, tries, toSeconds);
        assert datas[..|datas| - 1] == TryTables(script, init, toSeconds);
      }
    }
  }

  /**
   * `plot` end to end: it completes exactly when every try returns a table
   * holding every metric and the collected results hold every metric.  Then
   * each list of `metric_results` is the try-ordered series of that cell's
   * values, and each report entry holds, for every metric, the interval of
   * that series, or `{}` where the metric has no values.
   */
  lemma PlotSeries(script: Script, tries: seq<seq<Entry>>, toSeconds: real -> real, ci: seq<Json> -> (Json, Json),
                   m: string, p: string, c: string)
    requires ValidAxes(script.axes) && Distinct(script.variant.metrics)
    requires PlotResult(script, tries, toSeconds, ci).Some?
    ensures AllReturned(script, tries, toSeconds)
    ensures var datas := TryTables(script, tries, toSeconds);
            var (results, report) := PlotResult(script, tries, toSeconds, ci).value;
            && (forall i :: 0 <= i < |datas| ==> HasMetrics(datas[i], script.variant.metrics))
            && Cell(results, m, p, c)
               == (if m in script.variant.metrics && SeriesOf(datas, m, p, c) != [] then Some(SeriesOf(datas, m, p, c)) else None)
            && Cell(report, c, p, m)
               == (if HasPath(report, c, p) && m in script.variant.metrics
                   then Some(CiOf(ci, Cell(results, m, p, c))) else None)
            && (m in script.variant.metrics && SeriesOf(datas, m, p, c) != [] ==> !MeanRaises(SeriesOf(datas, m, p, c)))
  {
    AccumulateCollect(script, tries, toSeconds);
    var datas := TryTables(script, tries, toSeconds);
    var metrics := script.variant.metrics;
    CollectSome(datas, metrics);
    forall i | 0 <= i < |datas| ensures UniqueLevels(datas[i]) {
      ReturnedTable(script, tries[i], toSeconds);
    }
    CollectCell(datas, metrics, m, p, c);
    var results := Accumulate(script, tries, toSeconds).value;
    ReportShape(metrics, ci, results, c, p, m);
  }

  /** `PlotSeries` for every cell at once. */
  lemma PlotCells(script: Script, tries: seq<seq<Entry>>, toSeconds: real -> real, ci: seq<Json> -> (Json, Json))
    requires ValidAxes(script.axes) && Distinct(script.variant.metrics)
    requires PlotResult(script, tries, toSeconds, ci).Some?
    ensures AllReturned(script, tries, toSeconds)
    ensures var datas := TryTables(script, tries, toSeconds);
            var results := PlotResult(script, tries, toSeconds, ci).value.0;
            forall m, p, c :: Cell(results, m, p, c)
              == (if m in script.variant.metrics && SeriesOf(datas, m, p, c) != [] then Some(SeriesOf(datas, m, p, c)) else None)
    ensures var (results, report) := PlotResult(script, tries, toSeconds, ci).value;
            forall m, p, c :: Cell(report, c, p, m)
              == (if HasPath(report, c, p) && m in script.variant.metrics then Some(CiOf(ci, Cell(results, m, p, c))) else None)
    ensures var datas := TryTables(script, tries, toSeconds);
            forall m, p, c :: m in script.variant.metrics && SeriesOf(datas, m, p, c) != [] ==> !MeanRaises(SeriesOf(datas, m, p, c))
  {
    PlotSeries(script, tries, toSeconds, ci, "", "", "");
    var datas := TryTables(script, tries, toSeconds);
    var (results, report) := PlotResult(script, tries, toSeconds, ci).value;
    forall m, p, c
      ensures Cell(results, m, p, c)
              == (if m in script.variant.metrics && SeriesOf(datas, m, p, c) != [] then Some(SeriesOf(datas, m, p, c)) else None)
      ensures Cell(report, c, p, m)
              == (if HasPath(report, c, p) && m in script.variant.metrics then Some(CiOf(ci, Cell(results, m, p, c))) else None)
      ensures m in script.variant.metrics && SeriesOf(datas, m, p, c) != [] ==> !MeanRaises(SeriesOf(datas, m, p, c))
    {
      PlotSeries(script, tries, toSeconds, ci, m, p, c);
    }
  }

  /**
   * A value `np.mean` cannot average (`None`, a string, a dictionary) in a
   * listed metric's cell of any try's table makes `plot` raise, before the
   * report is written.
   */
  lemma PlotRaises(script: Script, tries: seq<seq<Entry>>, toSeconds: real -> real, ci: seq<Json> -> (Json, Json),
                   k: nat, m: string, p: string, c: string)
    requires ValidAxes(script.axes) && Distinct(script.variant.metrics)
    requires AllReturned(script, tries, toSeconds) && k < |tries| && m in script.variant.metrics
    requires var v := Cell(TryTables(script, tries, toSeconds)[k], m, p, c);
             v.Some? && (v.value.JNull? || v.value.JStr? || v.value.JObj?)
    ensures PlotResult(script, tries, toSeconds, ci).None?
  {
    AccumulateCollect(script, tries, toSeconds);
    var datas := TryTables(script, tries, toSeconds);
    var metrics := script.variant.metrics;
    var collected := Collect(datas, metrics);
    if collected.Some? {
      forall i | 0 <= i < |datas| ensures UniqueLevels(datas[i]) {
        ReturnedTable(script, tries[i], toSeconds);
      }
      CollectCell(datas, metrics, m, p, c);
      var j := SeriesOfHas(datas, k, m, p, c);
      var series := SeriesOf(datas, m, p, c);
      assert MeanRaises(series) by { assert series[j] == Cell(datas[k], m, p, c).value; }
      CiReportRaises(metrics, ci, collected.value, m, p, c);
    }
  }

  /** `plot(result_item_id, tries)`, the listing of try folder `i + 1` being `tries[i]`. */
  method Plot(script: Script, tries: seq<seq<Entry>>, toSeconds: real -> real, ci: seq<Json> -> (Json, Json))
    returns (r: Option<(Table<seq<Json>>, Table<Json>)>)
    requires ValidAxes(script.axes)
    ensures r == PlotResult(script, tries, toSeconds, ci)
  {
    var results: Table<seq<Json>> := [];
    var i := 0;
    while i < |tries|
      invariant 0 <= i <= |tries|
      invariant Accumulate(script, tries[..i], toSeconds) == Some(results)
    {
      AccumulateNext(script, tries, toSeconds, i);
      var o := ProcessJsonFiles(script, tries[i], toSeconds);
      if !o.Returned? {
        AccumulateStops(script, tries, toSeconds, i + 1);
        return None;
      }
      var next := WalkMetrics(AppendValue, results, o.table, script.variant.metrics);
      if next.None? {
        AccumulateStops(script, tries, toSeconds, i + 1);
        return None;
      }
      results := next.value;
      i := i + 1;
    }
    assert tries[..i] == tries;
    var report := SaveConfidenceInterval(script.variant.metrics, ci, results);
    if report.None? {
      return None;
    }
    r := Some((results, report.value));
  }
}
