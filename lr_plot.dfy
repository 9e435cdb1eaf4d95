/**
 * `linear_regression/plot/linear_regression_plot.py`: the aggregator of the
 * linear-regression results.  Its four metrics are read from every
 * `<platform>_sample_<n>%.json`, the two times converted from milliseconds,
 * the chart axes discovered from the first platform folder, and `plot`
 * gathers the tries and writes a confidence interval per cell.
 */
module LinearRegressionPlot {
  import opened Wrappers
  import opened Strings
  import opened JsonValues
  import opened Tables
  import opened ResultNames
  import opened Aggregation
  import opened TryReport
  import opened Series
  import opened ResultChecks
  import Plots

  /** `metrics = ["training_time", "inference_time", "mse", "r2"]`. */
  const Metrics: seq<string> := ["training_time", "inference_time", "mse", "r2"]

  /** The four assignments of the `try` block, in their order. */
  const Assignments: seq<(string, Source)> :=
    [("training_time", Seconds("training_time_ms")), ("inference_time", Seconds("inference_time_ms")),
     ("mse", Raw("mse")), ("r2", Raw("r2"))]

  /** The columns `create_csv` looks up after the training time. */
  const Columns: seq<string> := ["inference_time", "mse", "r2"]

  const Script := Plots.Script(
    Variant(Metrics, Assignments, false),
    Plots.Discovered(["_10%", "_50%", "_100%"], false),
    ["Platform", "Dataset Size", "Training Time (ms)", "Inference Time (ms)", "MSE", "R2"],
    Columns)

  /** The size suffixes end in a digit and "%", and no metric is listed twice. */
  lemma ScriptFacts()
    ensures Plots.ValidAxes(Script.axes) && Distinct(Script.variant.metrics) && Script.variant.metrics == Metrics
    ensures !Script.variant.stripNnPrefix
  {
  }

  /** The name a driver builds is read, and parses into its platform and percentage. */
  lemma BuiltName(p: string, d: string)
    requires p != [] && AllWord(p) && d != [] && AllDigits(d)
    ensures EndsWith(p + "_sample_" + d + "%.json", ".json")
    ensures ParseName(Script.variant, p + "_sample_" + d + "%.json") == Some((p, d + "%"))
  {
    ScriptFacts();
    PlainBuiltName(Script.variant, p, d);
  }

  /**
   * A result file a driver wrote, `<p>_sample_<d>%.json` holding both times
   * as numbers, fills the four cells of platform `p` at `<d>%`: the times in
   * seconds and "mse" and "r2" as stored; no other cell changes.
   */
  lemma ReadResultFile(t: MetricTable, p: string, d: string, data: Json, toSeconds: real -> real)
    requires p != [] && AllWord(p) && d != [] && AllDigits(d) && data.JObj?
    requires IsNumber(FieldOrNull(data, "training_time_ms")) && IsNumber(FieldOrNull(data, "inference_time_ms"))
    ensures var t' := FileStep(Script.variant, t, p + "_sample_" + d + "%.json", Stored(data), toSeconds);
            var pct := d + "%";
            && Cell(t', "training_time", pct, p) == Some(JNum(toSeconds(NumValue(FieldOrNull(data, "training_time_ms")))))
            && Cell(t', "inference_time", pct, p) == Some(JNum(toSeconds(NumValue(FieldOrNull(data, "inference_time_ms")))))
            && Cell(t', "mse", pct, p) == Some(FieldOrNull(data, "mse"))
            && Cell(t', "r2", pct, p) == Some(FieldOrNull(data, "r2"))
            && forall m, q, c :: (q, c) != (pct, p) ==> Cell(t', m, q, c) == Cell(t, m, q, c)
  {
    var name := p + "_sample_" + d + "%.json";
    var v := Script.variant;
    BuiltName(p, d);
    Converts(data, toSeconds);
    FileStores(v, t, name, data, toSeconds, p, d + "%", 0);
    FileStores(v, t, name, data, toSeconds, p, d + "%", 1);
    FileStores(v, t, name, data, toSeconds, p, d + "%", 2);
    FileStores(v, t, name, data, toSeconds, p, d + "%", 3);
    forall m, q, c | (q, c) != (d + "%", p)
      ensures Cell(FileStep(v, t, name, Stored(data), toSeconds), m, q, c) == Cell(t, m, q, c)
    {
      FileFrame(v, t, name, Stored(data), toSeconds, m, q, c);
    }
  }

  /** With both times numbers every source converts; the metrics written are distinct. */
  lemma Converts(data: Json, toSeconds: real -> real)
    requires IsNumber(FieldOrNull(data, "training_time_ms")) && IsNumber(FieldOrNull(data, "inference_time_ms"))
    ensures |Script.variant.assignments| == 4 && ConvertsUpTo(Script.variant.assignments, data, toSeconds, 4)
    ensures forall i, j :: 0 <= i < j < 4 ==> Script.variant.assignments[i].0 != Script.variant.assignments[j].0
    ensures Script.variant.assignments[0] == ("training_time", Seconds("training_time_ms"))
    ensures Script.variant.assignments[1] == ("inference_time", Seconds("inference_time_ms"))
    ensures Script.variant.assignments[2] == ("mse", Raw("mse"))
    ensures Script.variant.assignments[3] == ("r2", Raw("r2"))
  {
  }

  /**
   * The regression plot of one file: `None` where the `try` block stops
   * before deciding it (the file is skipped, a conversion raises, or
   * `plot_loss_history`, whose completion is `lossPlotted`, raises), and
   * otherwise what the check of the three fields decides.
   */
  function RegressionOutcome(name: string, file: File, toSeconds: real -> real, lossPlotted: bool): (r: Option<RegressionPlot>)
    ensures r.Some? <==> PassesAssignments(Script.variant, name, file, toSeconds) && lossPlotted
    ensures r.Some? ==> r.value == RegressionCheck(file.content)
  {
    if PassesAssignments(Script.variant, name, file, toSeconds) && lossPlotted then Some(RegressionCheck(file.content))
    else None
  }

  /**
   * For a file a driver wrote, the regression check is reached exactly when
   * both times are numbers and the loss-history plot completes.
   */
  lemma RegressionReached(p: string, d: string, data: Json, toSeconds: real -> real, lossPlotted: bool)
    requires p != [] && AllWord(p) && d != [] && AllDigits(d) && data.JObj?
    ensures RegressionOutcome(p + "_sample_" + d + "%.json", Stored(data), toSeconds, lossPlotted)
         == if IsNumber(FieldOrNull(data, "training_time_ms")) && IsNumber(FieldOrNull(data, "inference_time_ms")) && lossPlotted
            then Some(RegressionCheck(data)) else None
  {
    BuiltName(p, d);
    TimesConvert(data, toSeconds);
  }

  /** The four conversions complete exactly when both times are numbers. */
  lemma TimesConvert(data: Json, toSeconds: real -> real)
    ensures ConvertsUpTo(Script.variant.assignments, data, toSeconds, |Script.variant.assignments|)
        <==> IsNumber(FieldOrNull(data, "training_time_ms")) && IsNumber(FieldOrNull(data, "inference_time_ms"))
  {
    var a := Script.variant.assignments;
    assert a == Assignments;
    assert a[0].1 == Seconds("training_time_ms") && a[1].1 == Seconds("inference_time_ms");
    assert a[2].1.Raw? && a[3].1.Raw?;
  }

  /**
   * When "training_time_ms" is missing or not a number, `round(None / 1000, 4)`
   * raises before any value is stored: the file only creates the metric
   * dictionaries for its percentage.
   */
  lemma ReadUntimedFile(t: MetricTable, p: string, d: string, data: Json, toSeconds: real -> real)
    requires p != [] && AllWord(p) && d != [] && AllDigits(d)
    requires !IsNumber(FieldOrNull(data, "training_time_ms"))
    ensures var t' := FileStep(Script.variant, t, p + "_sample_" + d + "%.json", Stored(data), toSeconds);
            && t' == InitMetrics(t, Metrics, d + "%")
            && (forall m, q, c :: Cell(t', m, q, c) == Cell(t, m, q, c))
            && forall i :: 0 <= i < |Metrics| ==> HasPath(t', Metrics[i], d + "%")
  {
    BuiltName(p, d);
    assert Script.variant.assignments[0].1 == Seconds("training_time_ms");
    FileStops(Script.variant, t, p + "_sample_" + d + "%.json", data, toSeconds, p, d + "%");
    var t' := InitMetrics(t, Metrics, d + "%");
    forall m, q, c ensures Cell(t', m, q, c) == Cell(t, m, q, c) {
      InitMetricsCell(t, Metrics, d + "%", m, q, c);
    }
    forall i | 0 <= i < |Metrics| ensures HasPath(t', Metrics[i], d + "%") {
      InitMetricsHas(t, Metrics, d + "%", Metrics[i]);
    }
  }

  /** A row of `metric.csv`: platform, size, training time, inference time, "mse", "r2", as the header names them. */
  lemma RowLayout(t: MetricTable, size: string, platform: string, training: Json)
    requires Cell(t, "inference_time", size, platform).Some? && Cell(t, "mse", size, platform).Some?
    requires Cell(t, "r2", size, platform).Some?
    ensures RowCells(t, Script.columns, size, platform).Some?
    ensures var row := CsvRow(t, Script.columns, size, (platform, training));
            && |row| == |Script.header| == 6
            && row[0] == JStr(platform) && row[1] == JStr(size) && row[2] == training
            && row[3] == Cell(t, "inference_time", size, platform).value
            && row[4] == Cell(t, "mse", size, platform).value && row[5] == Cell(t, "r2", size, platform).value
  {
    CsvRowOfThree(t, "inference_time", "mse", "r2", size, platform, training);
  }

  /** `process_json_files(root_folder)`; a returned table holds every metric or nothing. */
  method ProcessJsonFiles(entries: seq<Entry>, toSeconds: real -> real) returns (o: Plots.Outcome)
    ensures o == Plots.ProcessOutcome(Script, entries, toSeconds)
    ensures o.Returned? ==> UniqueLevels(o.table) && EmptyOrComplete(o.table, Metrics)
  {
    ScriptFacts();
    o := Plots.ProcessJsonFiles(Script, entries, toSeconds);
    if o.Returned? {
      Plots.ReturnedTable(Script, entries, toSeconds);
    }
  }

  /**
   * `plot(result_item_id, tries)`: each try's value lists hold, in try order,
   * the values the tries read, and the report entry of a platform and size
   * holds exactly the four metrics, each the interval of its list, or `{}`
   * for a metric no try filled.
   */
  method Plot(tries: seq<seq<Entry>>, toSeconds: real -> real, ci: seq<Json> -> (Json, Json))
    returns (r: Option<(Table<seq<Json>>, Table<Json>)>)
    ensures r == Plots.PlotResult(Script, tries, toSeconds, ci)
    ensures r.Some? ==> Plots.AllReturned(Script, tries, toSeconds)
    ensures r.Some? ==>
              var datas := Plots.TryTables(Script, tries, toSeconds);
              forall m, q, c ::
                Cell(r.value.0, m, q, c) == (if m in Metrics && SeriesOf(datas, m, q, c) != [] then Some(SeriesOf(datas, m, q, c)) else None)
    ensures r.Some? ==>
              forall m, q, c ::
                Cell(r.value.1, c, q, m) == (if HasPath(r.value.1, c, q) && m in Metrics then Some(CiOf(ci, Cell(r.value.0, m, q, c))) else None)
    ensures r.Some? ==>
              var datas := Plots.TryTables(Script, tries, toSeconds);
              forall m, q, c :: m in Metrics && SeriesOf(datas, m, q, c) != [] ==> !MeanRaises(SeriesOf(datas, m, q, c))
  {
    ScriptFacts();
    r := Plots.Plot(Script, tries, toSeconds, ci);
    if r.Some? {
      Plots.PlotCells(Script, tries, toSeconds, ci);
    }
  }

  /**
   * A try whose table holds null for a metric, as `data.get` gives for a
   * result file without that field, makes `plot` raise in `np.mean`.
   */
  lemma MissingValueRaises(tries: seq<seq<Entry>>, toSeconds: real -> real, ci: seq<Json> -> (Json, Json),
                           k: nat, m: string, q: string, c: string)
    requires Plots.AllReturned(Script, tries, toSeconds) && k < |tries| && m in Metrics
    requires Cell(Plots.TryTables(Script, tries, toSeconds)[k], m, q, c) == Some(JNull)
    ensures Plots.PlotResult(Script, tries, toSeconds, ci).None?
  {
    ScriptFacts();
    Plots.PlotRaises(Script, tries, toSeconds, ci, k, m, q, c);
  }

  /**
   * `plot` end to end: a driver's result file without "mse" or "r2", the last
   * file of its platform and size in some try, makes `plot` raise in
   * `np.mean`.
   */
  lemma UnscoredFileRaises(tries: seq<seq<Entry>>, toSeconds: real -> real, ci: seq<Json> -> (Json, Json),
                           k: nat, n: nat, p: string, d: string, data: Json)
    requires Plots.AllReturned(Script, tries, toSeconds) && k < |tries|
    requires p != [] && AllWord(p) && d != [] && AllDigits(d) && data.JObj?
    requires IsNumber(FieldOrNull(data, "training_time_ms")) && IsNumber(FieldOrNull(data, "inference_time_ms"))
    requires Field(data, "mse").None? || Field(data, "r2").None?
    requires var files := AllFiles(tries[k]);
             && n < |files| && files[n] == (p + "_sample_" + d + "%.json", Stored(data))
             && forall j :: n < j < |files| ==> ParseName(Script.variant, files[j].0) != Some((p, d + "%"))
    ensures Plots.PlotResult(Script, tries, toSeconds, ci).None?
  {
    ScriptFacts();
    BuiltName(p, d);
    Converts(data, toSeconds);
    var v := Script.variant;
    var files := AllFiles(tries[k]);
    Plots.ReturnedShape(Script, tries[k], toSeconds);
    var layout := Plots.ChooseLayout(Script, tries[k]).value;
    FoldEntriesFlat(v, layout.seed, tries[k], toSeconds);
    var i := if Field(data, "mse").None? then 2 else 3;
    LastFileWins(v, layout.seed, files, toSeconds, n, p, d + "%", i);
    assert Cell(Plots.TryTables(Script, tries, toSeconds)[k], v.assignments[i].0, d + "%", p) == Some(JNull);
    MissingValueRaises(tries, toSeconds, ci, k, v.assignments[i].0, d + "%", p);
  }
}
