/**
 * `neural_network/plot/neural_network_plot.py`: the aggregator of the
 * neural-network results.  Its four metrics are read from every result file
 * once "nn_mnist_" is removed from its name, the two times converted from
 * milliseconds; the chart axes are discovered from the first platform folder
 * and `metric_data` starts with an empty dictionary per metric and size;
 * `plot` gathers the tries and writes a confidence interval per cell.
 */
module NeuralNetworkPlot {
  import opened Wrappers
  import opened Strings
  import opened JsonValues
  import opened Tables
  import opened ResultNames
  import opened Aggregation
  import opened TryReport
  import opened Series
  import opened ResultChecks
  import Plots

  /** `metrics = ["training_time", "inference_time", "loss", "accuracy"]`. */
  const Metrics: seq<string> := ["training_time", "inference_time", "loss", "accuracy"]

  /** The four assignments of the `try` block, in their order. */
  const Assignments: seq<(string, Source)> :=
    [("training_time", Seconds("training_time_ms")), ("inference_time", Seconds("inference_time_ms")),
     ("accuracy", Raw("accuracy")), ("loss", Raw("loss"))]

  /** The columns `create_csv` looks up after the training time. */
  const Columns: seq<string> := ["inference_time", "accuracy", "loss"]

  const Script := Plots.Script(
    Variant(Metrics, Assignments, true),
    Plots.Discovered(["10%", "50%", "100%"], true),
    ["Platform", "Dataset Size", "Training Time (ms)", "Inference Time (ms)", "Accuracy", "Loss"],
    Columns)

  /** The size suffixes end in a digit and "%", and no metric is listed twice. */
  lemma ScriptFacts()
    ensures Plots.ValidAxes(Script.axes) && Distinct(Script.variant.metrics) && Script.variant.metrics == Metrics
  {
  }

  /** Removing "nn_mnist_" undoes an optional leading one when nothing after it holds an "i". */
  lemma StripPrefixed(prefix: string, rest: string)
    requires prefix == "" || prefix == "nn_mnist_"
    requires 'i' !in rest
    ensures StripNnPrefix(prefix + rest) == rest
  {
    if prefix == "" {
      StripNnPrefixAbsent(rest);
      assert prefix + rest == rest;
    } else {
      StripNnPrefixOf(rest);
    }
  }

  /**
   * The names the drivers build, `<p>_sample_<d>%.json` with or without a
   * leading "nn_mnist_", are read, and parse into the platform and the
   * percentage once the prefix is removed; no platform of the benchmark
   * holds an "i", the letter "nn_mnist_" stops matching at otherwise.
   */
  lemma BuiltName(prefix: string, p: string, d: string)
    requires prefix == "" || prefix == "nn_mnist_"
    requires p != [] && AllWord(p) && 'i' !in p && d != [] && AllDigits(d)
    ensures EndsWith(prefix + p + "_sample_" + d + "%.json", ".json")
    ensures ParseName(Script.variant, prefix + p + "_sample_" + d + "%.json") == Some((p, d + "%"))
  {
    var rest := p + "_sample_" + d + "%.json";
    var name := prefix + p + "_sample_" + d + "%.json";
    assert name == prefix + rest;
    BuiltNameHasNoI(p, d);
    StripPrefixed(prefix, rest);
    BuiltNameRoundTrip(rest, p, d);
    assert Script.variant.stripNnPrefix;
    PrefixedJson(prefix, p, d);
  }

  lemma PrefixedJson(prefix: string, p: string, d: string)
    ensures EndsWith(prefix + p + "_sample_" + d + "%.json", ".json")
  {
    var x := prefix + p + "_sample_" + d;
    assert (x + "%.json")[|x| + 1..] == ".json";
  }

  /**
   * A result file a driver wrote, holding both times as numbers, fills the
   * four cells of platform `p` at `<d>%`: the times in seconds and
   * "accuracy" and "loss" as stored; no other cell changes.
   */
  lemma ReadResultFile(t: MetricTable, prefix: string, p: string, d: string, data: Json, toSeconds: real -> real)
    requires prefix == "" || prefix == "nn_mnist_"
    requires p != [] && AllWord(p) && 'i' !in p && d != [] && AllDigits(d) && data.JObj?
    requires IsNumber(FieldOrNull(data, "training_time_ms")) && IsNumber(FieldOrNull(data, "inference_time_ms"))
    ensures var t' := FileStep(Script.variant, t, prefix + p + "_sample_" + d + "%.json", Stored(data), toSeconds);
            var pct := d + "%";
            && Cell(t', "training_time", pct, p) == Some(JNum(toSeconds(NumValue(FieldOrNull(data, "training_time_ms")))))
            && Cell(t', "inference_time", pct, p) == Some(JNum(toSeconds(NumValue(FieldOrNull(data, "inference_time_ms")))))
            && Cell(t', "accuracy", pct, p) == Some(FieldOrNull(data, "accuracy"))
            && Cell(t', "loss", pct, p) == Some(FieldOrNull(data, "loss"))
            && forall m, q, c :: (q, c) != (pct, p) ==> Cell(t', m, q, c) == Cell(t, m, q, c)
  {
    var name := prefix + p + "_sample_" + d + "%.json";
    var v := Script.variant;
    BuiltName(prefix, p, d);
    Converts(data, toSeconds);
    FileStores(v, t, name, data, toSeconds, p, d + "%", 0);
    FileStores(v, t, name, data, toSeconds, p, d + "%", 1);
    FileStores(v, t, name, data, toSeconds, p, d + "%", 2);
    FileStores(v, t, name, data, toSeconds, p, d + "%", 3);
    forall m, q, c | (q, c) != (d + "%", p)
      ensures Cell(FileStep(v, t, name, Stored(data), toSeconds), m, q, c) == Cell(t, m, q, c)
    {
      FileFrame(v, t, name, Stored(data), toSeconds, m, q, c);
    }
  }

  /**
   * The loss and accuracy plots of one file: `None` where the `try` block
   * stops before deciding them (the file is skipped or a conversion raises),
   * and otherwise what the check of the four histories decides.
   */
  function HistoryOutcome(name: string, file: File, toSeconds: real -> real): (r: Option<HistoryPlot>)
    ensures r.Some? <==> PassesAssignments(Script.variant, name, file, toSeconds)
    ensures r.Some? ==> r.value == HistoryCheck(file.content)
  {
    if PassesAssignments(Script.variant, name, file, toSeconds) then Some(HistoryCheck(file.content)) else None
  }

  /** For a file a driver wrote, the history check is reached exactly when both times are numbers. */
  lemma HistoryReached(prefix: string, p: string, d: string, data: Json, toSeconds: real -> real)
    requires prefix == "" || prefix == "nn_mnist_"
    requires p != [] && AllWord(p) && 'i' !in p && d != [] && AllDigits(d) && data.JObj?
    ensures HistoryOutcome(prefix + p + "_sample_" + d + "%.json", Stored(data), toSeconds)
         == if IsNumber(FieldOrNull(data, "training_time_ms")) && IsNumber(FieldOrNull(data, "inference_time_ms"))
            then Some(HistoryCheck(data)) else None
  {
    BuiltName(prefix, p, d);
    TimesConvert(data, toSeconds);
  }

  /** The four conversions complete exactly when both times are numbers. */
  lemma TimesConvert(data: Json, toSeconds: real -> real)
    ensures ConvertsUpTo(Script.variant.assignments, data, toSeconds, |Script.variant.assignments|)
        <==> IsNumber(FieldOrNull(data, "training_time_ms")) && IsNumber(FieldOrNull(data, "inference_time_ms"))
  {
    var a := Script.variant.assignments;
    assert a == Assignments;
    assert a[0].1 == Seconds("training_time_ms") && a[1].1 == Seconds("inference_time_ms");
    assert a[2].1.Raw? && a[3].1.Raw?;
  }

  /** With both times numbers every source converts; the metrics written are distinct. */
  lemma Converts(data: Json, toSeconds: real -> real)
    requires IsNumber(FieldOrNull(data, "training_time_ms")) && IsNumber(FieldOrNull(data, "inference_time_ms"))
    ensures |Script.variant.assignments| == 4 && ConvertsUpTo(Script.variant.assignments, data, toSeconds, 4)
    ensures forall i, j :: 0 <= i < j < 4 ==> Script.variant.assignments[i].0 != Script.variant.assignments[j].0
    ensures Script.variant.assignments[0] == ("training_time", Seconds("training_time_ms"))
    ensures Script.variant.assignments[1] == ("inference_time", Seconds("inference_time_ms"))
    ensures Script.variant.assignments[2] == ("accuracy", Raw("accuracy"))
    ensures Script.variant.assignments[3] == ("loss", Raw("loss"))
  {
  }

  /**
   * When "training_time_ms" is missing or not a number, `round(None / 1000, 4)`
   * raises before any value is stored: the file only creates the metric
   * dictionaries for its percentage.
   */
  lemma ReadUntimedFile(t: MetricTable, prefix: string, p: string, d: string, data: Json, toSeconds: real -> real)
    requires prefix == "" || prefix == "nn_mnist_"
    requires p != [] && AllWord(p) && 'i' !in p && d != [] && AllDigits(d)
    requires !IsNumber(FieldOrNull(data, "training_time_ms"))
    ensures var t' := FileStep(Script.variant, t, prefix + p + "_sample_" + d + "%.json", Stored(data), toSeconds);
            && t' == InitMetrics(t, Metrics, d + "%")
            && (forall m, q, c :: Cell(t', m, q, c) == Cell(t, m, q, c))
            && forall i :: 0 <= i < |Metrics| ==> HasPath(t', Metrics[i], d + "%")
  {
    BuiltName(prefix, p, d);
    assert Script.variant.assignments[0].1 == Seconds("training_time_ms");
    FileStops(Script.variant, t, prefix + p + "_sample_" + d + "%.json", data, toSeconds, p, d + "%");
    var t' := InitMetrics(t, Metrics, d + "%");
    forall m, q, c ensures Cell(t', m, q, c) == Cell(t, m, q, c) {
      InitMetricsCell(t, Metrics, d + "%", m, q, c);
    }
    forall i | 0 <= i < |Metrics| ensures HasPath(t', Metrics[i], d + "%") {
      InitMetricsHas(t, Metrics, d + "%", Metrics[i]);
    }
  }

  /** A row of `metric.csv`: platform, size, training time, inference time, "accuracy", "loss", as the header names them. */
  lemma RowLayout(t: MetricTable, size: string, platform: string, training: Json)
    requires Cell(t, "inference_time", size, platform).Some? && Cell(t, "accuracy", size, platform).Some?
    requires Cell(t, "loss", size, platform).Some?
    ensures RowCells(t, Script.columns, size, platform).Some?
    ensures var row := CsvRow(t, Script.columns, size, (platform, training));
            && |row| == |Script.header| == 6
            && row[0] == JStr(platform) && row[1] == JStr(size) && row[2] == training
            && row[3] == Cell(t, "inference_time", size, platform).value
            && row[4] == Cell(t, "accuracy", size, platform).value && row[5] == Cell(t, "loss", size, platform).value
  {
    CsvRowOfThree(t, "inference_time", "accuracy", "loss", size, platform, training);
  }

  /** `process_json_files(root_folder)`; a returned table holds every metric or nothing. */
  method ProcessJsonFiles(entries: seq<Entry>, toSeconds: real -> real) returns (o: Plots.Outcome)
    ensures o == Plots.ProcessOutcome(Script, entries, toSeconds)
    ensures o.Returned? ==> UniqueLevels(o.table) && EmptyOrComplete(o.table, Metrics)
  {
    ScriptFacts();
    o := Plots.ProcessJsonFiles(Script, entries, toSeconds);
    if o.Returned? {
      Plots.ReturnedTable(Script, entries, toSeconds);
    }
  }

  /**
   * `plot(result_item_id, tries)`: each try's value lists hold, in try order,
   * the values the tries read, and the report entry of a platform and size
   * holds exactly the four metrics, each the interval of its list, or `{}`
   * for a metric no try filled.
   */
  method Plot(tries: seq<seq<Entry>>, toSeconds: real -> real, ci: seq<Json> -> (Json, Json))
    returns (r: Option<(Table<seq<Json>>, Table<Json>)>)
    ensures r == Plots.PlotResult(Script, tries, toSeconds, ci)
    ensures r.Some? ==> Plots.AllReturned(Script, tries, toSeconds)
    ensures r.Some? ==>
              var datas := Plots.TryTables(Script, tries, toSeconds);
              forall m, q, c ::
                Cell(r.value.0, m, q, c) == (if m in Metrics && SeriesOf(datas, m, q, c) != [] then Some(SeriesOf(datas, m, q, c)) else None)
    ensures r.Some? ==>
              forall m, q, c ::
                Cell(r.value.1, c, q, m) == (if HasPath(r.value.1, c, q) && m in Metrics then Some(CiOf(ci, Cell(r.value.0, m, q, c))) else None)
    ensures r.Some? ==>
              var datas := Plots.TryTables(Script, tries, toSeconds);
              forall m, q, c :: m in Metrics && SeriesOf(datas, m, q, c) != [] ==> !MeanRaises(SeriesOf(datas, m, q, c))
  {
    ScriptFacts();
    r := Plots.Plot(Script, tries, toSeconds, ci);
    if r.Some? {
      Plots.PlotCells(Script, tries, toSeconds, ci);
    }
  }

  /**
   * A try whose table holds null for a metric, as `data.get` gives for a
   * result file without that field, makes `plot` raise in `np.mean`.
   */
  lemma MissingValueRaises(tries: seq<seq<Entry>>, toSeconds: real -> real, ci: seq<Json> -> (Json, Json),
                           k: nat, m: string, q: string, c: string)
    requires Plots.AllReturned(Script, tries, toSeconds) && k < |tries| && m in Metrics
    requires Cell(Plots.TryTables(Script, tries, toSeconds)[k], m, q, c) == Some(JNull)
    ensures Plots.PlotResult(Script, tries, toSeconds, ci).None?
  {
    ScriptFacts();
    Plots.PlotRaises(Script, tries, toSeconds, ci, k, m, q, c);
  }

  /**
   * `plot` end to end: a driver's result file without "accuracy" or "loss", the last
   * file of its platform and size in some try, makes `plot` raise in
   * `np.mean`.
   */
  lemma UnscoredFileRaises(tries: seq<seq<Entry>>, toSeconds: real -> real, ci: seq<Json> -> (Json, Json),
                           k: nat, n: nat, prefix: string, p: string, d: string, data: Json)
    requires Plots.AllReturned(Script, tries, toSeconds) && k < |tries|
    requires prefix == "" || prefix == "nn_mnist_"
    requires p != [] && AllWord(p) && 'i' !in p && d != [] && AllDigits(d) && data.JObj?
    requires IsNumber(FieldOrNull(data, "training_time_ms")) && IsNumber(FieldOrNull(data, "inference_time_ms"))
    requires Field(data, "accuracy").None? || Field(data, "loss").None?
    requires var files := AllFiles(tries[k]);
             && n < |files| && files[n] == (prefix + p + "_sample_" + d + "%.json", Stored(data))
             && forall j :: n < j < |files| ==> ParseName(Script.variant, files[j].0) != Some((p, d + "%"))
    ensures Plots.PlotResult(Script, tries, toSeconds, ci).None?
  {
    ScriptFacts();
    BuiltName(prefix, p, d);
    Converts(data, toSeconds);
    var v := Script.variant;
    var files := AllFiles(tries[k]);
    Plots.ReturnedShape(Script, tries[k], toSeconds);
    var layout := Plots.ChooseLayout(Script, tries[k]).value;
    FoldEntriesFlat(v, layout.seed, tries[k], toSeconds);
    var i := if Field(data, "accuracy").None? then 2 else 3;
    LastFileWins(v, layout.seed, files, toSeconds, n, p, d + "%", i);
    assert Cell(Plots.TryTables(Script, tries, toSeconds)[k], v.assignments[i].0, d + "%", p) == Some(JNull);
    MissingValueRaises(tries, toSeconds, ci, k, v.assignments[i].0, d + "%", p);
  }
}
