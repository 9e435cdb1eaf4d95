/**
 * `neural-network/plot/main.py`, the earlier aggregator of the
 * neural-network results: the same loops as the later script, with the
 * chart axes spelled out, `metric_data` starting empty, and both times
 * stored in milliseconds as read.
 */
module NeuralNetworkPlotEarly {
  import opened Wrappers
  import opened Strings
  import opened JsonValues
  import opened Tables
  import opened ResultNames
  import opened Aggregation
  import opened TryReport
  import opened Series
  import Plots
  import NeuralNetworkPlot

  const Metrics: seq<string> := NeuralNetworkPlot.Metrics

  /** The four assignments of the `try` block, each `data.get(key)` as is. */
  const Assignments: seq<(string, Source)> :=
    [("training_time", Raw("training_time_ms")), ("inference_time", Raw("inference_time_ms")),
     ("accuracy", Raw("accuracy")), ("loss", Raw("loss"))]

  /** `dataset_sizes` and `platforms`. */
  const Sizes: seq<string> := ["10%", "50%", "100%"]
  const Platforms: seq<string> := ["python_gpu", "rust_wasm_cpu", "tensorflow_js_cpu", "tensorflow_js_webgpu", "tensorflow_js_wasm"]

  /** `metric.csv` has the header and columns of the later script. */
  const Script := Plots.Script(
    Variant(Metrics, Assignments, true),
    Plots.Fixed(Sizes, Platforms),
    NeuralNetworkPlot.Script.header,
    NeuralNetworkPlot.Columns)

  lemma ScriptFacts()
    ensures Plots.ValidAxes(Script.axes) && Distinct(Script.variant.metrics) && Script.variant.metrics == Metrics
    ensures Script.header == NeuralNetworkPlot.Script.header && Script.columns == NeuralNetworkPlot.Script.columns
  {
  }

  /** The metrics written are distinct and each source is a plain `data.get`. */
  lemma Converts(data: Json, toSeconds: real -> real)
    ensures |Script.variant.assignments| == 4 && ConvertsUpTo(Script.variant.assignments, data, toSeconds, 4)
    ensures forall i, j :: 0 <= i < j < 4 ==> Script.variant.assignments[i].0 != Script.variant.assignments[j].0
    ensures Script.variant.assignments[0] == ("training_time", Raw("training_time_ms"))
    ensures Script.variant.assignments[1] == ("inference_time", Raw("inference_time_ms"))
    ensures Script.variant.assignments[2] == ("accuracy", Raw("accuracy"))
    ensures Script.variant.assignments[3] == ("loss", Raw("loss"))
  {
  }

  /**
   * A result file a driver wrote, named as the later script expects, holding an object,
   * fills the four cells of platform `p` at `<d>%` with the stored values,
   * `None` (JSON null) for a missing key; no other cell changes.
   */
  lemma ReadResultFile(t: MetricTable, prefix: string, p: string, d: string, data: Json, toSeconds: real -> real)
    requires prefix == "" || prefix == "nn_mnist_"
    requires p != [] && AllWord(p) && 'i' !in p && d != [] && AllDigits(d) && data.JObj?
    ensures var t' := FileStep(Script.variant, t, prefix + p + "_sample_" + d + "%.json", Stored(data), toSeconds);
            var pct := d + "%";
            && Cell(t', "training_time", pct, p) == Some(FieldOrNull(data, "training_time_ms"))
            && Cell(t', "inference_time", pct, p) == Some(FieldOrNull(data, "inference_time_ms"))
            && Cell(t', "accuracy", pct, p) == Some(FieldOrNull(data, "accuracy"))
            && Cell(t', "loss", pct, p) == Some(FieldOrNull(data, "loss"))
            && forall m, q, c :: (q, c) != (pct, p) ==> Cell(t', m, q, c) == Cell(t, m, q, c)
  {
    var name := prefix + p + "_sample_" + d + "%.json";
    var v := Script.variant;
    NeuralNetworkPlot.BuiltName(prefix, p, d);
    Converts(data, toSeconds);
    FileStores(v, t, name, data, toSeconds, p, d + "%", 0);
    FileStores(v, t, name, data, toSeconds, p, d + "%", 1);
    FileStores(v, t, name, data, toSeconds, p, d + "%", 2);
    FileStores(v, t, name, data, toSeconds, p, d + "%", 3);
    forall m, q, c | (q, c) != (d + "%", p)
      ensures Cell(FileStep(v, t, name, Stored(data), toSeconds), m, q, c) == Cell(t, m, q, c)
    {
      FileFrame(v, t, name, Stored(data), toSeconds, m, q, c);
    }
  }

  /**
   * `process_json_files(root_folder)`.  It completes only when every metric
   * has every one of the three sizes, since the charts look each one up.
   */
  method ProcessJsonFiles(entries: seq<Entry>, toSeconds: real -> real) returns (o: Plots.Outcome)
    ensures o == Plots.ProcessOutcome(Script, entries, toSeconds)
    ensures o.Returned? ==> forall i, j :: 0 <= i < |Metrics| && 0 <= j < |Sizes| ==> HasPath(o.table, Metrics[i], Sizes[j])
  {
    ScriptFacts();
    o := Plots.ProcessJsonFiles(Script, entries, toSeconds);
    if o.Returned? {
      Plots.ReturnedCharts(Script, entries, toSeconds);
    }
  }
}
