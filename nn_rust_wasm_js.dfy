/**
 * The browser side of the Rust/WebAssembly neural-network benchmark: `runNab`
 * fetches the two `.nab` buffers, calls the WebAssembly `fetch_and_train` and,
 * when it returns, appends a record whose result file the neural-network
 * aggregator can read back; a thrown error (a JavaScript error value or a
 * WebAssembly panic) is logged and nothing is appended.  The click handler
 * asks for a new result item and plots afterwards only outside a "run all".
 */
module NeuralNetworkRustWasmJs {
  import opened Wrappers
  import opened Strings
  import opened JsonValues
  import opened Timestamps
  import opened ResultNames
  import opened Experiments
  import MnistSplit

  const ImagesUrl := "neural_network/datasets/nab/" + "/mnist_images.nab"
  const LabelsUrl := "neural_network/datasets/nab/" + "/mnist_labels.nab"

  /** The platform name, which also names the directory and starts the result file's name. */
  const Platform := "rust_wasm_cpu"

  /** The `experiment` object of `runNab`; `sample` is the button's `sample` attribute, such as "10%". */
  function Record(sample: string, start: DateTime, end: DateTime, tries: nat, resultItemId: nat): Experiment
    requires ValidDateTime(start) && ValidDateTime(end)
  {
    var experimentsPath := "neural_network/training_result/" + NatToString(resultItemId);
    Experiment(
      JNum(tries as real), "Neural Network Rust WASM CPU", JStr(sample),
      "Neural Network Rust WASM CPU " + sample,
      IsoString(start), IsoString(end), Platform, JNum(resultItemId as real),
      experimentsPath,
      experimentsPath + "/" + NatToString(tries),
      experimentsPath + "/" + NatToString(tries) + "/" + Platform,
      experimentsPath + "/" + NatToString(tries) + "/" + Platform + "/nn_mnist_" + Platform + "_sample_" + sample + ".json")
  }

  /**
   * `runNab(trainingPercentage, sample)`: the submission `appendExperiment`
   * receives, or `None` when `fetch_and_train` throws.
   */
  function RunNab(trainingPercentage: real, sample: string, start: DateTime, end: DateTime, tries: nat, resultItemId: nat,
                  serve: string -> seq<MnistSplit.Byte>,
                  fetchAndTrain: (seq<MnistSplit.Byte>, seq<MnistSplit.Byte>, real) -> Result<Json, Json>): (r: Option<Json>)
    requires ValidDateTime(start) && ValidDateTime(end)
    ensures r.Some? <==> fetchAndTrain(serve(ImagesUrl), serve(LabelsUrl), trainingPercentage).Ok?
    ensures r.Some? ==> Field(r.value, "experiment") == Some(ToJson(Record(sample, start, end, tries, resultItemId)))
    ensures r.Some? ==> Field(r.value, "results") == Some(fetchAndTrain(serve(ImagesUrl), serve(LabelsUrl), trainingPercentage).value)
  {
    match fetchAndTrain(serve(ImagesUrl), serve(LabelsUrl), trainingPercentage)
    case Err(_) => None
    case Ok(result) => Some(Submission(Record(sample, start, end, tries, resultItemId), result))
  }

  lemma ResultPathShape(location: string, tryText: string, d: string)
    ensures location + "/" + tryText + "/" + Platform + "/nn_mnist_" + Platform + "_sample_" + (d + "%") + ".json"
         == Under(Under(Under(location, tryText), Platform), "nn_mnist_" + (Platform + "_sample_" + d + "%.json"))
  {
    assert "/nn_mnist_" == "/" + "nn_mnist_";
    assert "%" + ".json" == "%.json";
    assert location + "/" + tryText + "/" + Platform + "/nn_mnist_" + Platform + "_sample_" + (d + "%") + ".json"
        == location + "/" + tryText + "/" + Platform + "/" + ("nn_mnist_" + (Platform + "_sample_" + d + ("%" + ".json")));
  }

  /** The file name without its "nn_mnist_" prefix parses as the platform and the percentage. */
  lemma BaseNameParses(d: string)
    requires d != [] && AllDigits(d)
    ensures ParseResultName(Platform + "_sample_" + d + "%.json") == Some((Platform, d + "%"))
    ensures '/' !in "nn_mnist_" + (Platform + "_sample_" + d + "%.json")
  {
    assert AllWord(Platform);
    BuiltNameRoundTrip(Platform + "_sample_" + d + "%.json", Platform, d);
  }

  /** Stripping "nn_mnist_" from the file name leaves the rest intact, as it holds no other occurrence. */
  lemma BaseNameStrips(d: string)
    requires d != [] && AllDigits(d)
    ensures StripNnPrefix("nn_mnist_" + (Platform + "_sample_" + d + "%.json")) == Platform + "_sample_" + d + "%.json"
  {
    var rest := Platform + "_sample_" + d + "%.json";
    assert 'i' !in d by {
      forall i | 0 <= i < |d| ensures d[i] != 'i' { assert IsDigit(d[i]); }
    }
    assert 'i' !in rest;
    StripNnPrefixOf(rest);
  }

  /** The record's directories are `location/try` and then `rust_wasm_cpu`. */
  lemma RecordDirs(sample: string, start: DateTime, end: DateTime, tries: nat, resultItemId: nat)
    requires ValidDateTime(start) && ValidDateTime(end)
    ensures var e := Record(sample, start, end, tries, resultItemId);
            && e.tryPath == Under(e.location, NatToString(tries))
            && e.experimentPath == Under(e.tryPath, Platform)
  {
  }

  /**
   * For a sample of the form `<digits>%` the paths are nested, the result file
   * is `nn_mnist_rust_wasm_cpu_sample_<digits>%.json`, and the aggregator reads
   * the platform `rust_wasm_cpu` and the sample back from it.
   */
  lemma RecordLayout(d: string, start: DateTime, end: DateTime, tries: nat, resultItemId: nat)
    requires ValidDateTime(start) && ValidDateTime(end) && d != [] && AllDigits(d)
    ensures var e := Record(d + "%", start, end, tries, resultItemId);
            && Nested(e)
            && e.location == "neural_network/training_result/" + NatToString(resultItemId)
            && Basename(e.resultPath) == "nn_mnist_" + (Platform + "_sample_" + d + "%.json")
  {
    var e := Record(d + "%", start, end, tries, resultItemId);
    var file := "nn_mnist_" + (Platform + "_sample_" + d + "%.json");
    RecordDirs(d + "%", start, end, tries, resultItemId);
    ResultPathShape(e.location, NatToString(tries), d);
    BaseNameParses(d);
    LayoutNested(e, NatToString(tries), Platform, file);
  }

  lemma RecordRoundTrip(d: string, start: DateTime, end: DateTime, tries: nat, resultItemId: nat)
    requires ValidDateTime(start) && ValidDateTime(end) && d != [] && AllDigits(d)
    ensures var e := Record(d + "%", start, end, tries, resultItemId);
            ParseResultName(StripNnPrefix(Basename(e.resultPath))) == Some((e.platform, e.sample.s))
  {
    RecordLayout(d, start, end, tries, resultItemId);
    BaseNameStrips(d);
    BaseNameParses(d);
  }

  /** The steps of one click on a Rust/WebAssembly button, in order. */
  datatype Step = NewResultItem | StartIndicator | Train | PlotResults | StopIndicator

  /** `handleNeuralNetworkRustWasm`: `runAllProcessing != true` gates the new result item and the plot. */
  function HandleSteps(runAllProcessing: bool): (r: seq<Step>)
    ensures (NewResultItem in r) <==> !runAllProcessing
    ensures (PlotResults in r) <==> !runAllProcessing
    ensures multiset(r)[Train] == 1
    ensures r[|r| - 1] == StopIndicator
  {
    (if runAllProcessing then [] else [NewResultItem])
    + [StartIndicator, Train]
    + (if runAllProcessing then [] else [PlotResults])
    + [StopIndicator]
  }
}
