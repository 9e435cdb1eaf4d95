/**
 * The JavaScript side of the Rust/WebAssembly linear-regression driver: parse
 * the CSV, flatten the feature and target columns for `fetch_and_train`, and
 * submit its result under `rust_wasm_cpu_<dataset>.json`.  Fetching is the
 * parameter `serve` (request path to response text), the WebAssembly trainer
 * the parameter `fetchAndTrain`.
 */
module LinearRegressionRustWasm {
  import opened Wrappers
  import opened Strings
  import opened JsonValues
  import opened Timestamps
  import opened Samples
  import opened ResultNames
  import opened Experiments
  import opened CsvDataset

  /** The flat arrays `run` hands to the trainer: `features.flat()` and `target.flat()` of `fetchDataset(path, "price", "area")`. */
  function TrainingInputs<V>(text: string, parse: string -> V): (r: (seq<Option<V>>, seq<Option<V>>))
    ensures |r.0| == |r.1| == |Lines(text)| - 1
    ensures forall i :: 0 <= i < |r.0| ==>
              var row := Records(Headers(text), Lines(text), parse)[i];
              r.0[i] == Lookup(row, "area") && r.1[i] == Lookup(row, "price")
  {
    var data := FetchDataset(text, "price", "area", parse);
    FlatColumn(Records(Headers(text), Lines(text), parse), "area");
    FlatColumn(Records(Headers(text), Lines(text), parse), "price");
    (Flat(data.features), Flat(data.target))
  }

  /** `"rust_wasm_cpu_" + datasetPath.replace("house_price/", "").replace('.csv', '') + '.json'`. */
  function FileName(datasetPath: string): string {
    "rust_wasm_cpu_" + RemoveFirst(RemoveFirst(datasetPath, "house_price/"), ".csv") + ".json"
  }

  /** The `experiment` object of `run`. */
  function Record(datasetPath: string, sample: string, start: DateTime, end: DateTime, tries: nat, resultItemId: nat): Experiment
    requires ValidDateTime(start) && ValidDateTime(end)
  {
    var basePath := "linear_regression/training_result/" + NatToString(resultItemId);
    var experimentName := "Linear Regression Rust WASM CPU";
    Experiment(
      JNum(tries as real), experimentName, JStr(sample), experimentName + " " + sample,
      IsoString(start), IsoString(end), "rust_wasm_cpu", JNum(resultItemId as real),
      basePath,
      basePath + "/" + NatToString(tries),
      basePath + "/" + NatToString(tries) + "/rust_wasm_cpu",
      basePath + "/" + NatToString(tries) + "/rust_wasm_cpu/" + FileName(datasetPath))
  }

  /** `run(engine, datasetPath, sample)`: what it submits; the trainer's result is forwarded as `results`. */
  function Run<V>(datasetPath: string, sample: string, start: DateTime, end: DateTime, tries: nat, resultItemId: nat,
                  serve: string -> string, parse: string -> V,
                  fetchAndTrain: (seq<Option<V>>, seq<Option<V>>) -> Json): (r: Json)
    requires ValidDateTime(start) && ValidDateTime(end)
    ensures Field(r, "experiment") == Some(ToJson(Record(datasetPath, sample, start, end, tries, resultItemId)))
    ensures var text := serve("/linear_regression/datasets/" + datasetPath);
            var inputs := TrainingInputs(text, parse);
            Field(r, "results") == Some(fetchAndTrain(inputs.0, inputs.1))
  {
    var text := serve("/linear_regression/datasets/" + datasetPath);
    var inputs := TrainingInputs(text, parse);
    var resultData := fetchAndTrain(inputs.0, inputs.1);
    Submission(Record(datasetPath, sample, start, end, tries, resultItemId), resultData)
  }

  lemma SampleDotFree(pct: nat)
    ensures '.' !in SampleName(pct)
  {
    var d := NatToString(pct);
    assert '.' !in d by {
      forall i | 0 <= i < |d| ensures d[i] != '.' { assert IsDigit(d[i]); }
    }
  }

  /** For a house-price sample the file is `rust_wasm_cpu_sample_<pct>%.json`, which the aggregator parses. */
  lemma FileNameOfSample(pct: nat)
    ensures FileName(HousePricePath(pct)) == "rust_wasm_cpu" + "_sample_" + NatToString(pct) + "%.json"
  {
    var x := SampleName(pct);
    DatasetRest(pct);
    SampleDotFree(pct);
    RemoveFirstLast(x, ".csv");
    FileNamePieces();
    Regroup6("rust_wasm_cpu", "_", "sample_", NatToString(pct), "%", ".json");
  }

  /** The literals of the file name, cut where the sample name starts and ends. */
  lemma FileNamePieces()
    ensures "rust_wasm_cpu_" == "rust_wasm_cpu" + "_" && "_sample_" == "_" + "sample_" && "%.json" == "%" + ".json"
  {
  }

  lemma FileNameRoundTrip(pct: nat)
    ensures ParseResultName(FileName(HousePricePath(pct))) == Some(("rust_wasm_cpu", NatToString(pct) + "%"))
    ensures SearchPercent(FileName(HousePricePath(pct))) == Some(NatToString(pct) + "%")
    ensures '/' !in FileName(HousePricePath(pct))
  {
    FileNameOfSample(pct);
    assert AllWord("rust_wasm_cpu");
    BuiltNameRoundTrip(FileName(HousePricePath(pct)), "rust_wasm_cpu", NatToString(pct));
  }

  lemma FileNameNoSlash(pct: nat)
    ensures '/' !in FileName(HousePricePath(pct))
  {
    FileNameRoundTrip(pct);
  }

  lemma ResultPathShape(location: string, tryText: string, file: string)
    ensures location + "/" + tryText + "/rust_wasm_cpu/" + file
         == Under(Under(Under(location, tryText), "rust_wasm_cpu"), file)
  {
  }

  /** For a house-price sample the paths are nested and the result file is `rust_wasm_cpu_sample_<pct>%.json`. */
  lemma RecordLayout(sample: string, start: DateTime, end: DateTime, tries: nat, resultItemId: nat, pct: nat)
    requires ValidDateTime(start) && ValidDateTime(end)
    ensures var e := Record(HousePricePath(pct), sample, start, end, tries, resultItemId);
            && Nested(e)
            && e.location == "linear_regression/training_result/" + NatToString(resultItemId)
            && Basename(e.resultPath) == FileName(HousePricePath(pct))
  {
    var e := Record(HousePricePath(pct), sample, start, end, tries, resultItemId);
    ResultPathShape(e.location, NatToString(tries), FileName(HousePricePath(pct)));
    FileNameNoSlash(pct);
    LayoutNested(e, NatToString(tries), "rust_wasm_cpu", FileName(HousePricePath(pct)));
  }

  /** The aggregator reads the platform "rust_wasm_cpu" and the percentage back from the result file. */
  lemma RecordRoundTrip(sample: string, start: DateTime, end: DateTime, tries: nat, resultItemId: nat, pct: nat)
    requires ValidDateTime(start) && ValidDateTime(end)
    ensures var e := Record(HousePricePath(pct), sample, start, end, tries, resultItemId);
            && ParseResultName(Basename(e.resultPath)) == Some((e.platform, NatToString(pct) + "%"))
            && SearchPercent(Basename(e.resultPath)) == Some(NatToString(pct) + "%")
  {
    RecordLayout(sample, start, end, tries, resultItemId, pct);
    FileNameRoundTrip(pct);
  }
}

/**
 * The earlier Rust/WebAssembly linear-regression page: the same parse, flatten
 * and train, with the result downloaded instead of submitted.
 */
module LinearRegressionRustWasmEarly {
  import opened Wrappers
  import opened Strings
  import opened JsonValues
  import LinearRegressionRustWasm

  /** `"rust_wasm_cpu_" + datasetPath.replace("house_price/", "").replace('.csv', '')`. */
  function DownloadName(datasetPath: string): (r: string)
    ensures r + ".json" == LinearRegressionRustWasm.FileName(datasetPath)
  {
    "rust_wasm_cpu_" + RemoveFirst(RemoveFirst(datasetPath, "house_price/"), ".csv")
  }

  /** `run(engine, datasetPath)`: the download name and the trainer's result on the flattened columns. */
  function Run<V>(datasetPath: string, serve: string -> string, parse: string -> V,
                  fetchAndTrain: (seq<Option<V>>, seq<Option<V>>) -> Json): (r: (string, Json))
    ensures r.0 + ".json" == LinearRegressionRustWasm.FileName(datasetPath)
    ensures var inputs := LinearRegressionRustWasm.TrainingInputs(serve("/linear-regression/datasets/" + datasetPath), parse);
            r.1 == fetchAndTrain(inputs.0, inputs.1)
  {
    var inputs := LinearRegressionRustWasm.TrainingInputs(serve("/linear-regression/datasets/" + datasetPath), parse);
    (DownloadName(datasetPath), fetchAndTrain(inputs.0, inputs.1))
  }
}
