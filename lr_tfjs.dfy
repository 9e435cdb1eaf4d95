/**
 * The TensorFlow.js linear-regression driver: the record `saveData` submits
 * and the file name `runLinearRegression` hands it.  `currentResultItem.id`
 * and `executionTries` are page globals, here the inputs `resultItemId` and
 * `tries`; the dates are serialised by `JSON.stringify` as ISO strings.
 */
module LinearRegressionTfjs {
  import opened Wrappers
  import opened Strings
  import opened JsonValues
  import opened Dicts
  import opened Timestamps
  import opened Samples
  import opened ResultNames
  import opened Experiments

  /** What the trained model produced; every value is passed through as it is. */
  datatype Metrics = Metrics(features: Json, target: Json, predictions: Json, lossHistory: Json,
                             trainingTime: Json, inferenceTime: Json, mse: Json, r2: Json)

  /** The `results` object of `saveData`. */
  function ResultsJson(m: Metrics): (r: Json)
    ensures r.JObj? && Keys(r.fields) == ["features", "target", "predictions", "loss_history",
                                         "training_time_ms", "inference_time_ms", "mse", "r2"]
  {
    JObj([("features", m.features), ("target", m.target), ("predictions", m.predictions),
          ("loss_history", m.lossHistory), ("training_time_ms", m.trainingTime),
          ("inference_time_ms", m.inferenceTime), ("mse", m.mse), ("r2", m.r2)])
  }

  /** The model's outputs are stored under their own keys. */
  lemma ResultsOutputs(m: Metrics)
    ensures Field(ResultsJson(m), "features") == Some(m.features)
    ensures Field(ResultsJson(m), "predictions") == Some(m.predictions)
  {
    GetFirstAt(ResultsJson(m).fields, 0);
    GetFirstAt(ResultsJson(m).fields, 2);
  }

  /** The error measures are stored under their own keys. */
  lemma ResultsScores(m: Metrics)
    ensures Field(ResultsJson(m), "mse") == Some(m.mse)
    ensures Field(ResultsJson(m), "r2") == Some(m.r2)
  {
    var fields := ResultsJson(m).fields;
    assert fields[6] == ("mse", m.mse) && fields[7] == ("r2", m.r2);
    assert forall j :: 0 <= j < 6 ==> fields[j].0 != "mse" by { ResultKeysDiffer(m); }
    assert forall j :: 0 <= j < 7 ==> fields[j].0 != "r2" by { ResultKeysDiffer(m); }
    GetFirstAt(fields, 6);
    GetFirstAt(fields, 7);
  }

  /** The keys before "mse" and "r2" are other keys. */
  lemma ResultKeysDiffer(m: Metrics)
    ensures forall j :: 0 <= j < 6 ==> ResultsJson(m).fields[j].0 != "mse"
    ensures forall j :: 0 <= j < 7 ==> ResultsJson(m).fields[j].0 != "r2"
  {
    var keys := Keys(ResultsJson(m).fields);
    assert keys[0] == "features" && keys[1] == "target" && keys[2] == "predictions" && keys[3] == "loss_history";
    assert keys[4] == "training_time_ms" && keys[5] == "inference_time_ms" && keys[6] == "mse";
  }

  /** The `fileName` argument `runLinearRegression` passes to `saveData`. */
  function FileName(engine: string, datasetPath: string): string {
    "tensorflow_js_" + engine + "/tensorflow_js_" + engine + "_" + RemoveFirst(datasetPath, "house_price/")
  }

  /** The `experiment` object of `saveData`. */
  function Record(engine: string, sample: string, start: DateTime, end: DateTime, tries: nat, resultItemId: nat,
                  fileName: string): Experiment
    requires ValidDateTime(start) && ValidDateTime(end)
  {
    var experimentsPath := "linear_regression/training_result/" + NatToString(resultItemId);
    Experiment(
      JNum(tries as real), "Linear Regression TensorFlow.js " + engine, JStr(sample),
      "Linear Regression TensorFlow.js " + engine + " " + sample,
      IsoString(start), IsoString(end), "tensorflow_js_" + engine, JNum(resultItemId as real),
      experimentsPath,
      experimentsPath + "/" + NatToString(tries),
      experimentsPath + "/" + NatToString(tries) + "/tensorflow_js_" + engine,
      experimentsPath + "/" + NatToString(tries) + "/" + RemoveFirst(fileName, ".csv") + ".json")
  }

  /** The body `saveData` sends to `appendExperiment`. */
  function SaveData(engine: string, sample: string, start: DateTime, end: DateTime, m: Metrics, fileName: string,
                    tries: nat, resultItemId: nat): (r: Json)
    requires ValidDateTime(start) && ValidDateTime(end)
    ensures Field(r, "experiment") == Some(ToJson(Record(engine, sample, start, end, tries, resultItemId, fileName)))
    ensures Field(r, "results") == Some(ResultsJson(m))
  {
    Submission(Record(engine, sample, start, end, tries, resultItemId, fileName), ResultsJson(m))
  }

  lemma DotFree(engine: string, pct: nat)
    requires AllWord(engine)
    ensures '.' !in "tensorflow_js_" + engine + "/" + "tensorflow_js_" + engine + "_sample_" + NatToString(pct) + "%"
  {
    var d := NatToString(pct);
    assert '.' !in engine by {
      forall i | 0 <= i < |engine| ensures engine[i] != '.' { assert IsWordChar(engine[i]); }
    }
    assert '.' !in d by {
      forall i | 0 <= i < |d| ensures d[i] != '.' { assert IsDigit(d[i]); }
    }
  }

  /** For a house-price sample, dropping ".csv" from the file name leaves `<dir>/<platform>_sample_<pct>%`. */
  lemma FileNameOfSample(engine: string, pct: nat)
    requires AllWord(engine)
    ensures RemoveFirst(FileName(engine, HousePricePath(pct)), ".csv")
         == "tensorflow_js_" + engine + "/" + "tensorflow_js_" + engine + "_sample_" + NatToString(pct) + "%"
  {
    var x := "tensorflow_js_" + engine + "/" + "tensorflow_js_" + engine + "_sample_" + NatToString(pct) + "%";
    DatasetRest(pct);
    FileNamePieces();
    Regroup("tensorflow_js_", engine, "/", "_", "sample_", NatToString(pct), "%", ".csv");
    DotFree(engine, pct);
    RemoveFirstLast(x, ".csv");
  }

  /** The literals of the file name, cut where the platform and the sample name start. */
  lemma FileNamePieces()
    ensures "/tensorflow_js_" == "/" + "tensorflow_js_" && "_sample_" == "_" + "sample_"
  {
  }

  /** The concatenation of the file name, regrouped around the sample name. */
  lemma Regroup(t: string, e: string, sl: string, u: string, sm: string, n: string, p: string, c: string)
    ensures t + e + (sl + t) + e + u + ((sm + n + p) + c) == t + e + sl + t + e + (u + sm) + n + p + c
  {
  }

  lemma ResultPathShape(location: string, tryText: string, engine: string, d: string)
    ensures location + "/" + tryText + "/"
              + ("tensorflow_js_" + engine + "/" + "tensorflow_js_" + engine + "_sample_" + d + "%") + ".json"
         == Under(Under(Under(location, tryText), "tensorflow_js_" + engine),
                  "tensorflow_js_" + engine + "_sample_" + d + "%.json")
  {
  }

  lemma BaseNameOfSample(engine: string, pct: nat)
    requires AllWord(engine)
    ensures var base := "tensorflow_js_" + engine + "_sample_" + NatToString(pct) + "%.json";
            && ParseResultName(base) == Some(("tensorflow_js_" + engine, NatToString(pct) + "%"))
            && SearchPercent(base) == Some(NatToString(pct) + "%")
            && '/' !in base
  {
    var p := "tensorflow_js_" + engine;
    assert AllWord("tensorflow_js_");
    AllWordAppend("tensorflow_js_", engine);
    BuiltNameRoundTrip(p + "_sample_" + NatToString(pct) + "%.json", p, NatToString(pct));
  }

  lemma BaseNameNoSlash(engine: string, pct: nat)
    requires AllWord(engine)
    ensures '/' !in "tensorflow_js_" + engine + "_sample_" + NatToString(pct) + "%.json"
  {
    BaseNameOfSample(engine, pct);
  }

  /**
   * For a house-price sample the paths are nested, the experiment directory is
   * the platform's, and the result file is `tensorflow_js_<engine>_sample_<pct>%.json`.
   */
  lemma RecordLayout(engine: string, sample: string, start: DateTime, end: DateTime, tries: nat, resultItemId: nat, pct: nat)
    requires ValidDateTime(start) && ValidDateTime(end) && AllWord(engine)
    ensures var e := Record(engine, sample, start, end, tries, resultItemId, FileName(engine, HousePricePath(pct)));
            && Nested(e)
            && e.location == "linear_regression/training_result/" + NatToString(resultItemId)
            && e.experimentPath == Under(e.tryPath, e.platform)
            && Basename(e.resultPath) == "tensorflow_js_" + engine + "_sample_" + NatToString(pct) + "%.json"
  {
    var e := Record(engine, sample, start, end, tries, resultItemId, FileName(engine, HousePricePath(pct)));
    FileNameOfSample(engine, pct);
    ResultPathShape(e.location, NatToString(tries), engine, NatToString(pct));
    BaseNameNoSlash(engine, pct);
    LayoutNested(e, NatToString(tries), "tensorflow_js_" + engine,
                 "tensorflow_js_" + engine + "_sample_" + NatToString(pct) + "%.json");
  }

  /** The aggregator reads the platform `tensorflow_js_<engine>` and the percentage back from the result file. */
  lemma RecordRoundTrip(engine: string, sample: string, start: DateTime, end: DateTime, tries: nat, resultItemId: nat, pct: nat)
    requires ValidDateTime(start) && ValidDateTime(end) && AllWord(engine)
    ensures var e := Record(engine, sample, start, end, tries, resultItemId, FileName(engine, HousePricePath(pct)));
            && ParseResultName(Basename(e.resultPath)) == Some((e.platform, NatToString(pct) + "%"))
            && SearchPercent(Basename(e.resultPath)) == Some(NatToString(pct) + "%")
  {
    RecordLayout(engine, sample, start, end, tries, resultItemId, pct);
    BaseNameOfSample(engine, pct);
  }
}

/**
 * The earlier TensorFlow.js linear-regression driver: no server, only a
 * download of the same results object under a name built from the engine and
 * the dataset.  The download helper itself is not part of this model.
 */
module LinearRegressionTfjsEarly {
  import opened Strings
  import opened Samples
  import opened ResultNames
  import LinearRegressionTfjs

  /** `("tensorflow_js_" + engine + "_" + datasetPath.replace("house_price/", "")).replace('.csv', '')`. */
  function DownloadName(engine: string, datasetPath: string): string {
    RemoveFirst("tensorflow_js_" + engine + "_" + RemoveFirst(datasetPath, "house_price/"), ".csv")
  }

  /** The early download name, given ".json", is the base name the later driver stores its result under. */
  lemma DownloadNameMatchesLater(engine: string, pct: nat)
    requires AllWord(engine)
    ensures DownloadName(engine, HousePricePath(pct)) + ".json"
         == "tensorflow_js_" + engine + "_sample_" + NatToString(pct) + "%.json"
  {
    var x := "tensorflow_js_" + engine + "_sample_" + NatToString(pct) + "%";
    DatasetRest(pct);
    assert "tensorflow_js_" + engine + "_" + RemoveFirst(HousePricePath(pct), "house_price/") == x + ".csv" + [];
    LinearRegressionTfjs.DotFree(engine, pct);
    assert '.' !in x;
    RemoveFirstAfter(x, ".csv", []);
    assert x + [] == x;
  }
}
