/**
 * `process` of the Python linear-regression driver: look the dataset up,
 * train on it, and wrap the results in an experiment record whose paths point
 * into `linear_regression/training_result/<id>/<try>/python_gpu/`.
 * Training is a parameter; the clock readings are the `start` and `end` inputs.
 */
module LinearRegressionPython {
  import opened Wrappers
  import opened Strings
  import opened JsonValues
  import opened Timestamps
  import opened Samples
  import opened ResultNames
  import opened Experiments

  /** Why `process` raises: a selector missing from the tables (KeyError), a try count `int()` rejects, or no sample label to concatenate. */
  datatype Failure = UnknownDataset | InvalidTries | MissingSample

  const Kind := "Linear Regression Python gpu"
  const Platform := "python_gpu"

  /** The `dataset_name` table. */
  function DatasetName(dataset: int): (r: Option<string>)
    ensures r.Some? <==> SelectorPercent(dataset).Some?
    ensures r.Some? ==> r.value == SampleName(SelectorPercent(dataset).value)
  {
    if dataset == 1 then Some("sample_10%")
    else if dataset == 2 then Some("sample_50%")
    else if dataset == 3 then Some("sample_100%")
    else None
  }

  function ExperimentsPath(resultItemId: int): string {
    "linear_regression/training_result/" + IntToString(resultItemId)
  }

  /** The `experiment` dictionary, given the dataset name, `int(executionTries)`, `executionTries` itself and the label. */
  function Record(name: string, tryValue: int, tryText: string, sample: string, resultItemId: int,
                  start: DateTime, end: DateTime): Experiment
    requires ValidDateTime(start) && ValidDateTime(end)
  {
    var experimentsPath := ExperimentsPath(resultItemId);
    Experiment(
      JNum(tryValue as real), Kind, JStr(sample), Kind + " " + sample,
      PythonTimestamp(start), PythonTimestamp(end), Platform, JNum(resultItemId as real),
      experimentsPath,
      experimentsPath + "/" + tryText,
      experimentsPath + "/" + tryText + "/python_gpu",
      experimentsPath + "/" + tryText + "/python_gpu/" + "python_gpu_" + name + ".json")
  }

  /**
   * `process(dataset, executionTries, sample, result_item_id)`.  The dataset is
   * looked up before training, so an unknown selector fails without training.
   */
  function Process(dataset: int, tries: Option<string>, sample: Option<string>, resultItemId: int,
                   train: string -> Json, start: DateTime, end: DateTime): (r: Result<Json, Failure>)
    requires ValidDateTime(start) && ValidDateTime(end)
    ensures r == Err(UnknownDataset) <==> SelectorPercent(dataset).None?
    ensures r.Ok? <==> SelectorPercent(dataset).Some? && tries.Some? && ParseInt(tries.value).Some? && sample.Some?
    ensures r.Ok? ==>
              var e := Record(DatasetName(dataset).value, ParseInt(tries.value).value, tries.value, sample.value,
                              resultItemId, start, end);
              r.value == Submission(e, train(DatasetName(dataset).value))
  {
    match DatasetName(dataset)
    case None => Err(UnknownDataset)
    case Some(name) =>
      var results := train(name);
      if tries.None? || ParseInt(tries.value).None? then Err(InvalidTries)
      else if sample.None? then Err(MissingSample)
      else
        var e := Record(name, ParseInt(tries.value).value, tries.value, sample.value, resultItemId, start, end);
        Ok(Submission(e, results))
  }

  /** The result file's name, as `process` spells it, is a name the aggregator parses. */
  lemma ResultFileName(dataset: int)
    requires DatasetName(dataset).Some?
    ensures var file := "python_gpu_" + DatasetName(dataset).value + ".json";
            var pct := NatToString(SelectorPercent(dataset).value);
            && ParseResultName(file) == Some(("python_gpu", pct + "%"))
            && SearchPercent(file) == Some(pct + "%")
            && '/' !in file
  {
    var pct := NatToString(SelectorPercent(dataset).value);
    var file := "python_gpu_" + DatasetName(dataset).value + ".json";
    assert file == "python_gpu" + "_sample_" + pct + "%.json";
    assert AllWord("python_gpu");
    BuiltNameRoundTrip(file, "python_gpu", pct);
  }

  lemma ResultFileNoSlash(dataset: int)
    requires DatasetName(dataset).Some?
    ensures '/' !in "python_gpu_" + DatasetName(dataset).value + ".json"
  {
    ResultFileName(dataset);
  }

  lemma ResultPathShape(location: string, tryText: string, name: string)
    ensures location + "/" + tryText + "/python_gpu/" + "python_gpu_" + name + ".json"
         == Under(Under(Under(location, tryText), "python_gpu"), "python_gpu_" + name + ".json")
  {
  }

  /** The four paths are nested directories and the result file is `python_gpu_<dataset name>.json`. */
  lemma RecordLayout(dataset: int, tryValue: int, tryText: string, sample: string, resultItemId: int,
                     start: DateTime, end: DateTime)
    requires ValidDateTime(start) && ValidDateTime(end)
    requires DatasetName(dataset).Some?
    ensures var e := Record(DatasetName(dataset).value, tryValue, tryText, sample, resultItemId, start, end);
            && Nested(e)
            && e.location == "linear_regression/training_result/" + IntToString(resultItemId)
            && Basename(e.resultPath) == "python_gpu_" + DatasetName(dataset).value + ".json"
  {
    var name := DatasetName(dataset).value;
    var e := Record(name, tryValue, tryText, sample, resultItemId, start, end);
    ResultPathShape(e.location, tryText, name);
    ResultFileNoSlash(dataset);
    LayoutNested(e, tryText, "python_gpu", "python_gpu_" + name + ".json");
  }

  /** The aggregator recovers the platform "python_gpu" and the percentage from the file `process` names. */
  lemma RecordRoundTrip(dataset: int, tryValue: int, tryText: string, sample: string, resultItemId: int,
                        start: DateTime, end: DateTime)
    requires ValidDateTime(start) && ValidDateTime(end)
    requires DatasetName(dataset).Some?
    ensures var e := Record(DatasetName(dataset).value, tryValue, tryText, sample, resultItemId, start, end);
            var pct := NatToString(SelectorPercent(dataset).value);
            && ParseResultName(Basename(e.resultPath)) == Some((e.platform, pct + "%"))
            && SearchPercent(Basename(e.resultPath)) == Some(pct + "%")
  {
    RecordLayout(dataset, tryValue, tryText, sample, resultItemId, start, end);
    ResultFileName(dataset);
  }

  /** The sample label reaches only the `sample` and `title` fields. */
  lemma SampleOnlyLabels(name: string, tryValue: int, tryText: string, s1: string, s2: string, resultItemId: int,
                         start: DateTime, end: DateTime)
    requires ValidDateTime(start) && ValidDateTime(end)
    ensures Record(name, tryValue, tryText, s1, resultItemId, start, end).(sample := JNull, title := "")
         == Record(name, tryValue, tryText, s2, resultItemId, start, end).(sample := JNull, title := "")
  {
  }

  /** `try` is the parsed count, the id and the results pass through, and the timestamps are ISO strings. */
  lemma RecordFields(name: string, tryValue: int, tryText: string, sample: string, resultItemId: int,
                     start: DateTime, end: DateTime)
    requires ValidDateTime(start) && ValidDateTime(end)
    ensures var e := Record(name, tryValue, tryText, sample, resultItemId, start, end);
            && e.tryNumber == JNum(tryValue as real) && e.resultItemId == JNum(resultItemId as real)
            && e.platform == "python_gpu" && e.title == "Linear Regression Python gpu " + sample
            && e.start == IsoString(start) && e.end == IsoString(end)
  {
    PythonTimestampIsIso(start);
    PythonTimestampIsIso(end);
  }
}
