/**
 * `load_mnist` and `process` of the Python neural-network driver.  The
 * dataset selector picks a fraction of MNIST to train on; the record's result
 * file is named after that fraction as a whole percentage.
 * Training is a parameter; the clock readings are the `start` and `end` inputs.
 */
module NeuralNetworkPython {
  import opened Wrappers
  import opened Strings
  import opened JsonValues
  import opened Timestamps
  import opened Samples
  import opened ResultNames
  import opened Experiments

  // ---------------------------------------------------------------------
  // load_mnist
  // ---------------------------------------------------------------------

  /** Python's `int()` on a float: truncation toward zero. */
  function TruncToInt(x: real): (r: int)
    ensures x >= 0.0 ==> r as real <= x < r as real + 1.0 && r >= 0
    ensures x < 0.0 ==> r as real - 1.0 < x <= r as real && r <= 0
  {
    if x >= 0.0 then x.Floor else -((-x).Floor)
  }

  /** Python's `s[:k]`: a negative `k` counts from the end, and the bound is clamped to the list. */
  function SlicePrefix<T>(s: seq<T>, k: int): (r: seq<T>)
    ensures 0 <= k <= |s| ==> r == s[..k]
    ensures k > |s| ==> r == s
    ensures k < 0 ==> r == s[..if |s| + k < 0 then 0 else |s| + k]
  {
    if k >= 0 then (if k <= |s| then s[..k] else s)
    else if |s| + k < 0 then [] else s[..|s| + k]
  }

  datatype Mnist<T> = Mnist(trainImages: seq<T>, trainLabels: seq<T>, testImages: seq<T>, testLabels: seq<T>)

  /**
   * `int(len(rows) * train_percentage)`: for a fraction in [0, 1] the
   * truncation is the floor and lies between 0 and the row count.
   */
  function RowCount(n: nat, p: real): (k: int)
    ensures 0.0 <= p <= 1.0 ==> k == (n as real * p).Floor && 0 <= k <= n
  {
    if 0.0 <= p <= 1.0 then
      FractionOfCount(n, p);
      TruncToInt(n as real * p)
    else TruncToInt(n as real * p)
  }

  /** A fraction in [0, 1] of a count, truncated, is the floor and lies between 0 and the count. */
  lemma FractionOfCount(n: nat, p: real)
    requires 0.0 <= p <= 1.0
    ensures TruncToInt(n as real * p) == (n as real * p).Floor && 0 <= (n as real * p).Floor <= n
  {
    var x := n as real;
    assert 0.0 <= x * p <= x by { assert x * p <= x * 1.0; }
  }

  /** The truncation step of `load_mnist(train_percentage)`; the rows come from the dataset files. */
  function LoadMnist<T>(data: Mnist<T>, trainPercentage: real): Mnist<T> {
    var numTrain := RowCount(|data.trainImages|, trainPercentage);
    var numTest := RowCount(|data.testImages|, trainPercentage);
    Mnist(SlicePrefix(data.trainImages, numTrain), SlicePrefix(data.trainLabels, numTrain),
          SlicePrefix(data.testImages, numTest), SlicePrefix(data.testLabels, numTest))
  }

  /**
   * For a fraction in [0, 1], train images and labels are cut to one shared
   * prefix length (the floor of the fraction of the image count), and test
   * images and labels to a second one, computed the same way.
   */
  lemma LoadMnistPrefixes<T>(data: Mnist<T>, p: real)
    requires 0.0 <= p <= 1.0
    requires |data.trainLabels| == |data.trainImages| && |data.testLabels| == |data.testImages|
    ensures var r := LoadMnist(data, p);
            var k := (|data.trainImages| as real * p).Floor;
            var m := (|data.testImages| as real * p).Floor;
            && 0 <= k <= |data.trainImages| && 0 <= m <= |data.testImages|
            && r.trainImages == data.trainImages[..k] && r.trainLabels == data.trainLabels[..k]
            && r.testImages == data.testImages[..m] && r.testLabels == data.testLabels[..m]
  {
    var k := RowCount(|data.trainImages|, p);
    var m := RowCount(|data.testImages|, p);
    assert LoadMnist(data, p) == Mnist(data.trainImages[..k], data.trainLabels[..k], data.testImages[..m], data.testLabels[..m]);
  }

  // ---------------------------------------------------------------------
  // process
  // ---------------------------------------------------------------------

  datatype Failure = UnknownDataset | InvalidTries

  const Kind := "Neural Network Python gpu"
  const Platform := "python_gpu"

  /** The `dataset_perc` table. */
  function DatasetFraction(dataset: int): (r: Option<real>)
    ensures r.Some? <==> SelectorPercent(dataset).Some?
  {
    if dataset == 1 then Some(0.1)
    else if dataset == 2 then Some(0.5)
    else if dataset == 3 then Some(1.0)
    else None
  }

  /** `int(dataset_perc[dataset] * 100)` is the selector's percentage. */
  lemma FractionPercent(dataset: int)
    requires DatasetFraction(dataset).Some?
    ensures TruncToInt(DatasetFraction(dataset).value * 100.0) == SelectorPercent(dataset).value as int
    ensures 0.0 < DatasetFraction(dataset).value <= 1.0
  {
  }

  /** An f-string renders `None` as "None". */
  function FormatSample(sample: Option<string>): string {
    match sample
    case Some(s) => s
    case None => "None"
  }

  /** The stored `sample` field: the label, or `null` when the query had none. */
  function SampleJson(sample: Option<string>): Json {
    match sample
    case Some(s) => JStr(s)
    case None => JNull
  }

  /** The `experiment` dictionary of `process`. */
  function Record(pct: nat, tryValue: int, tryText: string, sample: Option<string>, resultItemId: int,
                  start: DateTime, end: DateTime): Experiment
    requires ValidDateTime(start) && ValidDateTime(end)
  {
    var experimentsPath := "neural_network/training_result/" + IntToString(resultItemId);
    Experiment(
      JNum(tryValue as real), Kind, SampleJson(sample), "Neural Network Python gpu " + FormatSample(sample),
      PythonTimestamp(start), PythonTimestamp(end), Platform, JNum(resultItemId as real),
      experimentsPath,
      experimentsPath + "/" + tryText,
      experimentsPath + "/" + tryText + "/python_gpu",
      experimentsPath + "/" + tryText + "/python_gpu/python_gpu_sample_" + NatToString(pct) + "%.json")
  }

  /**
   * `process(dataset, executionTries, sample, result_item_id)`.  Training gets
   * the fraction; the `dataset_name` table it also builds is never read.
   */
  function Process(dataset: int, tries: Option<string>, sample: Option<string>, resultItemId: int,
                   train: real -> Json, start: DateTime, end: DateTime): (r: Result<Json, Failure>)
    requires ValidDateTime(start) && ValidDateTime(end)
    ensures r == Err(UnknownDataset) <==> SelectorPercent(dataset).None?
    ensures r.Ok? <==> SelectorPercent(dataset).Some? && tries.Some? && ParseInt(tries.value).Some?
    ensures r.Ok? ==>
              var e := Record(SelectorPercent(dataset).value, ParseInt(tries.value).value, tries.value, sample,
                              resultItemId, start, end);
              r.value == Submission(e, train(DatasetFraction(dataset).value))
  {
    match DatasetFraction(dataset)
    case None => Err(UnknownDataset)
    case Some(fraction) =>
      var results := train(fraction);
      if tries.None? || ParseInt(tries.value).None? then Err(InvalidTries)
      else
        FractionPercent(dataset);
        var pct := TruncToInt(fraction * 100.0) as nat;
        var e := Record(pct, ParseInt(tries.value).value, tries.value, sample, resultItemId, start, end);
        Ok(Submission(e, results))
  }

  lemma ResultFileName(pct: nat)
    ensures var file := "python_gpu_sample_" + NatToString(pct) + "%.json";
            && ParseResultName(file) == Some(("python_gpu", NatToString(pct) + "%"))
            && SearchPercent(file) == Some(NatToString(pct) + "%")
            && StripNnPrefix(file) == file
            && '/' !in file
  {
    var d := NatToString(pct);
    var file := "python_gpu_sample_" + d + "%.json";
    assert file == "python_gpu" + "_sample_" + d + "%.json";
    PlatformWord();
    BuiltNameRoundTrip(file, "python_gpu", d);
    BuiltNameHasNoI("python_gpu", d);
    StripNnPrefixAbsent(file);
  }

  /** "python_gpu" is a non-empty run of word characters without an "i". */
  lemma PlatformWord()
    ensures Platform == "python_gpu" && AllWord(Platform) && 'i' !in Platform
  {
  }

  lemma ResultFileNoSlash(pct: nat)
    ensures '/' !in "python_gpu_sample_" + NatToString(pct) + "%.json"
  {
    ResultFileName(pct);
  }

  lemma ResultPathShape(location: string, tryText: string, d: string)
    ensures location + "/" + tryText + "/python_gpu/python_gpu_sample_" + d + "%.json"
         == Under(Under(Under(location, tryText), "python_gpu"), "python_gpu_sample_" + d + "%.json")
  {
  }

  /** The four paths are nested directories and the result file is `python_gpu_sample_<pct>%.json`. */
  lemma RecordLayout(pct: nat, tryValue: int, tryText: string, sample: Option<string>, resultItemId: int,
                     start: DateTime, end: DateTime)
    requires ValidDateTime(start) && ValidDateTime(end)
    ensures var e := Record(pct, tryValue, tryText, sample, resultItemId, start, end);
            && Nested(e)
            && e.location == "neural_network/training_result/" + IntToString(resultItemId)
            && Basename(e.resultPath) == "python_gpu_sample_" + NatToString(pct) + "%.json"
  {
    var e := Record(pct, tryValue, tryText, sample, resultItemId, start, end);
    ResultPathShape(e.location, tryText, NatToString(pct));
    ResultFileNoSlash(pct);
    LayoutNested(e, tryText, "python_gpu", "python_gpu_sample_" + NatToString(pct) + "%.json");
  }

  /**
   * The neural-network aggregator, which first strips "nn_mnist_", recovers
   * the platform "python_gpu" and the percentage from the file `process` names.
   */
  lemma RecordRoundTrip(pct: nat, tryValue: int, tryText: string, sample: Option<string>, resultItemId: int,
                        start: DateTime, end: DateTime)
    requires ValidDateTime(start) && ValidDateTime(end)
    ensures var e := Record(pct, tryValue, tryText, sample, resultItemId, start, end);
            && ParseResultName(StripNnPrefix(Basename(e.resultPath))) == Some((e.platform, NatToString(pct) + "%"))
            && SearchPercent(Basename(e.resultPath)) == Some(NatToString(pct) + "%")
  {
    RecordLayout(pct, tryValue, tryText, sample, resultItemId, start, end);
    ResultFileName(pct);
  }

  /** The sample label reaches only the `sample` and `title` fields. */
  lemma SampleOnlyLabels(pct: nat, tryValue: int, tryText: string, s1: Option<string>, s2: Option<string>,
                         resultItemId: int, start: DateTime, end: DateTime)
    requires ValidDateTime(start) && ValidDateTime(end)
    ensures Record(pct, tryValue, tryText, s1, resultItemId, start, end).(sample := JNull, title := "")
         == Record(pct, tryValue, tryText, s2, resultItemId, start, end).(sample := JNull, title := "")
  {
  }

  /** `try` is the parsed count, the id passes through, and the timestamps are ISO strings. */
  lemma RecordFields(pct: nat, tryValue: int, tryText: string, sample: Option<string>, resultItemId: int,
                     start: DateTime, end: DateTime)
    requires ValidDateTime(start) && ValidDateTime(end)
    ensures var e := Record(pct, tryValue, tryText, sample, resultItemId, start, end);
            && e.tryNumber == JNum(tryValue as real) && e.resultItemId == JNum(resultItemId as real)
            && e.platform == "python_gpu"
            && e.start == IsoString(start) && e.end == IsoString(end)
  {
    PythonTimestampIsIso(start);
    PythonTimestampIsIso(end);
  }
}
