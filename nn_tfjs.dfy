/**
 * The TensorFlow.js neural-network driver: the per-epoch history the
 * `onEpochEnd` callback fills, the `loadMNIST` slicing, and the record
 * `trainModel` submits.  `currentResultItem.id` and `executionTries` are page
 * globals, here the inputs `resultItemId` and `tries`; the training fraction is
 * given as its whole percentage `pct` (the page offers 0.1, 0.5 and 1, whose
 * products with 100 are exactly 10, 50 and 100).
 */
module NeuralNetworkTfjs {
  import opened Wrappers
  import opened Strings
  import opened JsonValues
  import opened Dicts
  import opened Timestamps
  import opened ResultNames
  import opened Experiments
  import opened NeuralNetworkPython

  // ---------------------------------------------------------------------
  // loadMNIST
  // ---------------------------------------------------------------------

  /** `t.slice([0, 0], [count, width])` on the rows of a 2-d tensor: -1 means every row, and a count past the end throws. */
  function SliceRows<T>(rows: seq<T>, count: int): (r: Option<seq<T>>)
    ensures 0 <= count <= |rows| ==> r == Some(rows[..count])
    ensures count == -1 ==> r == Some(rows)
    ensures (count < -1 || count > |rows|) ==> r.None?
  {
    if count == -1 then Some(rows)
    else if 0 <= count <= |rows| then Some(rows[..count])
    else None
  }

  /** The slicing step of `loadMNIST(trainPercentage)`; `None` when a slice throws. */
  function LoadMnist<T>(data: Mnist<T>, trainPercentage: real): Option<Mnist<T>> {
    var numTrainSamples := FloorCount(|data.trainImages|, trainPercentage);
    var numTestSamples := FloorCount(|data.testImages|, trainPercentage);
    SliceAll(data, numTrainSamples, numTestSamples)
  }

  /** `Math.floor(rows * trainPercentage)`; for a fraction in [0, 1] it is what Python's `int()` gives. */
  function FloorCount(n: nat, p: real): (k: int)
    ensures 0.0 <= p <= 1.0 ==> k == RowCount(n, p) && 0 <= k <= n
  {
    (n as real * p).Floor
  }

  /** The four `slice` calls, train rows cut to `k` and test rows to `m`. */
  function SliceAll<T>(data: Mnist<T>, k: int, m: int): Option<Mnist<T>> {
    match (SliceRows(data.trainImages, k), SliceRows(data.trainLabels, k),
           SliceRows(data.testImages, m), SliceRows(data.testLabels, m))
    case (Some(a), Some(b), Some(c), Some(d)) => Some(Mnist(a, b, c, d))
    case _ => None
  }

  /** Counts within the (equally long) images and labels cut every list to a prefix. */
  lemma SliceAllWithin<T>(data: Mnist<T>, k: int, m: int)
    requires 0 <= k <= |data.trainImages| == |data.trainLabels| && 0 <= m <= |data.testImages| == |data.testLabels|
    ensures SliceAll(data, k, m) == Some(Mnist(data.trainImages[..k], data.trainLabels[..k], data.testImages[..m], data.testLabels[..m]))
  {
  }

  /**
   * For a fraction in [0, 1] and labels as many as images, train images and
   * labels are cut to the same `floor(n * p)` rows, and test images and labels
   * to the same `floor(m * p)` rows; this is what the Python driver keeps too.
   */
  lemma LoadMnistPrefixes<T>(data: Mnist<T>, p: real)
    requires 0.0 <= p <= 1.0
    requires |data.trainLabels| == |data.trainImages| && |data.testLabels| == |data.testImages|
    ensures var k := (|data.trainImages| as real * p).Floor;
            var m := (|data.testImages| as real * p).Floor;
            && 0 <= k <= |data.trainImages| && 0 <= m <= |data.testImages|
            && LoadMnist(data, p) == Some(Mnist(data.trainImages[..k], data.trainLabels[..k],
                                                 data.testImages[..m], data.testLabels[..m]))
            && LoadMnist(data, p) == Some(NeuralNetworkPython.LoadMnist(data, p))
  {
    var k := FloorCount(|data.trainImages|, p);
    var m := FloorCount(|data.testImages|, p);
    var cut := Mnist(data.trainImages[..k], data.trainLabels[..k], data.testImages[..m], data.testLabels[..m]);
    SliceAllWithin(data, k, m);
    NeuralNetworkPython.LoadMnistPrefixes(data, p);
    assert NeuralNetworkPython.LoadMnist(data, p) == cut;
  }

  // ---------------------------------------------------------------------
  // The per-epoch history
  // ---------------------------------------------------------------------

  /** The `logs` object `model.fit` hands to `onEpochEnd`. */
  datatype EpochLogs = EpochLogs(loss: Json, acc: Json, valLoss: Json, valAcc: Json)

  /** The four arrays `trainModel` declares before `model.fit`. */
  class EpochHistory {
    var lossValues: seq<Json>
    var accuracyValues: seq<Json>
    var valLossValues: seq<Json>
    var valAccuracyValues: seq<Json>

    /** The arrays grow together, one entry per finished epoch. */
    predicate Valid()
      reads this
    {
      |lossValues| == |accuracyValues| == |valLossValues| == |valAccuracyValues|
    }

    constructor()
      ensures Valid()
      ensures lossValues == [] && accuracyValues == [] && valLossValues == [] && valAccuracyValues == []
    {
      lossValues := [];
      accuracyValues := [];
      valLossValues := [];
      valAccuracyValues := [];
    }

    /** `onEpochEnd(epoch, logs)`: one push onto each array. */
    method OnEpochEnd(logs: EpochLogs)
      requires Valid()
      modifies this
      ensures Valid()
      ensures lossValues == old(lossValues) + [logs.loss]
      ensures accuracyValues == old(accuracyValues) + [logs.acc]
      ensures valLossValues == old(valLossValues) + [logs.valLoss]
      ensures valAccuracyValues == old(valAccuracyValues) + [logs.valAcc]
    {
      lossValues := lossValues + [logs.loss];
      accuracyValues := accuracyValues + [logs.acc];
      valLossValues := valLossValues + [logs.valLoss];
      valAccuracyValues := valAccuracyValues + [logs.valAcc];
    }
  }

  function Losses(epochs: seq<EpochLogs>): (r: seq<Json>)
    ensures |r| == |epochs| && forall i :: 0 <= i < |epochs| ==> r[i] == epochs[i].loss
  {
    seq(|epochs|, i requires 0 <= i < |epochs| => epochs[i].loss)
  }

  function Accuracies(epochs: seq<EpochLogs>): (r: seq<Json>)
    ensures |r| == |epochs| && forall i :: 0 <= i < |epochs| ==> r[i] == epochs[i].acc
  {
    seq(|epochs|, i requires 0 <= i < |epochs| => epochs[i].acc)
  }

  function ValLosses(epochs: seq<EpochLogs>): (r: seq<Json>)
    ensures |r| == |epochs| && forall i :: 0 <= i < |epochs| ==> r[i] == epochs[i].valLoss
  {
    seq(|epochs|, i requires 0 <= i < |epochs| => epochs[i].valLoss)
  }

  function ValAccuracies(epochs: seq<EpochLogs>): (r: seq<Json>)
    ensures |r| == |epochs| && forall i :: 0 <= i < |epochs| ==> r[i] == epochs[i].valAcc
  {
    seq(|epochs|, i requires 0 <= i < |epochs| => epochs[i].valAcc)
  }

  /** The `epochs` option `trainModel` passes to `model.fit`. */
  const FitEpochs := 10

  /**
   * `model.fit` runs `FitEpochs` epochs and calls `onEpochEnd` once per epoch, in order;
   * afterwards each array lists that epoch's value.
   */
  method Fit(history: EpochHistory, epochs: seq<EpochLogs>)
    requires |epochs| == FitEpochs
    requires history.Valid() && history.lossValues == [] && history.accuracyValues == []
    requires history.valLossValues == [] && history.valAccuracyValues == []
    modifies history
    ensures history.Valid() && |history.lossValues| == FitEpochs
    ensures history.lossValues == Losses(epochs) && history.accuracyValues == Accuracies(epochs)
    ensures history.valLossValues == ValLosses(epochs) && history.valAccuracyValues == ValAccuracies(epochs)
  {
    var epoch := 0;
    while epoch < |epochs|
      invariant epoch <= |epochs| && history.Valid()
      invariant history.lossValues == Losses(epochs[..epoch])
      invariant history.accuracyValues == Accuracies(epochs[..epoch])
      invariant history.valLossValues == ValLosses(epochs[..epoch])
      invariant history.valAccuracyValues == ValAccuracies(epochs[..epoch])
    {
      history.OnEpochEnd(epochs[epoch]);
      assert epochs[..epoch + 1] == epochs[..epoch] + [epochs[epoch]];
      epoch := epoch + 1;
    }
    assert epochs[..epoch] == epochs;
  }

  // ---------------------------------------------------------------------
  // The submitted record
  // ---------------------------------------------------------------------

  /** The `results` object of `trainModel`. */
  function ResultsJson(lossValues: seq<Json>, accuracyValues: seq<Json>, valLossValues: seq<Json>, valAccuracyValues: seq<Json>,
                       trainingTime: Json, inferenceTime: Json, loss: Json, accuracy: Json): (r: Json)
    ensures r.JObj? && Keys(r.fields) == ["loss_values", "accuracy_values", "val_loss_values", "val_accuracy_values",
                                         "training_time_ms", "inference_time_ms", "loss", "accuracy"]
  {
    JObj([("loss_values", JArr(lossValues)), ("accuracy_values", JArr(accuracyValues)),
          ("val_loss_values", JArr(valLossValues)), ("val_accuracy_values", JArr(valAccuracyValues)),
          ("training_time_ms", trainingTime), ("inference_time_ms", inferenceTime),
          ("loss", loss), ("accuracy", accuracy)])
  }

  /** The `experiment` object of `trainModel`. */
  function Record(engine: string, sample: string, start: DateTime, end: DateTime, tries: nat, resultItemId: nat, pct: nat): Experiment
    requires ValidDateTime(start) && ValidDateTime(end)
  {
    var experimentsPath := "neural_network/training_result/" + NatToString(resultItemId);
    Experiment(
      JNum(tries as real), "Neural Network Rust TensorFlow.js " + engine, JStr(sample),
      "Neural Network TensorFlow.js " + engine + " " + sample,
      IsoString(start), IsoString(end), "tensorflow_js_" + engine, JNum(resultItemId as real),
      experimentsPath,
      experimentsPath + "/" + NatToString(tries),
      experimentsPath + "/" + NatToString(tries) + "/tensorflow_js_" + engine,
      experimentsPath + "/" + NatToString(tries) + "/tensorflow_js_" + engine + "/nn_mnist_tensorflow_js_" + engine
        + "_sample_" + NatToString(pct) + "%.json")
  }

  /**
   * The part of `trainModel` after loading: fit with the history callback,
   * then submit the record with the four arrays and the evaluation results.
   */
  method TrainModel(engine: string, sample: string, start: DateTime, end: DateTime, tries: nat, resultItemId: nat, pct: nat,
                    epochs: seq<EpochLogs>, trainingTime: Json, inferenceTime: Json, loss: Json, accuracy: Json)
    returns (submission: Json)
    requires ValidDateTime(start) && ValidDateTime(end) && |epochs| == FitEpochs
    ensures Field(submission, "experiment") == Some(ToJson(Record(engine, sample, start, end, tries, resultItemId, pct)))
    ensures Field(submission, "results") == Some(ResultsJson(Losses(epochs), Accuracies(epochs), ValLosses(epochs),
                                                             ValAccuracies(epochs), trainingTime, inferenceTime, loss, accuracy))
  {
    var history := new EpochHistory();
    Fit(history, epochs);
    var results := ResultsJson(history.lossValues, history.accuracyValues, history.valLossValues, history.valAccuracyValues,
                               trainingTime, inferenceTime, loss, accuracy);
    submission := Submission(Record(engine, sample, start, end, tries, resultItemId, pct), results);
  }

  /** The stored arrays are the history, under their own keys. */
  lemma ResultsHistory(lossValues: seq<Json>, accuracyValues: seq<Json>, valLossValues: seq<Json>, valAccuracyValues: seq<Json>,
                       trainingTime: Json, inferenceTime: Json, loss: Json, accuracy: Json)
    ensures var r := ResultsJson(lossValues, accuracyValues, valLossValues, valAccuracyValues, trainingTime, inferenceTime, loss, accuracy);
            Field(r, "loss_values") == Some(JArr(lossValues)) && Field(r, "accuracy_values") == Some(JArr(accuracyValues))
  {
    var r := ResultsJson(lossValues, accuracyValues, valLossValues, valAccuracyValues, trainingTime, inferenceTime, loss, accuracy);
    GetFirstAt(r.fields, 0);
    GetFirstAt(r.fields, 1);
  }

  lemma ResultsEvaluation(lossValues: seq<Json>, accuracyValues: seq<Json>, valLossValues: seq<Json>, valAccuracyValues: seq<Json>,
                          trainingTime: Json, inferenceTime: Json, loss: Json, accuracy: Json)
    ensures var r := ResultsJson(lossValues, accuracyValues, valLossValues, valAccuracyValues, trainingTime, inferenceTime, loss, accuracy);
            Field(r, "loss") == Some(loss) && Field(r, "accuracy") == Some(accuracy)
  {
    var r := ResultsJson(lossValues, accuracyValues, valLossValues, valAccuracyValues, trainingTime, inferenceTime, loss, accuracy);
    GetFirstAt(r.fields, 6);
    GetFirstAt(r.fields, 7);
  }

  lemma ResultPathShape(location: string, tryText: string, engine: string, d: string)
    ensures location + "/" + tryText + "/tensorflow_js_" + engine + "/nn_mnist_tensorflow_js_" + engine + "_sample_" + d + "%.json"
         == Under(Under(Under(location, tryText), "tensorflow_js_" + engine),
                  "nn_mnist_" + ("tensorflow_js_" + engine + "_sample_" + d + "%.json"))
  {
    SplitPieces();
    Regroup(location + "/" + tryText, "/", "tensorflow_js_", engine, "nn_mnist_", "_sample_", d, "%.json");
  }

  /** The literals of the result path, cut where the directories meet. */
  lemma SplitPieces()
    ensures "/tensorflow_js_" == "/" + "tensorflow_js_" && "/nn_mnist_tensorflow_js_" == "/" + "nn_mnist_" + "tensorflow_js_"
  {
  }

  /** The concatenation of the result path, regrouped into directories and the file name. */
  lemma Regroup(a: string, sl: string, tj: string, e: string, nm: string, s: string, d: string, j: string)
    ensures a + (sl + tj) + e + (sl + nm + tj) + e + s + d + j == a + sl + (tj + e) + sl + (nm + (tj + e + s + d + j))
  {
  }

  lemma BaseNameRest(engine: string, pct: nat)
    requires AllWord(engine) && 'i' !in engine
    ensures var rest := "tensorflow_js_" + engine + "_sample_" + NatToString(pct) + "%.json";
            && StripNnPrefix("nn_mnist_" + rest) == rest
            && ParseResultName(rest) == Some(("tensorflow_js_" + engine, NatToString(pct) + "%"))
            && '/' !in "nn_mnist_" + rest
  {
    var d := NatToString(pct);
    var p := "tensorflow_js_" + engine;
    var rest := p + "_sample_" + d + "%.json";
    PlatformWord(engine);
    BuiltNameRoundTrip(rest, p, d);
    BuiltNameHasNoI(p, d);
    StripNnPrefixOf(rest);
    PrefixNoSlash(rest);
  }

  /** "tensorflow_js_<engine>" is a word without an "i" when the engine is. */
  lemma PlatformWord(engine: string)
    requires AllWord(engine) && 'i' !in engine
    ensures var p := "tensorflow_js_" + engine; p != [] && AllWord(p) && 'i' !in p
  {
    assert AllWord("tensorflow_js_") && 'i' !in "tensorflow_js_";
    AllWordAppend("tensorflow_js_", engine);
  }

  /** Putting "nn_mnist_" in front adds no "/". */
  lemma PrefixNoSlash(rest: string)
    requires '/' !in rest
    ensures '/' !in "nn_mnist_" + rest
  {
    assert '/' !in "nn_mnist_";
  }

  lemma BaseNameNoSlash(engine: string, pct: nat)
    requires AllWord(engine) && 'i' !in engine
    ensures '/' !in "nn_mnist_" + ("tensorflow_js_" + engine + "_sample_" + NatToString(pct) + "%.json")
  {
    BaseNameRest(engine, pct);
  }

  /** The record's directories are `location/try` and then the platform's. */
  lemma RecordDirs(engine: string, sample: string, start: DateTime, end: DateTime, tries: nat, resultItemId: nat, pct: nat)
    requires ValidDateTime(start) && ValidDateTime(end)
    ensures var e := Record(engine, sample, start, end, tries, resultItemId, pct);
            && e.tryPath == Under(e.location, NatToString(tries))
            && e.experimentPath == Under(e.tryPath, "tensorflow_js_" + engine)
  {
  }

  /** The record's result file lies in the platform directory. */
  lemma RecordFile(engine: string, sample: string, start: DateTime, end: DateTime, tries: nat, resultItemId: nat, pct: nat)
    requires ValidDateTime(start) && ValidDateTime(end)
    ensures var e := Record(engine, sample, start, end, tries, resultItemId, pct);
            e.resultPath == Under(e.experimentPath, "nn_mnist_" + ("tensorflow_js_" + engine + "_sample_" + NatToString(pct) + "%.json"))
  {
    var e := Record(engine, sample, start, end, tries, resultItemId, pct);
    ResultPathShape(e.location, NatToString(tries), engine, NatToString(pct));
  }

  /** The paths are nested and the result file is `nn_mnist_tensorflow_js_<engine>_sample_<pct>%.json`. */
  lemma RecordLayout(engine: string, sample: string, start: DateTime, end: DateTime, tries: nat, resultItemId: nat, pct: nat)
    requires ValidDateTime(start) && ValidDateTime(end) && AllWord(engine) && 'i' !in engine
    ensures var e := Record(engine, sample, start, end, tries, resultItemId, pct);
            && Nested(e)
            && e.location == "neural_network/training_result/" + NatToString(resultItemId)
            && Basename(e.resultPath) == "nn_mnist_" + ("tensorflow_js_" + engine + "_sample_" + NatToString(pct) + "%.json")
  {
    var e := Record(engine, sample, start, end, tries, resultItemId, pct);
    RecordDirs(engine, sample, start, end, tries, resultItemId, pct);
    RecordFile(engine, sample, start, end, tries, resultItemId, pct);
    BaseNameNoSlash(engine, pct);
    LayoutNested(e, NatToString(tries), "tensorflow_js_" + engine,
                 "nn_mnist_" + ("tensorflow_js_" + engine + "_sample_" + NatToString(pct) + "%.json"));
  }

  /**
   * The neural-network aggregator strips "nn_mnist_" and reads the platform
   * `tensorflow_js_<engine>` and the percentage back from the result file.
   */
  lemma RecordRoundTrip(engine: string, sample: string, start: DateTime, end: DateTime, tries: nat, resultItemId: nat, pct: nat)
    requires ValidDateTime(start) && ValidDateTime(end) && AllWord(engine) && 'i' !in engine
    ensures var e := Record(engine, sample, start, end, tries, resultItemId, pct);
            ParseResultName(StripNnPrefix(Basename(e.resultPath))) == Some((e.platform, NatToString(pct) + "%"))
  {
    RecordLayout(engine, sample, start, end, tries, resultItemId, pct);
    BaseNameRest(engine, pct);
  }
}
