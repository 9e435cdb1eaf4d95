/**
 * `server.py`: the request handler that keeps the result ledger.  The files
 * it reads and writes are the handler's `disk`; each request handler is a
 * method that changes it as the source does, proved against a function that
 * states the request's outcome and the disk it leaves.  An uncaught
 * exception ends a request as `Crashed`, with every file written before it
 * kept.  The training runs, the plot scripts and the clock are the `World`
 * the handler calls into.
 */
module Server {
  import opened Wrappers
  import opened Strings
  import opened Dicts
  import opened JsonValues
  import opened Timestamps
  import opened Experiments
  import opened Ledger
  import opened Routes
  import LinearRegressionPython
  import NeuralNetworkPython
  import Samples

  /** A request's query as `parse_qs` gives it, each key with its first value. */
  type Query = Dict<string, string>

  /**
   * What `json.loads` makes of a request body: a document; `JSONDecodeError`,
   * which the handlers catch; or `UnicodeDecodeError`, raised on bytes that
   * are not text in the UTF-8, UTF-16 or UTF-32 encoding it detects, which
   * none of them catches.
   */
  datatype Body = Parsed(data: Json) | NotJson | NotText

  /** How a request is answered. */
  datatype Reply =
      /** `self.response(obj)`: status 200 with `obj` as the JSON body. */
    | Respond(body: Json)
      /** A status with a fixed body. */
    | Fail(status: int, message: string)
      /** `SimpleHTTPRequestHandler.do_GET`: the file under the request path. */
    | ServeStatic(path: string)
      /** An uncaught exception. */
    | Crashed

  /** What the handler calls into: the two trainings, the clock readings of a run, and the two plot scripts (`true` when they complete). */
  datatype World = World(
    lrTrain: string -> Json,
    nnTrain: real -> Json,
    start: DateTime,
    end: DateTime,
    plotLinearRegression: (int, int) -> bool,
    plotNeuralNetwork: (int, int) -> bool)

  predicate ValidWorld(w: World) {
    ValidDateTime(w.start) && ValidDateTime(w.end)
  }

  const EmptyObject := JObj([])

  /** The bodies of the 400 answer of `save_json_object` and of the 404 answer of `do_POST`. */
  const InvalidJsonError := "{\"error\": \"Invalid JSON\"}"
  const NotFoundError := "{\"error\": \"Not Found\"}"

  /** The `type` that selects the linear-regression run in `run_python`. */
  const LinearRegressionType := "Linear Regression Python GPU"

  /** `int(query_params.get(key, [None])[0])`; `None` where `int` raises. */
  function QueryInt(q: Query, key: string): (r: Option<int>)
    ensures r.Some? <==> Get(q, key).Some? && ParseInt(Get(q, key).value).Some?
    ensures r.Some? ==> r == ParseInt(Get(q, key).value)
  {
    match Get(q, key)
    case None => None
    case Some(s) => ParseInt(s)
  }

  /** Every file outside `paths` is as it was. */
  ghost predicate OnlyChanged(disk: Disk, disk': Disk, paths: set<string>) {
    forall p :: p !in paths ==> (p in disk' <==> p in disk) && (p in disk ==> disk'[p] == disk[p])
  }

  // ---------------------------------------------------------------------
  // new_result_item
  // ---------------------------------------------------------------------

  /**
   * `new_result_item` and the `response(result)` of `do_GET`.  It completes
   * exactly when the ledger is a list of objects with numeric ids and the
   * query has an integer "tries"; it then saves the ledger with the new item
   * appended, its id above every existing one, and answers with the item.
   * Otherwise it raises before saving.
   */
  function NewResultItemEffect(disk: Disk, q: Query): (r: (Reply, Disk))
    ensures var ledger := LoadLedger(disk);
            r.0.Respond? <==> ledger.JArr? && NewId(ledger.items).Some? && QueryInt(q, "tries").Some?
    ensures r.0.Respond? ==>
              var items := LoadLedger(disk).items;
              var saved := LoadLedger(r.1);
              && saved.JArr? && |saved.items| == |items| + 1
              && saved.items[..|items|] == items && saved.items[|items|] == r.0.body
              && r.0.body == NewItem(NewId(items).value, QueryInt(q, "tries").value, Get(q, "isRunAll"), Get(q, "start"))
              && HasNumericId(r.0.body) && forall i :: 0 <= i < |items| ==> IdOf(items[i]) < IdOf(r.0.body)
    ensures !r.0.Respond? ==> r == (Crashed, disk)
    ensures OnlyChanged(disk, r.1, {LedgerPath})
  {
    var ledger := LoadLedger(disk);
    var tries := QueryInt(q, "tries");
    if ledger.JArr? && NewId(ledger.items).Some? && tries.Some? then
      var items := ledger.items;
      var id := NewId(items).value;
      var item := NewItem(id, tries.value, Get(q, "isRunAll"), Get(q, "start"));
      var saved := items + [item];
      SaveAppended(disk, items, item);
      NewItemId(id, tries.value, Get(q, "isRunAll"), Get(q, "start"));
      (Respond(item), disk[LedgerPath := Stored(JArr(saved))])
    else (Crashed, disk)
  }

  // ---------------------------------------------------------------------
  // append_experiment_to_result_list
  // ---------------------------------------------------------------------

  /**
   * `data['experiment']`, `experiment['result_path']` and `data['results']`,
   * read before anything is written; `None` where one of them raises (the
   * path must be a string for `os.path.dirname`).
   */
  function Artifact(data: Json): (r: Option<(Json, string, Json)>)
    ensures r.Some? ==> Field(data, "experiment") == Some(r.value.0) && Field(r.value.0, "result_path") == Some(JStr(r.value.1))
    ensures r.Some? ==> Field(data, "results") == Some(r.value.2)
  {
    match Field(data, "experiment")
    case None => None
    case Some(experiment) =>
      (match Field(experiment, "result_path")
       case Some(JStr(path)) =>
         (match Field(data, "results")
          case None => None
          case Some(results) => Some((experiment, path, results)))
       case _ => None)
  }

  /** The disk once the results are saved at the experiment's path. */
  function Written(disk: Disk, data: Json): Disk
    requires Artifact(data).Some?
  {
    disk[Artifact(data).value.1 := Stored(Artifact(data).value.2)]
  }

  /** The ledger update: the experiment is attached to the item whose id is the experiment's `result_item_id`. */
  function AttachUpdate(data: Json): (r: (Option<Json>, Update))
    requires Artifact(data).Some?
  {
    var experiment := Artifact(data).value.0;
    (Field(experiment, "result_item_id"), AttachExperiment(experiment))
  }

  /**
   * `append_experiment_to_result_list(data)`: whether it completes, and the
   * disk it leaves.  The results are written first; the ledger is then
   * reloaded (it sees that write), updated and saved.  Only the artifact and
   * the ledger can change.
   */
  function AppendEffect(disk: Disk, data: Json): (r: (bool, Disk))
    ensures Artifact(data).None? ==> r == (false, disk)
    ensures Artifact(data).Some? ==>
              var path := Artifact(data).value.1;
              && OnlyChanged(disk, r.1, {path, LedgerPath})
              && path in r.1 && (path != LedgerPath || !r.0 ==> r.1[path] == Stored(Artifact(data).value.2))
  {
    match Artifact(data)
    case None => (false, disk)
    case Some((experiment, path, results)) =>
      var written := disk[path := Stored(results)];
      match UpdateLedger(LoadLedger(written), Field(experiment, "result_item_id"), AttachExperiment(experiment))
      case None => (false, written)
      case Some(ledger) => (true, written[LedgerPath := Stored(ledger)])
  }

  /** Once the artifact is known, the append is the ledger update on the disk with the artifact written. */
  lemma AppendSteps(disk: Disk, data: Json)
    requires Artifact(data).Some?
    ensures var written := Written(disk, data);
            var (key, u) := AttachUpdate(data);
            AppendEffect(disk, data) ==
              match UpdateLedger(LoadLedger(written), key, u)
              case None => (false, written)
              case Some(ledger) => (true, written[LedgerPath := Stored(ledger)])
  {
  }

  /**
   * The first item (of a loaded list) whose id equals the experiment's
   * `result_item_id` gains the experiment at the end of its "experiments",
   * without deduplication, and keeps its other fields; every other item and
   * the length of the list are unchanged, and the saved file is a list again.
   */
  lemma AppendToFirstMatch(disk: Disk, data: Json, j: nat)
    requires Artifact(data).Some?
    requires var ledger := LoadLedger(Written(disk, data));
             var key := AttachUpdate(data).0;
             && ledger.JArr? && key.Some? && IsFirstMatch(ledger.items, key.value, j)
             && forall i :: 0 <= i < j ==> ledger.items[i].JObj?
    ensures var items := LoadLedger(Written(disk, data)).items;
            var r := AppendEffect(disk, data);
            var saved := LoadLedger(r.1);
            && r.0 && saved.JArr? && |saved.items| == |items|
            && (forall i :: 0 <= i < |items| && i != j ==> saved.items[i] == items[i])
            && Field(saved.items[j], "experiments") == Some(JArr(PriorExperiments(items[j]) + [Artifact(data).value.0]))
            && forall k :: k != "experiments" ==> Field(saved.items[j], k) == Field(items[j], k)
  {
    var items := LoadLedger(Written(disk, data)).items;
    var (key, u) := AttachUpdate(data);
    var experiment := Artifact(data).value.0;
    var v := ApplyUpdate(u, items[j]).value;
    AttachExperimentFields(items[j], experiment, "experiments");
    UpdateAtFirstMatch(items, key.value, u, j, ApplyUpdate(u, items[j]).value);
    assert UpdateLedger(JArr(items), key, u) == Some(JArr(items[j := v]));
    AppendSteps(disk, data);
    var saved := Written(disk, data)[LedgerPath := Stored(JArr(items[j := v]))];
    assert AppendEffect(disk, data) == (true, saved);
    assert LoadLedger(saved) == JArr(items[j := v]);
    forall k | k != "experiments" ensures Field(items[j := v][j], k) == Field(items[j], k) {
      AttachExperimentFields(items[j], experiment, k);
    }
  }

  /**
   * When no item matches and the loop completes, the ledger is saved exactly
   * as it was loaded; the artifact is still written.
   */
  lemma AppendWithoutMatch(disk: Disk, data: Json)
    requires Artifact(data).Some? && AppendEffect(disk, data).0
    requires var ledger := LoadLedger(Written(disk, data));
             ledger.JArr? ==> forall i :: 0 <= i < |ledger.items| ==> !Matches(ledger.items[i], AttachUpdate(data).0.value)
    ensures var written := Written(disk, data);
            AppendEffect(disk, data).1 == written[LedgerPath := Stored(LoadLedger(written))]
  {
    var (key, u) := AttachUpdate(data);
    NoMatchUnchanged(LoadLedger(Written(disk, data)), key, u);
  }

  /**
   * The body a driver submits, `{"experiment": record, "results": results}`:
   * the results land at the record's `result_path`, and the record is
   * appended to the ledger item whose id is the record's `result_item_id`.
   */
  lemma SubmissionLands(disk: Disk, e: Experiment, results: Json, j: nat)
    requires var ledger := LoadLedger(disk[e.resultPath := Stored(results)]);
             && ledger.JArr? && IsFirstMatch(ledger.items, e.resultItemId, j)
             && forall i :: 0 <= i < j ==> ledger.items[i].JObj?
    ensures var items := LoadLedger(disk[e.resultPath := Stored(results)]).items;
            var data := Submission(e, results);
            var r := AppendEffect(disk, data);
            var saved := LoadLedger(r.1);
            && Artifact(data) == Some((ToJson(e), e.resultPath, results))
            && r.0 && saved.JArr? && |saved.items| == |items|
            && (e.resultPath != LedgerPath ==> r.1[e.resultPath] == Stored(results))
            && (forall i :: 0 <= i < |items| && i != j ==> saved.items[i] == items[i])
            && Field(saved.items[j], "experiments") == Some(JArr(PriorExperiments(items[j]) + [ToJson(e)]))
  {
    SubmissionArtifact(e, results);
    AppendToFirstMatch(disk, Submission(e, results), j);
  }

  /** The server reads the record, its path and its item id out of a submitted body. */
  lemma SubmissionArtifact(e: Experiment, results: Json)
    ensures Artifact(Submission(e, results)) == Some((ToJson(e), e.resultPath, results))
    ensures AttachUpdate(Submission(e, results)).0 == Some(e.resultItemId)
  {
    ServerFields(e);
  }

  // ---------------------------------------------------------------------
  // update_result_item
  // ---------------------------------------------------------------------

  /**
   * `update_result_item` on the request body.  A body that is not JSON is
   * answered with 400 "Invalid JSON" and writes nothing; a body that is not
   * text and a raising loop end the request and write nothing either; otherwise the answer is `{}` and the updated
   * ledger is saved.  Only the ledger can change.
   */
  function UpdateEffect(disk: Disk, body: Body): (r: (Reply, Disk))
    ensures body.NotJson? ==> r == (Fail(400, "Invalid JSON"), disk)
    ensures body.NotText? ==> r == (Crashed, disk)
    ensures r.0 == Crashed ==> r.1 == disk
    ensures r.0.Respond? ==> r.0.body == EmptyObject && LedgerPath in r.1 && r.1[LedgerPath].Stored?
    ensures OnlyChanged(disk, r.1, {LedgerPath})
  {
    match body
    case NotJson => (Fail(400, "Invalid JSON"), disk)
    case NotText => (Crashed, disk)
    case Parsed(data) =>
      match UpdateLedger(LoadLedger(disk), Field(data, "result_item_id"), SetEnd(Field(data, "end")))
      case None => (Crashed, disk)
      case Some(ledger) => (Respond(EmptyObject), disk[LedgerPath := Stored(ledger)])
  }

  /**
   * Updating the first item whose id is the body's `result_item_id` sets its
   * "end" to the body's and changes no other field and no other item.
   */
  lemma UpdateSetsEnd(disk: Disk, data: Json, j: nat)
    requires var ledger := LoadLedger(disk);
             var key := Field(data, "result_item_id");
             && ledger.JArr? && key.Some? && IsFirstMatch(ledger.items, key.value, j)
             && (forall i :: 0 <= i < j ==> ledger.items[i].JObj?)
             && Field(data, "end").Some?
    ensures var items := LoadLedger(disk).items;
            var r := UpdateEffect(disk, Parsed(data));
            var saved := LoadLedger(r.1);
            && r.0 == Respond(EmptyObject) && saved.JArr? && |saved.items| == |items|
            && (forall i :: 0 <= i < |items| && i != j ==> saved.items[i] == items[i])
            && Field(saved.items[j], "end") == Field(data, "end")
            && forall k :: k != "end" ==> Field(saved.items[j], k) == Field(items[j], k)
  {
    var items := LoadLedger(disk).items;
    var key := Field(data, "result_item_id");
    var u := SetEnd(Field(data, "end"));
    var end := Field(data, "end").value;
    SetEndFields(items[j], end, "end");
    UpdateAtFirstMatch(items, key.value, u, j, ApplyUpdate(u, items[j]).value);
    forall k | k != "end" ensures Field(items[j := ApplyUpdate(u, items[j]).value][j], k) == Field(items[j], k) {
      SetEndFields(items[j], end, k);
    }
  }

  /** With no item matching, a completed update saves the ledger as it was loaded. */
  lemma UpdateWithoutMatch(disk: Disk, data: Json)
    requires UpdateEffect(disk, Parsed(data)).0.Respond?
    requires var ledger := LoadLedger(disk);
             ledger.JArr? ==> forall i :: 0 <= i < |ledger.items| ==> !Matches(ledger.items[i], Field(data, "result_item_id").value)
    ensures UpdateEffect(disk, Parsed(data)).1 == disk[LedgerPath := Stored(LoadLedger(disk))]
  {
    NoMatchUnchanged(LoadLedger(disk), Field(data, "result_item_id"), SetEnd(Field(data, "end")));
  }

  // ---------------------------------------------------------------------
  // The other handlers
  // ---------------------------------------------------------------------

  /**
   * `append_experiment`: 400 "Invalid JSON" for a body that is not JSON, an
   * uncaught exception for one that is not text; otherwise the append,
   * answered with `{}` when it completes.
   */
  function AppendExperimentEffect(disk: Disk, body: Body): (r: (Reply, Disk))
    ensures body.NotJson? ==> r == (Fail(400, "Invalid JSON"), disk)
    ensures body.NotText? ==> r == (Crashed, disk)
    ensures body.Parsed? ==> r.1 == AppendEffect(disk, body.data).1
    ensures body.Parsed? ==> (r.0 == Respond(EmptyObject) <==> AppendEffect(disk, body.data).0)
    ensures body.Parsed? && !AppendEffect(disk, body.data).0 ==> r.0 == Crashed
  {
    match body
    case NotJson => (Fail(400, "Invalid JSON"), disk)
    case NotText => (Crashed, disk)
    case Parsed(data) =>
      var (ok, disk') := AppendEffect(disk, data);
      (if ok then Respond(EmptyObject) else Crashed, disk')
  }

  /**
   * `save_json_object`: 400 with a JSON error for a body that is not JSON, an
   * uncaught exception for one that is not text; otherwise `jsonObject` is saved at `location` (which must be a string)
   * and the answer is `{}`.  Only that file changes.
   */
  function SaveJsonObjectEffect(disk: Disk, body: Body): (r: (Reply, Disk))
    ensures body.NotJson? ==> r == (Fail(400, InvalidJsonError), disk)
    ensures r.0.Respond? <==>
              body.Parsed? && Field(body.data, "location").Some? && Field(body.data, "location").value.JStr?
              && Field(body.data, "jsonObject").Some?
    ensures r.0.Respond? ==>
              var location := Field(body.data, "location").value.s;
              && r.0.body == EmptyObject
              && r.1 == disk[location := Stored(Field(body.data, "jsonObject").value)]
    ensures !body.NotJson? && !r.0.Respond? ==> r == (Crashed, disk)
  {
    match body
    case NotJson => (Fail(400, InvalidJsonError), disk)
    case NotText => (Crashed, disk)
    case Parsed(data) =>
      match (Field(data, "location"), Field(data, "jsonObject"))
      case (Some(JStr(location)), Some(value)) => (Respond(EmptyObject), disk[location := Stored(value)])
      case _ => (Crashed, disk)
  }

  /**
   * The body `run_python` hands to the append: the result of the selected
   * `process`, or `None` where parsing the query or `process` raises.  The
   * body always carries a record whose path the server can write and whose
   * `result_item_id` is the query's.
   */
  function RunPythonData(q: Query, w: World): (r: Option<Json>)
    requires ValidWorld(w)
    ensures r.Some? ==> QueryInt(q, "dataset").Some? && QueryInt(q, "result_item_id").Some?
    ensures r.Some? ==>
              && Artifact(r.value).Some?
              && AttachUpdate(r.value).0 == Some(JNum(QueryInt(q, "result_item_id").value as real))
    ensures QueryInt(q, "dataset").Some? && QueryInt(q, "result_item_id").Some? && Get(q, "type") == Some(LinearRegressionType) ==>
              (r.Some? <==> LinearRegressionPython.Process(QueryInt(q, "dataset").value, Get(q, "try"), Get(q, "sample"),
                                                            QueryInt(q, "result_item_id").value, w.lrTrain, w.start, w.end).Ok?)
    ensures QueryInt(q, "dataset").Some? && QueryInt(q, "result_item_id").Some? && Get(q, "type") != Some(LinearRegressionType) ==>
              (r.Some? <==> NeuralNetworkPython.Process(QueryInt(q, "dataset").value, Get(q, "try"), Get(q, "sample"),
                                                         QueryInt(q, "result_item_id").value, w.nnTrain, w.start, w.end).Ok?)
  {
    var dataset := QueryInt(q, "dataset");
    var id := QueryInt(q, "result_item_id");
    if dataset.None? || id.None? then None
    else if Get(q, "type") == Some(LinearRegressionType) then
      var data := LinearRegressionPython.Process(dataset.value, Get(q, "try"), Get(q, "sample"), id.value, w.lrTrain, w.start, w.end);
      if data.Err? then None
      else
        LinearRegressionRun(dataset.value, Get(q, "try"), Get(q, "sample"), id.value, w);
        Some(data.value)
    else
      var data := NeuralNetworkPython.Process(dataset.value, Get(q, "try"), Get(q, "sample"), id.value, w.nnTrain, w.start, w.end);
      if data.Err? then None
      else
        NeuralNetworkRun(dataset.value, Get(q, "try"), Get(q, "sample"), id.value, w);
        Some(data.value)
  }

  /** A completed linear-regression `process` submits a record keyed by its `result_item_id`. */
  lemma LinearRegressionRun(dataset: int, tries: Option<string>, sample: Option<string>, id: int, w: World)
    requires ValidWorld(w)
    requires LinearRegressionPython.Process(dataset, tries, sample, id, w.lrTrain, w.start, w.end).Ok?
    ensures var data := LinearRegressionPython.Process(dataset, tries, sample, id, w.lrTrain, w.start, w.end).value;
            Artifact(data).Some? && AttachUpdate(data).0 == Some(JNum(id as real))
  {
    var e := LinearRegressionPython.Record(LinearRegressionPython.DatasetName(dataset).value, ParseInt(tries.value).value,
                                           tries.value, sample.value, id, w.start, w.end);
    SubmissionArtifact(e, w.lrTrain(LinearRegressionPython.DatasetName(dataset).value));
  }

  /** A completed neural-network `process` submits a record keyed by its `result_item_id`. */
  lemma NeuralNetworkRun(dataset: int, tries: Option<string>, sample: Option<string>, id: int, w: World)
    requires ValidWorld(w)
    requires NeuralNetworkPython.Process(dataset, tries, sample, id, w.nnTrain, w.start, w.end).Ok?
    ensures var data := NeuralNetworkPython.Process(dataset, tries, sample, id, w.nnTrain, w.start, w.end).value;
            Artifact(data).Some? && AttachUpdate(data).0 == Some(JNum(id as real))
  {
    var e := NeuralNetworkPython.Record(Samples.SelectorPercent(dataset).value, ParseInt(tries.value).value,
                                        tries.value, sample, id, w.start, w.end);
    SubmissionArtifact(e, w.nnTrain(NeuralNetworkPython.DatasetFraction(dataset).value));
  }

  /** `run_python`: the selected training's record is appended, and the answer is `{}`. */
  function RunPythonEffect(disk: Disk, q: Query, w: World): (r: (Reply, Disk))
    requires ValidWorld(w)
    ensures RunPythonData(q, w).None? ==> r == (Crashed, disk)
    ensures RunPythonData(q, w).Some? ==>
              && r.1 == AppendEffect(disk, RunPythonData(q, w).value).1
              && (r.0 == Respond(EmptyObject) <==> AppendEffect(disk, RunPythonData(q, w).value).0)
              && (r.0 != Respond(EmptyObject) ==> r.0 == Crashed)
  {
    match RunPythonData(q, w)
    case None => (Crashed, disk)
    case Some(data) =>
      var (ok, disk') := AppendEffect(disk, data);
      (if ok then Respond(EmptyObject) else Crashed, disk')
  }

  /** `plot_linear_regression` / `plot_neural_network`: `int(id)`, `int(tries)`, the plot, then `{}`. */
  function PlotReply(q: Query, plot: (int, int) -> bool): (r: Reply)
    ensures r == Respond(EmptyObject) <==>
              QueryInt(q, "id").Some? && QueryInt(q, "tries").Some? && plot(QueryInt(q, "id").value, QueryInt(q, "tries").value)
    ensures r != Respond(EmptyObject) ==> r == Crashed
  {
    match (QueryInt(q, "id"), QueryInt(q, "tries"))
    case (Some(id), Some(tries)) => if plot(id, tries) then Respond(EmptyObject) else Crashed
    case _ => Crashed
  }

  // ---------------------------------------------------------------------
  // The loop of both ledger updates
  // ---------------------------------------------------------------------

  /**
   * `for item in result_list: if item.get('id') == key: <update>; break`,
   * over the items of the loaded list; the item found is updated where it
   * stands.
   */
  method UpdateFirstMatch(items: seq<Json>, key: Option<Json>, u: Update) returns (r: Option<seq<Json>>)
    ensures r == UpdateFirst(items, key, u)
  {
    var i := 0;
    assert items[..0] == [] && items[0..] == items;
    assert UpdateFirst(items, key, u) == Prepend([], UpdateFirst(items, key, u)) by {
      if UpdateFirst(items, key, u).Some? {
        assert [] + UpdateFirst(items, key, u).value == UpdateFirst(items, key, u).value;
      }
    }
    while i < |items|
      invariant 0 <= i <= |items|
      invariant UpdateFirst(items, key, u) == Prepend(items[..i], UpdateFirst(items[i..], key, u))
    {
      UpdateFirstAt(items, key, u, i);
      var item := items[i];
      if !item.JObj? || key.None? {
        return None;
      }
      if PyEq(FieldOrNull(item, "id"), key.value) {
        var updated := ApplyUpdate(u, item);
        if updated.None? {
          return None;
        }
        SpliceAt(items, i, updated.value);
        return Some(items[i := updated.value]);
      }
      PrependTwice(items[..i], [item], UpdateFirst(items[i + 1..], key, u));
      assert items[..i] + [item] == items[..i + 1];
      i := i + 1;
    }
    assert items[..i] == items && items[i..] == [] && items + [] == items;
    return Some(items);
  }

  // ---------------------------------------------------------------------
  // The handler
  // ---------------------------------------------------------------------

  class Handler {
    /** The files the server reads and writes, by path. */
    var disk: Disk

    constructor (files: Disk)
      ensures disk == files
    {
      disk := files;
    }

    /** `get_result_list()`: the ledger, or `[]` when it is missing or not JSON. */
    method GetResultList() returns (r: Json)
      ensures r == LoadLedger(disk)
    {
      if LedgerPath in disk && disk[LedgerPath].Stored? {
        r := disk[LedgerPath].content;
      } else {
        r := JArr([]);
      }
    }

    /** `save_json_file(location, data)`: the file at `location` now holds `data`. */
    method SaveJsonFile(location: string, data: Json)
      modifies this
      ensures disk == old(disk)[location := Stored(data)]
    {
      disk := disk[location := Stored(data)];
    }

    /** `new_result_item()`, answered as `do_GET` does. */
    method NewResultItem(q: Query) returns (r: Reply)
      modifies this
      ensures (r, disk) == NewResultItemEffect(old(disk), q)
    {
      var data := GetResultList();
      // `sorted` raises unless every item has a comparable `x['id']`, `+ 1`
      // unless it is a number, and `data.append` unless the ledger is a list.
      if !data.JArr? {
        return Crashed;
      }
      var newId := NewId(data.items);
      if newId.None? {
        return Crashed;
      }
      var tries := QueryInt(q, "tries");
      if tries.None? {
        return Crashed;
      }
      var item := NewItem(newId.value, tries.value, Get(q, "isRunAll"), Get(q, "start"));
      var items := data.items + [item];
      SaveJsonFile(LedgerPath, JArr(items));
      r := Respond(item);
    }

    /** `append_experiment_to_result_list(data)`; `false` where it raises. */
    method AppendExperimentToResultList(data: Json) returns (ok: bool)
      modifies this
      ensures (ok, disk) == AppendEffect(old(disk), data)
    {
      var experiment := Field(data, "experiment");
      if experiment.None? {
        return false;
      }
      var location := Field(experiment.value, "result_path");
      var results := Field(data, "results");
      if location.None? || !location.value.JStr? || results.None? {
        return false;
      }
      SaveJsonFile(location.value.s, results.value);
      var resultList := GetResultList();
      var items := Iterated(resultList);
      if items.None? {
        return false;
      }
      var updated := UpdateFirstMatch(items.value, Field(experiment.value, "result_item_id"), AttachExperiment(experiment.value));
      if updated.None? {
        return false;
      }
      SaveJsonFile(LedgerPath, if resultList.JArr? then JArr(updated.value) else resultList);
      ok := true;
    }

    /** `append_experiment()` on the request body. */
    method AppendExperiment(body: Body) returns (r: Reply)
      modifies this
      ensures (r, disk) == AppendExperimentEffect(old(disk), body)
    {
      if body.NotJson? {
        return Fail(400, "Invalid JSON");
      } else if body.NotText? {
        return Crashed;
      }
      var ok := AppendExperimentToResultList(body.data);
      r := if ok then Respond(EmptyObject) else Crashed;
    }

    /** `update_result_item()` on the request body: the answer is given before the ledger is saved. */
    method UpdateResultItem(body: Body) returns (r: Reply)
      modifies this
      ensures (r, disk) == UpdateEffect(old(disk), body)
    {
      if body.NotJson? {
        return Fail(400, "Invalid JSON");
      } else if body.NotText? {
        return Crashed;
      }
      var data := body.data;
      var resultList := GetResultList();
      var items := Iterated(resultList);
      if items.None? {
        return Crashed;
      }
      var updated := UpdateFirstMatch(items.value, Field(data, "result_item_id"), SetEnd(Field(data, "end")));
      if updated.None? {
        return Crashed;
      }
      r := Respond(EmptyObject);
      SaveJsonFile(LedgerPath, if resultList.JArr? then JArr(updated.value) else resultList);
    }

    /** `save_json_object()` on the request body. */
    method SaveJsonObject(body: Body) returns (r: Reply)
      modifies this
      ensures (r, disk) == SaveJsonObjectEffect(old(disk), body)
    {
      if body.NotJson? {
        return Fail(400, InvalidJsonError);
      } else if body.NotText? {
        return Crashed;
      }
      var location := Field(body.data, "location");
      var value := Field(body.data, "jsonObject");
      if location.None? || value.None? || !location.value.JStr? {
        return Crashed;
      }
      SaveJsonFile(location.value.s, value.value);
      r := Respond(EmptyObject);
    }

    /** `run_python()`. */
    method RunPython(q: Query, w: World) returns (r: Reply)
      requires ValidWorld(w)
      modifies this
      ensures (r, disk) == RunPythonEffect(old(disk), q, w)
    {
      var data := RunPythonData(q, w);
      if data.None? {
        return Crashed;
      }
      var ok := AppendExperimentToResultList(data.value);
      r := if ok then Respond(EmptyObject) else Crashed;
    }

    /** `do_GET()`: the route of the path component; any other path is served as a file. */
    method DoGet(raw: string, q: Query, w: World) returns (r: Reply)
      requires ValidWorld(w)
      modifies this
      ensures RouteGet(raw) == NewResultItemRoute ==> (r, disk) == NewResultItemEffect(old(disk), q)
      ensures RouteGet(raw) == RunPythonRoute ==> (r, disk) == RunPythonEffect(old(disk), q, w)
      ensures RouteGet(raw) == PlotLinearRegressionRoute ==> r == PlotReply(q, w.plotLinearRegression) && disk == old(disk)
      ensures RouteGet(raw) == PlotNeuralNetworkRoute ==> r == PlotReply(q, w.plotNeuralNetwork) && disk == old(disk)
      ensures RouteGet(raw) == StaticRoute ==> r == ServeStatic(raw) && disk == old(disk)
    {
      match RouteGet(raw)
      case NewResultItemRoute => r := NewResultItem(q);
      case RunPythonRoute => r := RunPython(q, w);
      case PlotLinearRegressionRoute => r := PlotReply(q, w.plotLinearRegression);
      case PlotNeuralNetworkRoute => r := PlotReply(q, w.plotNeuralNetwork);
      case StaticRoute => r := ServeStatic(raw);
    }

    /** `do_POST()`: the route of the raw path; anything else is answered with 404. */
    method DoPost(raw: string, body: Body) returns (r: Reply)
      modifies this
      ensures RoutePost(raw) == SaveJsonObjectRoute ==> (r, disk) == SaveJsonObjectEffect(old(disk), body)
      ensures RoutePost(raw) == AppendExperimentRoute ==> (r, disk) == AppendExperimentEffect(old(disk), body)
      ensures RoutePost(raw) == UpdateResultItemRoute ==> (r, disk) == UpdateEffect(old(disk), body)
      ensures RoutePost(raw) == NotFoundRoute ==> r == Fail(404, NotFoundError) && disk == old(disk)
    {
      match RoutePost(raw)
      case SaveJsonObjectRoute => r := SaveJsonObject(body);
      case AppendExperimentRoute => r := AppendExperiment(body);
      case UpdateResultItemRoute => r := UpdateResultItem(body);
      case NotFoundRoute => r := Fail(404, NotFoundError);
    }
  }

  // ---------------------------------------------------------------------
  // start_server
  // ---------------------------------------------------------------------

  /**
   * `start_server(handler, port, max_retries)`: binds are tried on `port`,
   * `port + 1`, ... at most `max_retries` times; the first that succeeds is
   * served on, and after the last failure the result is `None`.  `binds`
   * tells which ports can be bound; `tried` lists the ports tried in order.
   */
  method StartServer(port: int, maxRetries: int, binds: int -> bool) returns (r: Option<int>, tried: seq<int>)
    ensures |tried| <= if maxRetries < 0 then 0 else maxRetries
    ensures forall i :: 0 <= i < |tried| ==> tried[i] == port + i
    ensures r.Some? ==> tried != [] && r.value == tried[|tried| - 1] && binds(r.value)
    ensures r.Some? ==> forall p :: port <= p < r.value ==> !binds(p)
    ensures r.None? ==> |tried| == (if maxRetries < 0 then 0 else maxRetries)
    ensures r.None? ==> forall p :: port <= p < port + maxRetries ==> !binds(p)
  {
    var retries := 0;
    var current := port;
    tried := [];
    while retries < maxRetries
      invariant 0 <= retries && (retries <= maxRetries || retries == 0)
      invariant current == port + retries && |tried| == retries
      invariant forall i :: 0 <= i < |tried| ==> tried[i] == port + i
      invariant forall p :: port <= p < current ==> !binds(p)
      decreases maxRetries - retries
    {
      tried := tried + [current];
      if binds(current) {
        return Some(current), tried;
      }
      current := current + 1;
      retries := retries + 1;
    }
    r := None;
  }
}
