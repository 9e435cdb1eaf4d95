/**
 * The experiment record every driver submits with its results: a JSON object
 * whose keys appear in the order the drivers write them, and whose four path
 * fields (`location`, `try_path`, `experiment_path`, `result_path`) are nested
 * directories of the training-result tree.
 */
module Experiments {
  import opened Wrappers
  import opened Strings
  import opened Dicts
  import opened JsonValues

  datatype Experiment = Experiment(
    tryNumber: Json,
    kind: string,
    sample: Json,
    title: string,
    start: string,
    end: string,
    platform: string,
    resultItemId: Json,
    location: string,
    tryPath: string,
    experimentPath: string,
    resultPath: string)

  /** The record as the JSON object the drivers build, in their key order. */
  function ToJson(e: Experiment): (r: Json)
    ensures r.JObj? && Keys(r.fields) == ExperimentKeys()
  {
    JObj([("try", e.tryNumber), ("type", JStr(e.kind)), ("sample", e.sample), ("title", JStr(e.title)),
          ("start", JStr(e.start)), ("end", JStr(e.end)), ("platform", JStr(e.platform)),
          ("result_item_id", e.resultItemId), ("location", JStr(e.location)), ("try_path", JStr(e.tryPath)),
          ("experiment_path", JStr(e.experimentPath)), ("result_path", JStr(e.resultPath))])
  }

  function ExperimentKeys(): seq<string> {
    ["try", "type", "sample", "title", "start", "end", "platform", "result_item_id",
     "location", "try_path", "experiment_path", "result_path"]
  }

  /** The body the drivers send: `{"experiment": ..., "results": ...}`. */
  function Submission(e: Experiment, results: Json): (r: Json)
    ensures Field(r, "experiment") == Some(ToJson(e)) && Field(r, "results") == Some(results)
  {
    var fields := [("experiment", ToJson(e)), ("results", results)];
    GetFirstAt(fields, 1);
    JObj(fields)
  }

  /** The server finds the two fields it reads in the submitted record. */
  lemma ServerFields(e: Experiment)
    ensures Field(ToJson(e), "result_path") == Some(JStr(e.resultPath))
    ensures Field(ToJson(e), "result_item_id") == Some(e.resultItemId)
  {
    var fields := ToJson(e).fields;
    assert fields[11] == ("result_path", JStr(e.resultPath));
    assert fields[7] == ("result_item_id", e.resultItemId);
    assert forall j :: 0 <= j < 11 ==> fields[j].0 != "result_path" by { ServerKeysDiffer(Keys(fields)); }
    assert forall j :: 0 <= j < 7 ==> fields[j].0 != "result_item_id" by { ServerKeysDiffer(Keys(fields)); }
    GetFirstAt(fields, 11);
    GetFirstAt(fields, 7);
  }

  /** No key before "result_path" or "result_item_id" is that key. */
  lemma ServerKeysDiffer(keys: seq<string>)
    requires keys == ExperimentKeys()
    ensures forall j :: 0 <= j < 11 ==> keys[j] != "result_path"
    ensures forall j :: 0 <= j < 7 ==> keys[j] != "result_item_id"
  {
  }

  /** `dir + "/" + name`. */
  function Under(dir: string, name: string): string {
    dir + "/" + name
  }

  lemma UnderStartsWith(dir: string, name: string)
    ensures StartsWith(Under(dir, name), dir + "/")
  {
    assert Under(dir, name)[..|dir + "/"|] == dir + "/";
  }

  /** Each path is a sub-directory (or the file) of the one before it. */
  predicate Nested(e: Experiment) {
    StartsWith(e.tryPath, e.location + "/")
    && StartsWith(e.experimentPath, e.tryPath + "/")
    && StartsWith(e.resultPath, e.experimentPath + "/")
  }

  /** A record laid out as `location/try/platform/file` is nested, and the file is the result path's base name. */
  lemma LayoutNested(e: Experiment, tryText: string, platformDir: string, fileName: string)
    requires e.tryPath == Under(e.location, tryText)
    requires e.experimentPath == Under(e.tryPath, platformDir)
    requires e.resultPath == Under(e.experimentPath, fileName)
    requires '/' !in fileName
    ensures Nested(e)
    ensures Basename(e.resultPath) == fileName
  {
    UnderStartsWith(e.location, tryText);
    UnderStartsWith(e.tryPath, platformDir);
    UnderStartsWith(e.experimentPath, fileName);
    BasenameOfJoin(e.experimentPath, fileName);
  }
}
