/**
 * The bookkeeping shared by the four aggregation scripts: scanning the
 * platform folders of one try, reading each `<platform>_sample_<digits>%.json`
 * result file into `metric_data[metric][percentage][platform]`, and the checks
 * and lookups that decide whether the charts and `metric.csv` can be produced.
 * The scripts differ in their metric names, in which values are converted
 * from milliseconds, in stripping "nn_mnist_" from file names before matching,
 * and in how the chart axes are chosen; a `Variant` carries the first three.
 */
module Aggregation {
  import opened Wrappers
  import opened Strings
  import opened Dicts
  import opened JsonValues
  import opened ResultNames
  import opened Tables

  type MetricTable = Table<Json>

  /** Where a metric's value comes from: `data.get(key)` as is, or `round(data.get(key) / 1000, 4)`. */
  datatype Source = Raw(key: string) | Seconds(key: string)

  datatype Variant = Variant(metrics: seq<string>, assignments: seq<(string, Source)>, stripNnPrefix: bool)

  /** An entry of `os.listdir` of a try folder: a platform folder with its files, or anything else. */
  datatype Entry = Folder(name: string, files: seq<(string, File)>) | Other(name: string)

  /** The name matched against `([a-zA-Z0-9_]+)_sample_(\d+)%.json`, after removing every "nn_mnist_" where the script does. */
  function ParseName(v: Variant, name: string): (r: Option<(string, string)>)
    ensures !v.stripNnPrefix ==> r == ParseResultName(name)
    ensures v.stripNnPrefix ==> r == ParseResultName(StripNnPrefix(name))
  {
    ParseResultName(if v.stripNnPrefix then StripNnPrefix(name) else name)
  }

  /** Without the prefix removal, the name a driver builds ends in ".json" and parses into its platform and percentage. */
  lemma PlainBuiltName(v: Variant, p: string, d: string)
    requires !v.stripNnPrefix && p != [] && AllWord(p) && d != [] && AllDigits(d)
    ensures EndsWith(p + "_sample_" + d + "%.json", ".json")
    ensures ParseName(v, p + "_sample_" + d + "%.json") == Some((p, d + "%"))
  {
    BuiltNameRoundTrip(p + "_sample_" + d + "%.json", p, d);
    BuiltNameEndsJson(p, d);
  }

  /** The value a source yields from an object, or `None` where the division raises `TypeError`. */
  function SourceValue(src: Source, data: Json, toSeconds: real -> real): (r: Option<Json>)
    ensures src.Raw? ==> r == Some(FieldOrNull(data, src.key))
    ensures src.Seconds? ==> (r.Some? <==> IsNumber(FieldOrNull(data, src.key)))
    ensures src.Seconds? && r.Some? ==> r.value == JNum(toSeconds(NumValue(FieldOrNull(data, src.key))))
  {
    match src
    case Raw(key) => Some(FieldOrNull(data, key))
    case Seconds(key) =>
      var x := FieldOrNull(data, key);
      if IsNumber(x) then Some(JNum(toSeconds(NumValue(x)))) else None
  }

  /** The assignments in order; the first that raises stops the rest. */
  function Assign(t: MetricTable, assignments: seq<(string, Source)>, data: Json, platform: string, pct: string,
                  toSeconds: real -> real): MetricTable
    decreases |assignments|
  {
    if assignments == [] then t
    else
      match SourceValue(assignments[0].1, data, toSeconds)
      case None => t
      case Some(x) => Assign(Put(t, assignments[0].0, pct, platform, x), assignments[1..], data, platform, pct, toSeconds)
  }

  /** `for metric in metrics:` create `metric_data[metric]` and `metric_data[metric][percentage]` where missing. */
  function InitMetrics(t: MetricTable, metrics: seq<string>, pct: string): MetricTable
    decreases |metrics|
  {
    if metrics == [] then t else EnsurePath(InitMetrics(t, metrics[..|metrics| - 1], pct), metrics[|metrics| - 1], pct)
  }

  /**
   * One file of a platform folder.  Names without ".json" are not opened;
   * invalid JSON and names that do not match are skipped before anything
   * changes; a document that is not an object stops at the first `data.get`,
   * after the metric dictionaries have been created.
   */
  function FileStep(v: Variant, t: MetricTable, name: string, file: File, toSeconds: real -> real): MetricTable {
    if !EndsWith(name, ".json") then t
    else
      match file
      case Unparseable => t
      case Stored(data) =>
        match ParseName(v, name)
        case None => t
        case Some((platform, pct)) =>
          var t1 := InitMetrics(t, v.metrics, pct);
          if data.JObj? then Assign(t1, v.assignments, data, platform, pct, toSeconds) else t1
  }

  function FoldFiles(v: Variant, t: MetricTable, files: seq<(string, File)>, toSeconds: real -> real): MetricTable
    decreases |files|
  {
    if files == [] then t
    else
      var last := files[|files| - 1];
      FileStep(v, FoldFiles(v, t, files[..|files| - 1], toSeconds), last.0, last.1, toSeconds)
  }

  function FoldEntries(v: Variant, t: MetricTable, entries: seq<Entry>, toSeconds: real -> real): MetricTable
    decreases |entries|
  {
    if entries == [] then t
    else
      var before := FoldEntries(v, t, entries[..|entries| - 1], toSeconds);
      match entries[|entries| - 1]
      case Folder(_, files) => FoldFiles(v, before, files, toSeconds)
      case Other(_) => before
  }

  /** The files of all platform folders, in listing order. */
  function AllFiles(entries: seq<Entry>): seq<(string, File)>
    decreases |entries|
  {
    if entries == [] then []
    else AllFiles(entries[..|entries| - 1]) + (match entries[|entries| - 1] case Folder(_, files) => files case Other(_) => [])
  }

  // ---------------------------------------------------------------------
  // The loops
  // ---------------------------------------------------------------------

  /**
   * The `try` block of one file gets past its assignments: the file is
   * opened and parsed, its name matches, it holds an object and no
   * conversion raises.  What the scripts do next (the per-file plots) is
   * reached only then.
   */
  predicate PassesAssignments(v: Variant, name: string, file: File, toSeconds: real -> real) {
    && EndsWith(name, ".json") && file.Stored? && ParseName(v, name).Some? && file.content.JObj?
    && ConvertsUpTo(v.assignments, file.content, toSeconds, |v.assignments|)
  }

  /** One file, with the metric-creating loop written out. */
  method ReadFile(v: Variant, t: MetricTable, name: string, file: File, toSeconds: real -> real) returns (t': MetricTable)
    ensures t' == FileStep(v, t, name, file, toSeconds)
  {
    t' := t;
    if !EndsWith(name, ".json") || file.Unparseable? {
      return;
    }
    var parsed := ParseName(v, name);
    if parsed.None? {
      return;
    }
    var (platform, pct) := parsed.value;
    t' := CreateMetrics(t, v.metrics, pct);
    if file.content.JObj? {
      t' := Assign(t', v.assignments, file.content, platform, pct, toSeconds);
    }
  }

  /**
   * The loop over `metrics` that creates `metric_data[metric]` and then
   * `metric_data[metric][percentage]` where they are not present yet.
   */
  method CreateMetrics(t: MetricTable, metrics: seq<string>, pct: string) returns (t': MetricTable)
    ensures t' == InitMetrics(t, metrics, pct)
  {
    t' := t;
    var i := 0;
    while i < |metrics|
      invariant 0 <= i <= |metrics|
      invariant t' == InitMetrics(t, metrics[..i], pct)
    {
      assert metrics[..i + 1][..i] == metrics[..i];
      t' := EnsurePath(t', metrics[i], pct);
      i := i + 1;
    }
    assert metrics[..i] == metrics;
  }

  /** The files of one platform folder, in listing order. */
  method ReadFolder(v: Variant, t: MetricTable, files: seq<(string, File)>, toSeconds: real -> real) returns (t': MetricTable)
    ensures t' == FoldFiles(v, t, files, toSeconds)
  {
    t' := t;
    var j := 0;
    while j < |files|
      invariant 0 <= j <= |files|
      invariant t' == FoldFiles(v, t, files[..j], toSeconds)
    {
      assert files[..j + 1][..j] == files[..j];
      t' := ReadFile(v, t', files[j].0, files[j].1, toSeconds);
      j := j + 1;
    }
    assert files[..j] == files;
  }

  /** The loop over the entries of a try folder; only folders are read. */
  method ProcessFolders(v: Variant, seed: MetricTable, entries: seq<Entry>, toSeconds: real -> real) returns (t: MetricTable)
    ensures t == FoldEntries(v, seed, entries, toSeconds)
  {
    t := seed;
    var i := 0;
    while i < |entries|
      invariant 0 <= i <= |entries|
      invariant t == FoldEntries(v, seed, entries[..i], toSeconds)
    {
      assert entries[..i + 1][..i] == entries[..i];
      if entries[i].Folder? {
        t := ReadFolder(v, t, entries[i].files, toSeconds);
      }
      i := i + 1;
    }
    assert entries[..i] == entries;
  }

  // ---------------------------------------------------------------------
  // What one file does
  // ---------------------------------------------------------------------

  /** Creating the metric dictionaries changes no value. */
  lemma {:induction false} InitMetricsCell(t: MetricTable, metrics: seq<string>, pct: string, m: string, p: string, c: string)
    ensures Cell(InitMetrics(t, metrics, pct), m, p, c) == Cell(t, m, p, c)
    decreases |metrics|
  {
    if metrics != [] {
      InitMetricsCell(t, metrics[..|metrics| - 1], pct, m, p, c);
      EnsurePathCell(InitMetrics(t, metrics[..|metrics| - 1], pct), metrics[|metrics| - 1], pct, m, p, c);
    }
  }

  /** Existing dictionaries stay. */
  lemma {:induction false} InitMetricsKeeps(t: MetricTable, metrics: seq<string>, pct: string, m: string, p: string)
    requires HasPath(t, m, p)
    ensures HasPath(InitMetrics(t, metrics, pct), m, p)
    decreases |metrics|
  {
    if metrics != [] {
      InitMetricsKeeps(t, metrics[..|metrics| - 1], pct, m, p);
      EnsurePathKeeps(InitMetrics(t, metrics[..|metrics| - 1], pct), metrics[|metrics| - 1], pct, m, p);
    }
  }

  /** Afterwards `metric_data[m][pct]` exists for every metric. */
  lemma {:induction false} InitMetricsHas(t: MetricTable, metrics: seq<string>, pct: string, m: string)
    requires m in metrics
    ensures HasPath(InitMetrics(t, metrics, pct), m, pct)
    decreases |metrics|
  {
    var init := metrics[..|metrics| - 1];
    var last := metrics[|metrics| - 1];
    var before := InitMetrics(t, init, pct);
    InLast(metrics, m);
    if m == last {
      EnsurePathHas(before, last, pct);
    } else {
      InitMetricsHas(t, init, pct, m);
      EnsurePathKeeps(before, last, pct, m, pct);
    }
  }

  /** The metric keys afterwards are the earlier ones and the metrics. */
  lemma {:induction false} InitMetricsKeys(t: MetricTable, metrics: seq<string>, pct: string, m: string)
    ensures Get(InitMetrics(t, metrics, pct), m).Some? <==> Get(t, m).Some? || m in metrics
    decreases |metrics|
  {
    if metrics != [] {
      var init := metrics[..|metrics| - 1];
      InitMetricsKeys(t, init, pct, m);
      EnsurePathKeys(InitMetrics(t, init, pct), metrics[|metrics| - 1], pct, m);
      InLast(metrics, m);
    }
  }

  /** Membership in a non-empty sequence is membership in its front or being its last element. */
  lemma InLast<T>(s: seq<T>, x: T)
    requires s != []
    ensures x in s <==> x in s[..|s| - 1] || x == s[|s| - 1]
  {
    assert s == s[..|s| - 1] + [s[|s| - 1]];
  }

  /** The assignments touch only the file's own (percentage, platform) cells. */
  lemma {:induction false} AssignFrame(t: MetricTable, assignments: seq<(string, Source)>, data: Json, platform: string, pct: string,
                                       toSeconds: real -> real, m: string, p: string, c: string)
    requires p != pct || c != platform
    ensures Cell(Assign(t, assignments, data, platform, pct, toSeconds), m, p, c) == Cell(t, m, p, c)
    decreases |assignments|
  {
    if assignments != [] {
      match SourceValue(assignments[0].1, data, toSeconds)
      case None =>
      case Some(x) =>
        CellPut(t, assignments[0].0, pct, platform, x, m, p, c);
        AssignFrame(Put(t, assignments[0].0, pct, platform, x), assignments[1..], data, platform, pct, toSeconds, m, p, c);
    }
  }

  /** The first `n` sources all convert. */
  predicate ConvertsUpTo(assignments: seq<(string, Source)>, data: Json, toSeconds: real -> real, n: nat)
    requires n <= |assignments|
  {
    forall j :: 0 <= j < n ==> SourceValue(assignments[j].1, data, toSeconds).Some?
  }

  /**
   * An assignment every earlier one of which converted stores its value,
   * unless a later assignment writes the same metric.
   */
  lemma {:induction false} AssignStores(t: MetricTable, assignments: seq<(string, Source)>, data: Json, platform: string, pct: string,
                                        toSeconds: real -> real, i: nat)
    requires i < |assignments| && ConvertsUpTo(assignments, data, toSeconds, i + 1)
    requires forall j :: i < j < |assignments| ==> assignments[j].0 != assignments[i].0
    ensures Cell(Assign(t, assignments, data, platform, pct, toSeconds), assignments[i].0, pct, platform)
         == SourceValue(assignments[i].1, data, toSeconds)
    decreases |assignments|
  {
    var x := SourceValue(assignments[0].1, data, toSeconds).value;
    var t1 := Put(t, assignments[0].0, pct, platform, x);
    var rest := assignments[1..];
    assert Assign(t, assignments, data, platform, pct, toSeconds) == Assign(t1, rest, data, platform, pct, toSeconds);
    if i == 0 {
      CellPut(t, assignments[0].0, pct, platform, x, assignments[0].0, pct, platform);
      AssignOthers(t1, rest, data, platform, pct, toSeconds, assignments[0].0);
    } else {
      AssignTail(assignments, data, toSeconds, i);
      AssignStores(t1, rest, data, platform, pct, toSeconds, i - 1);
    }
  }

  /** Dropping the first assignment keeps both preconditions of `AssignStores` one position earlier. */
  lemma AssignTail(assignments: seq<(string, Source)>, data: Json, toSeconds: real -> real, i: nat)
    requires 0 < i < |assignments| && ConvertsUpTo(assignments, data, toSeconds, i + 1)
    requires forall j :: i < j < |assignments| ==> assignments[j].0 != assignments[i].0
    ensures ConvertsUpTo(assignments[1..], data, toSeconds, i)
    ensures forall j :: i - 1 < j < |assignments| - 1 ==> assignments[1..][j].0 != assignments[1..][i - 1].0
  {
    var rest := assignments[1..];
    assert forall j :: 0 <= j < |rest| ==> rest[j] == assignments[j + 1];
  }

  /** Assignments to other metrics leave a metric's cell alone. */
  lemma {:induction false} AssignOthers(t: MetricTable, assignments: seq<(string, Source)>, data: Json, platform: string, pct: string,
                                        toSeconds: real -> real, m: string)
    requires forall j :: 0 <= j < |assignments| ==> assignments[j].0 != m
    ensures Cell(Assign(t, assignments, data, platform, pct, toSeconds), m, pct, platform) == Cell(t, m, pct, platform)
    decreases |assignments|
  {
    if assignments != [] {
      match SourceValue(assignments[0].1, data, toSeconds)
      case None =>
      case Some(x) =>
        CellPut(t, assignments[0].0, pct, platform, x, m, pct, platform);
        AssignOthers(Put(t, assignments[0].0, pct, platform, x), assignments[1..], data, platform, pct, toSeconds, m);
    }
  }

  /** Skipped files change nothing. */
  lemma FileSkipped(v: Variant, t: MetricTable, name: string, file: File, toSeconds: real -> real)
    requires !EndsWith(name, ".json") || file.Unparseable? || ParseName(v, name).None?
    ensures FileStep(v, t, name, file, toSeconds) == t
  {
  }

  /** A file changes only the cells of the platform and percentage its name gives. */
  lemma FileFrame(v: Variant, t: MetricTable, name: string, file: File, toSeconds: real -> real, m: string, p: string, c: string)
    requires ParseName(v, name) != Some((c, p))
    ensures Cell(FileStep(v, t, name, file, toSeconds), m, p, c) == Cell(t, m, p, c)
  {
    if EndsWith(name, ".json") && file.Stored? && ParseName(v, name).Some? {
      var (platform, pct) := ParseName(v, name).value;
      InitMetricsCell(t, v.metrics, pct, m, p, c);
      if file.content.JObj? {
        AssignFrame(InitMetrics(t, v.metrics, pct), v.assignments, file.content, platform, pct, toSeconds, m, p, c);
      }
    }
  }

  /** A matched file stores each assignment whose sources up to it converted. */
  lemma FileStores(v: Variant, t: MetricTable, name: string, data: Json, toSeconds: real -> real, platform: string, pct: string, i: nat)
    requires EndsWith(name, ".json") && ParseName(v, name) == Some((platform, pct)) && data.JObj?
    requires i < |v.assignments| && ConvertsUpTo(v.assignments, data, toSeconds, i + 1)
    requires forall j :: i < j < |v.assignments| ==> v.assignments[j].0 != v.assignments[i].0
    ensures Cell(FileStep(v, t, name, Stored(data), toSeconds), v.assignments[i].0, pct, platform)
         == SourceValue(v.assignments[i].1, data, toSeconds)
  {
    AssignStores(InitMetrics(t, v.metrics, pct), v.assignments, data, platform, pct, toSeconds, i);
  }

  /** A matched file whose first source fails only creates the metric dictionaries. */
  lemma FileStops(v: Variant, t: MetricTable, name: string, data: Json, toSeconds: real -> real, platform: string, pct: string)
    requires EndsWith(name, ".json") && ParseName(v, name) == Some((platform, pct))
    requires v.assignments != [] && SourceValue(v.assignments[0].1, data, toSeconds).None?
    ensures FileStep(v, t, name, Stored(data), toSeconds) == InitMetrics(t, v.metrics, pct)
  {
  }

  /** After a matched file every metric has its percentage, whatever the document holds. */
  lemma FileInitializes(v: Variant, t: MetricTable, name: string, data: Json, toSeconds: real -> real, platform: string, pct: string, m: string)
    requires EndsWith(name, ".json") && ParseName(v, name) == Some((platform, pct)) && m in v.metrics
    requires forall j :: 0 <= j < |v.assignments| ==> v.assignments[j].0 in v.metrics
    ensures HasPath(FileStep(v, t, name, Stored(data), toSeconds), m, pct)
  {
    InitMetricsHas(t, v.metrics, pct, m);
    if data.JObj? {
      AssignKeepsPaths(InitMetrics(t, v.metrics, pct), v.assignments, data, platform, pct, toSeconds, m, pct);
    }
  }

  lemma {:induction false} AssignKeepsPaths(t: MetricTable, assignments: seq<(string, Source)>, data: Json, platform: string, pct: string,
                                            toSeconds: real -> real, m: string, p: string)
    requires HasPath(t, m, p)
    ensures HasPath(Assign(t, assignments, data, platform, pct, toSeconds), m, p)
    decreases |assignments|
  {
    if assignments != [] {
      match SourceValue(assignments[0].1, data, toSeconds)
      case None =>
      case Some(x) =>
        PutHasPath(t, assignments[0].0, pct, platform, x, m, p);
        AssignKeepsPaths(Put(t, assignments[0].0, pct, platform, x), assignments[1..], data, platform, pct, toSeconds, m, p);
    }
  }

  // ---------------------------------------------------------------------
  // What a sequence of files does
  // ---------------------------------------------------------------------

  lemma {:induction false} FoldFilesAppend(v: Variant, t: MetricTable, a: seq<(string, File)>, b: seq<(string, File)>, toSeconds: real -> real)
    ensures FoldFiles(v, t, a + b, toSeconds) == FoldFiles(v, FoldFiles(v, t, a, toSeconds), b, toSeconds)
    decreases |b|
  {
    if b == [] {
      assert a + b == a;
    } else {
      assert (a + b)[..|a + b| - 1] == a + b[..|b| - 1];
      FoldFilesAppend(v, t, a, b[..|b| - 1], toSeconds);
    }
  }

  /** The folder loop reads the files of all platform folders in listing order. */
  lemma {:induction false} FoldEntriesFlat(v: Variant, t: MetricTable, entries: seq<Entry>, toSeconds: real -> real)
    ensures FoldEntries(v, t, entries, toSeconds) == FoldFiles(v, t, AllFiles(entries), toSeconds)
    decreases |entries|
  {
    if entries != [] {
      var init := entries[..|entries| - 1];
      FoldEntriesFlat(v, t, init, toSeconds);
      match entries[|entries| - 1]
      case Folder(_, files) => FoldFilesAppend(v, t, AllFiles(init), files, toSeconds);
      case Other(_) =>
        assert entries[..|entries| - 1] == init;
        assert AllFiles(entries) == AllFiles(init) + [] == AllFiles(init);
    }
  }

  /** A skipped file can be dropped: the files after it are processed as if it were absent. */
  lemma SkippedFileDropped(v: Variant, t: MetricTable, before: seq<(string, File)>, name: string, file: File,
                           after: seq<(string, File)>, toSeconds: real -> real)
    requires !EndsWith(name, ".json") || file.Unparseable? || ParseName(v, name).None?
    ensures FoldFiles(v, t, before + [(name, file)] + after, toSeconds) == FoldFiles(v, t, before + after, toSeconds)
  {
    FoldFilesAppend(v, t, before + [(name, file)], after, toSeconds);
    FoldFilesAppend(v, t, before, after, toSeconds);
    assert (before + [(name, file)])[..|before|] == before;
  }

  /**
   * The last file: a value stored by a file survives every later file whose
   * name gives another (platform, percentage).
   */
  lemma {:induction false} LastFileWins(v: Variant, t: MetricTable, files: seq<(string, File)>, toSeconds: real -> real,
                                        k: nat, platform: string, pct: string, i: nat)
    requires k < |files| && files[k].1.Stored? && files[k].1.content.JObj? && EndsWith(files[k].0, ".json")
    requires ParseName(v, files[k].0) == Some((platform, pct))
    requires forall j :: k < j < |files| ==> ParseName(v, files[j].0) != Some((platform, pct))
    requires i < |v.assignments| && ConvertsUpTo(v.assignments, files[k].1.content, toSeconds, i + 1)
    requires forall j :: i < j < |v.assignments| ==> v.assignments[j].0 != v.assignments[i].0
    ensures Cell(FoldFiles(v, t, files, toSeconds), v.assignments[i].0, pct, platform)
         == SourceValue(v.assignments[i].1, files[k].1.content, toSeconds)
    decreases |files|
  {
    var init := files[..|files| - 1];
    var last := files[|files| - 1];
    if k == |files| - 1 {
      FileStores(v, FoldFiles(v, t, init, toSeconds), last.0, last.1.content, toSeconds, platform, pct, i);
    } else {
      assert init[k] == files[k];
      LastFileWins(v, t, init, toSeconds, k, platform, pct, i);
      FileFrame(v, FoldFiles(v, t, init, toSeconds), last.0, last.1, toSeconds, v.assignments[i].0, pct, platform);
    }
  }

  /** Reading files keeps the dictionaries' keys unique. */
  lemma {:induction false} FoldFilesUnique(v: Variant, t: MetricTable, files: seq<(string, File)>, toSeconds: real -> real)
    requires UniqueLevels(t)
    ensures UniqueLevels(FoldFiles(v, t, files, toSeconds))
    decreases |files|
  {
    if files != [] {
      FoldFilesUnique(v, t, files[..|files| - 1], toSeconds);
      var last := files[|files| - 1];
      FileStepUnique(v, FoldFiles(v, t, files[..|files| - 1], toSeconds), last.0, last.1, toSeconds);
    }
  }

  lemma FileStepUnique(v: Variant, t: MetricTable, name: string, file: File, toSeconds: real -> real)
    requires UniqueLevels(t)
    ensures UniqueLevels(FileStep(v, t, name, file, toSeconds))
  {
    if EndsWith(name, ".json") && file.Stored? && ParseName(v, name).Some? {
      var (platform, pct) := ParseName(v, name).value;
      InitMetricsUnique(t, v.metrics, pct);
      if file.content.JObj? {
        AssignUnique(InitMetrics(t, v.metrics, pct), v.assignments, file.content, platform, pct, toSeconds);
      }
    }
  }

  lemma {:induction false} InitMetricsUnique(t: MetricTable, metrics: seq<string>, pct: string)
    requires UniqueLevels(t)
    ensures UniqueLevels(InitMetrics(t, metrics, pct))
    decreases |metrics|
  {
    if metrics != [] {
      InitMetricsUnique(t, metrics[..|metrics| - 1], pct);
      EnsurePathUnique(InitMetrics(t, metrics[..|metrics| - 1], pct), metrics[|metrics| - 1], pct);
    }
  }

  lemma {:induction false} AssignUnique(t: MetricTable, assignments: seq<(string, Source)>, data: Json, platform: string, pct: string,
                                        toSeconds: real -> real)
    requires UniqueLevels(t)
    ensures UniqueLevels(Assign(t, assignments, data, platform, pct, toSeconds))
    decreases |assignments|
  {
    if assignments != [] {
      match SourceValue(assignments[0].1, data, toSeconds)
      case None =>
      case Some(x) =>
        PutUnique(t, assignments[0].0, pct, platform, x);
        AssignUnique(Put(t, assignments[0].0, pct, platform, x), assignments[1..], data, platform, pct, toSeconds);
    }
  }
}
