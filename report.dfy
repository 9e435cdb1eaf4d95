/**
 * What the aggregation scripts do with `metric_data` once a try folder has
 * been read: the chart axes (platform folders and the dataset sizes found in
 * the first of them), the chart values, the pre-seeded table of the
 * neural-network script, and the rows of `metric.csv`.
 */
module TryReport {
  import opened Wrappers
  import opened Strings
  import opened UnicodeDigits
  import opened Dicts
  import opened JsonValues
  import opened ResultNames
  import opened Tables
  import opened Ordering
  import opened Samples
  import opened Aggregation
  import opened Series

  // ---------------------------------------------------------------------
  // The metric dictionaries
  // ---------------------------------------------------------------------

  /** The table is untouched or every metric dictionary exists: a file that matches creates them all at once. */
  predicate EmptyOrComplete(t: MetricTable, metrics: seq<string>) {
    t == [] || HasMetrics(t, metrics)
  }

  lemma FileStepComplete(v: Variant, t: MetricTable, name: string, file: File, toSeconds: real -> real)
    requires EmptyOrComplete(t, v.metrics)
    ensures EmptyOrComplete(FileStep(v, t, name, file, toSeconds), v.metrics)
  {
    if EndsWith(name, ".json") && file.Stored? && ParseName(v, name).Some? {
      var (platform, pct) := ParseName(v, name).value;
      var t1 := InitMetrics(t, v.metrics, pct);
      forall i | 0 <= i < |v.metrics|
        ensures Get(FileStep(v, t, name, file, toSeconds), v.metrics[i]).Some?
      {
        InitMetricsHas(t, v.metrics, pct, v.metrics[i]);
        if file.content.JObj? {
          AssignKeepsPaths(t1, v.assignments, file.content, platform, pct, toSeconds, v.metrics[i], pct);
        }
      }
    }
  }

  lemma {:induction false} FoldFilesComplete(v: Variant, t: MetricTable, files: seq<(string, File)>, toSeconds: real -> real)
    requires EmptyOrComplete(t, v.metrics)
    ensures EmptyOrComplete(FoldFiles(v, t, files, toSeconds), v.metrics)
    decreases |files|
  {
    if files != [] {
      FoldFilesComplete(v, t, files[..|files| - 1], toSeconds);
      FileStepComplete(v, FoldFiles(v, t, files[..|files| - 1], toSeconds), files[|files| - 1].0, files[|files| - 1].1, toSeconds);
    }
  }

  /**
   * Once a try folder has been read, either no file matched and the table is
   * as seeded, or every metric dictionary exists; so a table holding
   * "training_time" holds every metric.
   */
  lemma EntriesComplete(v: Variant, seed: MetricTable, entries: seq<Entry>, toSeconds: real -> real)
    requires EmptyOrComplete(seed, v.metrics)
    ensures EmptyOrComplete(FoldEntries(v, seed, entries, toSeconds), v.metrics)
  {
    FoldEntriesFlat(v, seed, entries, toSeconds);
    FoldFilesComplete(v, seed, AllFiles(entries), toSeconds);
  }

  // ---------------------------------------------------------------------
  // Chart axes
  // ---------------------------------------------------------------------

  /** `[f for f in os.listdir(root) if os.path.isdir(...)]`. */
  function PlatformFolders(entries: seq<Entry>): (r: seq<string>)
    ensures |r| <= |entries|
    ensures r == [] <==> forall i :: 0 <= i < |entries| ==> entries[i].Other?
    decreases |entries|
  {
    if entries == [] then []
    else PlatformFolders(entries[..|entries| - 1]) + (if entries[|entries| - 1].Folder? then [entries[|entries| - 1].name] else [])
  }

  /** The files of the first platform folder, `platform_folders[0]`; `None` where that raises `IndexError`. */
  function FirstFolderFiles(entries: seq<Entry>): (r: Option<seq<(string, File)>>)
    ensures r.None? <==> PlatformFolders(entries) == []
    decreases |entries|
  {
    if entries == [] then None
    else if entries[0].Folder? then
      assert PlatformFolders(entries) != [] by { assert !entries[0].Other?; }
      Some(entries[0].files)
    else
      assert entries[1..] == entries[..][1..];
      FirstFolderFilesRest(entries);
      FirstFolderFiles(entries[1..])
  }

  lemma FirstFolderFilesRest(entries: seq<Entry>)
    requires entries != [] && entries[0].Other?
    ensures PlatformFolders(entries) == [] <==> PlatformFolders(entries[1..]) == []
  {
    if PlatformFolders(entries[1..]) == [] {
      forall i | 0 <= i < |entries| ensures entries[i].Other? {
        if i > 0 { assert entries[1..][i - 1] == entries[i]; }
      }
    } else {
      var i :| 0 <= i < |entries[1..]| && !entries[1..][i].Other?;
      assert !entries[i + 1].Other?;
    }
  }

  /** A size suffix such as "_10%" or "100%": it ends in a digit and "%". */
  predicate SizeSuffix(suffix: string) {
    |suffix| >= 2 && IsDigit(suffix[|suffix| - 2]) && suffix[|suffix| - 1] == '%'
  }

  /** A decimal digit directly followed by "%" anywhere makes the size search succeed. */
  lemma {:induction false} SearchFinds(s: string, k: nat)
    requires k + 1 < |s| && IsDecimal(s[k]) && s[k + 1] == '%'
    ensures SearchPercent(s).Some?
    decreases k
  {
    var n := DigitRun(s);
    DigitRunMaximal(s);
    if k == 0 {
      DigitRunBound(s, 1);
    } else if !(0 < n < |s| && s[n] == '%') {
      SearchFinds(s[1..], k - 1);
    }
  }

  /** A file that passes the size filter: suffix ".json" and a stem ending in one of the suffixes. */
  predicate SizeFile(name: string, suffixes: seq<string>) {
    HasJsonSuffix(name) && exists i :: 0 <= i < |suffixes| && EndsWith(JsonStem(name), suffixes[i])
  }

  lemma SizeFileSearch(name: string, suffixes: seq<string>)
    requires forall i :: 0 <= i < |suffixes| ==> SizeSuffix(suffixes[i])
    requires SizeFile(name, suffixes)
    ensures SearchPercent(name).Some?
  {
    var i :| 0 <= i < |suffixes| && EndsWith(JsonStem(name), suffixes[i]);
    var stem := JsonStem(name);
    var sfx := suffixes[i];
    assert stem[|stem| - |sfx|..] == sfx;
    assert stem[|stem| - 2] == sfx[|sfx| - 2] && stem[|stem| - 1] == sfx[|sfx| - 1];
    assert name[..|stem|] == stem;
    SearchFinds(name, |stem| - 2);
  }

  /**
   * `[re.search(r'(\d+%)', f.name).group(1) for f in first folder if f.suffix == '.json' and f.stem.endswith(...)]`;
   * the search cannot fail on a file that passes the filter.
   */
  function DatasetSizes(files: seq<(string, File)>, suffixes: seq<string>): (r: seq<string>)
    requires forall i :: 0 <= i < |suffixes| ==> SizeSuffix(suffixes[i])
    ensures forall i :: 0 <= i < |r| ==> |r[i]| >= 2 && r[i][|r[i]| - 1] == '%' && AllDecimal(r[i][..|r[i]| - 1])
    decreases |files|
  {
    if files == [] then []
    else
      var earlier := DatasetSizes(files[..|files| - 1], suffixes);
      var name := files[|files| - 1].0;
      if SizeFile(name, suffixes) then
        SizeFileSearch(name, suffixes);
        earlier + [SearchPercent(name).value]
      else earlier
  }

  /** The sorted sizes always exist: every label found is `<digits>%`. */
  lemma DatasetSizesSort(files: seq<(string, File)>, suffixes: seq<string>)
    requires forall i :: 0 <= i < |suffixes| ==> SizeSuffix(suffixes[i])
    ensures SortSizes(DatasetSizes(files, suffixes)).Some?
  {
    SortSizesOrder(DatasetSizes(files, suffixes));
  }

  // ---------------------------------------------------------------------
  // The pre-seeded table
  // ---------------------------------------------------------------------

  /** `{size: {} for size in sizes}`. */
  function EmptySizes(sizes: seq<string>): Dict<string, Dict<string, Json>>
    decreases |sizes|
  {
    if sizes == [] then [] else Set(EmptySizes(sizes[..|sizes| - 1]), sizes[|sizes| - 1], [])
  }

  /** `{metric: {size: {} for size in sizes} for metric in metrics}`. */
  function Seed(metrics: seq<string>, sizes: seq<string>): MetricTable
    decreases |metrics|
  {
    if metrics == [] then [] else Set(Seed(metrics[..|metrics| - 1], sizes), metrics[|metrics| - 1], EmptySizes(sizes))
  }

  lemma {:induction false} EmptySizesGet(sizes: seq<string>, s: string)
    ensures Get(EmptySizes(sizes), s) == if s in sizes then Some([]) else None
    decreases |sizes|
  {
    if sizes != [] {
      var init := sizes[..|sizes| - 1];
      var last := sizes[|sizes| - 1];
      EmptySizesGet(init, s);
      GetSet(EmptySizes(init), last, [], s);
      assert s in sizes <==> s in init || s == last by { assert sizes == init + [last]; }
    }
  }

  lemma {:induction false} EmptySizesUnique(sizes: seq<string>)
    ensures Unique(EmptySizes(sizes)) && forall i :: 0 <= i < |EmptySizes(sizes)| ==> EmptySizes(sizes)[i].1 == []
    decreases |sizes|
  {
    if sizes != [] {
      var init := sizes[..|sizes| - 1];
      EmptySizesUnique(init);
      SetUnique(EmptySizes(init), sizes[|sizes| - 1], []);
      SetPreserves(EmptySizes(init), sizes[|sizes| - 1], [], (d: Dict<string, Json>) => d == []);
    }
  }

  lemma {:induction false} SeedGet(metrics: seq<string>, sizes: seq<string>, m: string)
    ensures Get(Seed(metrics, sizes), m) == if m in metrics then Some(EmptySizes(sizes)) else None
    decreases |metrics|
  {
    if metrics != [] {
      var init := metrics[..|metrics| - 1];
      var last := metrics[|metrics| - 1];
      SeedGet(init, sizes, m);
      GetSet(Seed(init, sizes), last, EmptySizes(sizes), m);
      assert m in metrics <==> m in init || m == last by { assert metrics == init + [last]; }
    }
  }

  /** The seeded table holds no value yet, and `metric_data[m][s]` exists for every metric and size. */
  lemma SeedFacts(metrics: seq<string>, sizes: seq<string>, m: string, s: string, c: string)
    ensures Cell(Seed(metrics, sizes), m, s, c).None?
    ensures HasPath(Seed(metrics, sizes), m, s) <==> m in metrics && s in sizes
    ensures Get(Seed(metrics, sizes), m).Some? <==> m in metrics
  {
    SeedGet(metrics, sizes, m);
    EmptySizesGet(sizes, s);
  }

  lemma {:induction false} SeedUnique(metrics: seq<string>, sizes: seq<string>)
    ensures UniqueLevels(Seed(metrics, sizes))
    decreases |metrics|
  {
    EmptySizesUnique(sizes);
    if metrics != [] {
      var init := metrics[..|metrics| - 1];
      SeedUnique(init, sizes);
      var before := Seed(init, sizes);
      assert forall i :: 0 <= i < |before| ==> UniqueNested(before[i].1);
      assert UniqueNested(EmptySizes(sizes));
      SetUnique(before, metrics[|metrics| - 1], EmptySizes(sizes));
      SetPreserves(before, metrics[|metrics| - 1], EmptySizes(sizes), UniqueNested);
    }
  }

  // ---------------------------------------------------------------------
  // Charts
  // ---------------------------------------------------------------------

  /**
   * `[data[metric][size].get(platform, 0) for size in sizes]`; `None` where
   * `data[metric][size]` raises `KeyError`.
   */
  function ChartValues(t: MetricTable, metric: string, sizes: seq<string>, platform: string): (r: Option<seq<Json>>)
    ensures r.Some? <==> forall i :: 0 <= i < |sizes| ==> HasPath(t, metric, sizes[i])
    ensures r.Some? ==> |r.value| == |sizes|
    ensures r.Some? ==> forall i :: 0 <= i < |sizes| ==> r.value[i] == Cell(t, metric, sizes[i], platform).GetOr(JNum(0.0))
  {
    if forall i :: 0 <= i < |sizes| ==> HasPath(t, metric, sizes[i]) then
      Some(seq(|sizes|, i requires 0 <= i < |sizes| => Cell(t, metric, sizes[i], platform).GetOr(JNum(0.0))))
    else None
  }

  /**
   * The grouped bar charts can be drawn: `0.8 / len(platforms)` needs a
   * platform, and every metric needs every size on the axis.
   */
  predicate ChartsDrawable(t: MetricTable, metrics: seq<string>, sizes: seq<string>, platforms: seq<string>) {
    (metrics != [] ==> platforms != [])
    && forall m, p :: 0 <= m < |metrics| && 0 <= p < |platforms| ==> ChartValues(t, metrics[m], sizes, platforms[p]).Some?
  }

  // ---------------------------------------------------------------------
  // metric.csv
  // ---------------------------------------------------------------------

  /** The other columns of a row, `data[column][size][platform]` each; `None` at the first `KeyError`. */
  function RowCells(t: MetricTable, columns: seq<string>, size: string, platform: string): (r: Option<seq<Json>>)
    ensures r.Some? <==> forall i :: 0 <= i < |columns| ==> Cell(t, columns[i], size, platform).Some?
    ensures r.Some? ==> |r.value| == |columns| && forall i :: 0 <= i < |columns| ==> r.value[i] == Cell(t, columns[i], size, platform).value
  {
    if forall i :: 0 <= i < |columns| ==> Cell(t, columns[i], size, platform).Some? then
      Some(seq(|columns|, i requires 0 <= i < |columns| => Cell(t, columns[i], size, platform).value))
    else None
  }

  function CsvRow(t: MetricTable, columns: seq<string>, size: string, entry: (string, Json)): seq<Json>
    requires RowCells(t, columns, size, entry.0).Some?
  {
    [JStr(entry.0), JStr(size), entry.1] + RowCells(t, columns, size, entry.0).value
  }

  /** A row over three looked-up columns, field by field. */
  lemma CsvRowOfThree(t: MetricTable, a: string, b: string, c: string, size: string, platform: string, training: Json)
    requires Cell(t, a, size, platform).Some? && Cell(t, b, size, platform).Some? && Cell(t, c, size, platform).Some?
    ensures RowCells(t, [a, b, c], size, platform).Some?
    ensures var row := CsvRow(t, [a, b, c], size, (platform, training));
            && |row| == 6 && row[0] == JStr(platform) && row[1] == JStr(size) && row[2] == training
            && row[3] == Cell(t, a, size, platform).value && row[4] == Cell(t, b, size, platform).value
            && row[5] == Cell(t, c, size, platform).value
  {
    var columns := [a, b, c];
    forall i | 0 <= i < |columns| ensures Cell(t, columns[i], size, platform).Some? {
      if i == 0 {} else if i == 1 {} else {}
    }
  }

  /** `for platform, training_time in training_times.items():`, stopping at the first row that raises. */
  function PlatformRows(t: MetricTable, columns: seq<string>, size: string, entries: Dict<string, Json>): (r: (seq<seq<Json>>, bool))
    decreases |entries|
  {
    if entries == [] then ([], true)
    else
      var before := PlatformRows(t, columns, size, entries[..|entries| - 1]);
      var last := entries[|entries| - 1];
      if !before.1 || RowCells(t, columns, size, last.0).None? then (before.0, false)
      else (before.0 + [CsvRow(t, columns, size, last)], true)
  }

  /** `for dataset_size in dataset_sizes_order: if dataset_size in training: ...`. */
  function SizeRows(t: MetricTable, columns: seq<string>, training: Dict<string, Dict<string, Json>>, sizes: seq<string>): (r: (seq<seq<Json>>, bool))
    decreases |sizes|
  {
    if sizes == [] then ([], true)
    else
      var before := SizeRows(t, columns, training, sizes[..|sizes| - 1]);
      var size := sizes[|sizes| - 1];
      if !before.1 then before
      else
        match Get(training, size)
        case None => before
        case Some(entries) =>
          var rows := PlatformRows(t, columns, size, entries);
          (before.0 + rows.0, rows.1)
  }

  /** `writer.writerow([...])` for the column titles. */
  function HeaderRow(header: seq<string>): (r: seq<Json>)
    ensures |r| == |header| && forall i :: 0 <= i < |header| ==> r[i] == JStr(header[i])
  {
    seq(|header|, i requires 0 <= i < |header| => JStr(header[i]))
  }

  /** The lines `create_csv` writes, and whether it finished; it raises at once when "training_time" is absent. */
  function CsvLines(t: MetricTable, header: seq<string>, columns: seq<string>): (r: (seq<seq<Json>>, bool))
  {
    var head := HeaderRow(header);
    match Get(t, "training_time")
    case None => ([head], false)
    case Some(training) =>
      var body := SizeRows(t, columns, training, SizeOrder);
      ([head] + body.0, body.1)
  }

  /** The row-writing loops of `create_csv`. */
  method CreateCsv(t: MetricTable, header: seq<string>, columns: seq<string>) returns (lines: seq<seq<Json>>, completed: bool)
    ensures (lines, completed) == CsvLines(t, header, columns)
  {
    var head := HeaderRow(header);
    var found := Get(t, "training_time");
    if found.None? {
      return [head], false;
    }
    var training := found.value;
    var body: seq<seq<Json>> := [];
    completed := true;
    var k := 0;
    while k < |SizeOrder| && completed
      invariant 0 <= k <= |SizeOrder|
      invariant (body, completed) == SizeRows(t, columns, training, SizeOrder[..k])
    {
      assert SizeOrder[..k + 1][..k] == SizeOrder[..k];
      var sized := Get(training, SizeOrder[k]);
      if sized.Some? {
        var rows, ok := WriteSizeRows(t, columns, SizeOrder[k], sized.value);
        body := body + rows;
        completed := ok;
      }
      k := k + 1;
    }
    if completed {
      assert SizeOrder[..k] == SizeOrder;
    } else {
      SizeRowsStops(t, columns, training, SizeOrder, k);
    }
    lines := [head] + body;
  }

  /** Once a row has raised, no later size writes anything. */
  lemma {:induction false} SizeRowsStops(t: MetricTable, columns: seq<string>, training: Dict<string, Dict<string, Json>>,
                                         sizes: seq<string>, k: nat)
    requires k <= |sizes| && !SizeRows(t, columns, training, sizes[..k]).1
    ensures SizeRows(t, columns, training, sizes) == SizeRows(t, columns, training, sizes[..k])
    decreases |sizes| - k
  {
    if k < |sizes| {
      assert sizes[..k + 1][..k] == sizes[..k];
      SizeRowsStops(t, columns, training, sizes, k + 1);
    } else {
      assert sizes[..k] == sizes;
    }
  }

  /** The inner loop over `training_times.items()`. */
  method WriteSizeRows(t: MetricTable, columns: seq<string>, size: string, entries: Dict<string, Json>)
    returns (rows: seq<seq<Json>>, ok: bool)
    ensures (rows, ok) == PlatformRows(t, columns, size, entries)
  {
    rows := [];
    ok := true;
    var j := 0;
    while j < |entries|
      invariant 0 <= j <= |entries|
      invariant (rows, ok) == PlatformRows(t, columns, size, entries[..j])
      invariant ok
    {
      assert entries[..j + 1][..j] == entries[..j];
      var cells := RowCells(t, columns, size, entries[j].0);
      if cells.None? {
        PlatformRowsStops(t, columns, size, entries, j + 1);
        return rows, false;
      }
      rows := rows + [[JStr(entries[j].0), JStr(size), entries[j].1] + cells.value];
      j := j + 1;
    }
    assert entries[..j] == entries;
  }

  lemma {:induction false} PlatformRowsStops(t: MetricTable, columns: seq<string>, size: string, entries: Dict<string, Json>, k: nat)
    requires k <= |entries| && !PlatformRows(t, columns, size, entries[..k]).1
    ensures PlatformRows(t, columns, size, entries) == PlatformRows(t, columns, size, entries[..k])
    decreases |entries| - k
  {
    if k < |entries| {
      assert entries[..k + 1][..k] == entries[..k];
      PlatformRowsStops(t, columns, size, entries, k + 1);
    } else {
      assert entries[..k] == entries;
    }
  }

  /** One row per platform of `training_time[size]`, in its key order, when no lookup raises. */
  lemma {:induction false} PlatformRowsComplete(t: MetricTable, columns: seq<string>, size: string, entries: Dict<string, Json>)
    requires forall i :: 0 <= i < |entries| ==> RowCells(t, columns, size, entries[i].0).Some?
    ensures PlatformRows(t, columns, size, entries).1
    ensures |PlatformRows(t, columns, size, entries).0| == |entries|
    ensures forall i :: 0 <= i < |entries| ==> PlatformRows(t, columns, size, entries).0[i] == CsvRow(t, columns, size, entries[i])
    decreases |entries|
  {
    if entries != [] {
      PlatformRowsComplete(t, columns, size, entries[..|entries| - 1]);
    }
  }

  /** Every platform listed under `size` in `training_time` has all the other columns. */
  predicate SizeComplete(t: MetricTable, columns: seq<string>, training: Dict<string, Dict<string, Json>>, size: string) {
    Get(training, size).Some? ==>
      var entries := Get(training, size).value;
      forall i :: 0 <= i < |entries| ==> RowCells(t, columns, size, entries[i].0).Some?
  }

  /** The rows of one size of the report, when no lookup raises: one per platform under that size. */
  function RowsOfSize(t: MetricTable, columns: seq<string>, training: Dict<string, Dict<string, Json>>, size: string): (r: seq<seq<Json>>)
    requires SizeComplete(t, columns, training, size)
    ensures Get(training, size).None? ==> r == []
    ensures Get(training, size).Some? ==> var entries := Get(training, size).value;
              |r| == |entries| && forall i :: 0 <= i < |entries| ==> r[i] == CsvRow(t, columns, size, entries[i])
  {
    match Get(training, size)
    case None => []
    case Some(entries) => seq(|entries|, i requires 0 <= i < |entries| => CsvRow(t, columns, size, entries[i]))
  }

  /** No row lookup raises for the sizes of `dataset_sizes_order`. */
  predicate RowsComplete(t: MetricTable, columns: seq<string>, training: Dict<string, Dict<string, Json>>) {
    SizeComplete(t, columns, training, "10%") && SizeComplete(t, columns, training, "50%")
    && SizeComplete(t, columns, training, "100%")
  }

  /** The rows of the sizes in turn. */
  function AllRows(t: MetricTable, columns: seq<string>, training: Dict<string, Dict<string, Json>>, sizes: seq<string>): seq<seq<Json>>
    requires forall k :: 0 <= k < |sizes| ==> SizeComplete(t, columns, training, sizes[k])
    decreases |sizes|
  {
    if sizes == [] then []
    else AllRows(t, columns, training, sizes[..|sizes| - 1]) + RowsOfSize(t, columns, training, sizes[|sizes| - 1])
  }

  /** When no lookup raises, the rows for the sizes are those of each size in turn. */
  lemma {:induction false} SizeRowsComplete(t: MetricTable, columns: seq<string>, training: Dict<string, Dict<string, Json>>, sizes: seq<string>)
    requires forall k :: 0 <= k < |sizes| ==> SizeComplete(t, columns, training, sizes[k])
    ensures SizeRows(t, columns, training, sizes) == (AllRows(t, columns, training, sizes), true)
    decreases |sizes|
  {
    if sizes != [] {
      var init, size := sizes[..|sizes| - 1], sizes[|sizes| - 1];
      assert forall k :: 0 <= k < |init| ==> init[k] == sizes[k];
      SizeRowsComplete(t, columns, training, init);
      assert SizeComplete(t, columns, training, size);
      if Get(training, size).Some? {
        var entries := Get(training, size).value;
        PlatformRowsComplete(t, columns, size, entries);
        assert PlatformRows(t, columns, size, entries).0 == RowsOfSize(t, columns, training, size);
      } else {
        assert AllRows(t, columns, training, sizes) == AllRows(t, columns, training, init) + [] == AllRows(t, columns, training, init);
      }
    }
  }

  lemma AllRowsOfSizeOrder(t: MetricTable, columns: seq<string>, training: Dict<string, Dict<string, Json>>)
    requires RowsComplete(t, columns, training)
    requires forall k :: 0 <= k < |SizeOrder| ==> SizeComplete(t, columns, training, SizeOrder[k])
    ensures AllRows(t, columns, training, SizeOrder)
         == RowsOfSize(t, columns, training, "10%") + RowsOfSize(t, columns, training, "50%") + RowsOfSize(t, columns, training, "100%")
  {
    var s1: seq<string>, s2: seq<string> := ["10%"], ["10%", "50%"];
    assert SizeOrder[..2] == s2 && SizeOrder[2] == "100%";
    assert s2[..1] == s1 && s2[1] == "50%";
    assert s1[..0] == [] && s1[0] == "10%";
    assert AllRows(t, columns, training, s1) == RowsOfSize(t, columns, training, "10%");
    assert AllRows(t, columns, training, s2) == AllRows(t, columns, training, s1) + RowsOfSize(t, columns, training, "50%");
  }

  lemma RowsCompleteSizes(t: MetricTable, columns: seq<string>, training: Dict<string, Dict<string, Json>>)
    requires RowsComplete(t, columns, training)
    ensures forall k :: 0 <= k < |SizeOrder| ==> SizeComplete(t, columns, training, SizeOrder[k])
  {
  }

  /**
   * `metric.csv` is the header, then the 10% rows, the 50% rows and the 100%
   * rows, sizes absent from `training_time` contributing nothing, whenever
   * every listed platform has the other columns.
   */
  lemma CsvComplete(t: MetricTable, header: seq<string>, columns: seq<string>)
    requires Get(t, "training_time").Some? && RowsComplete(t, columns, Get(t, "training_time").value)
    ensures var training := Get(t, "training_time").value;
            && CsvLines(t, header, columns).1
            && CsvLines(t, header, columns).0
               == [HeaderRow(header)]
                  + RowsOfSize(t, columns, training, "10%") + RowsOfSize(t, columns, training, "50%")
                  + RowsOfSize(t, columns, training, "100%")
  {
    var training := Get(t, "training_time").value;
    var body := SizeRows(t, columns, training, SizeOrder);
    assert CsvLines(t, header, columns) == ([HeaderRow(header)] + body.0, body.1);
    RowsCompleteSizes(t, columns, training);
    SizeRowsComplete(t, columns, training, SizeOrder);
    AllRowsOfSizeOrder(t, columns, training);
    ConcatAfter([HeaderRow(header)], RowsOfSize(t, columns, training, "10%"), RowsOfSize(t, columns, training, "50%"),
                RowsOfSize(t, columns, training, "100%"));
  }

  /** `h + (a + b + c)` is `h + a + b + c`. */
  lemma ConcatAfter<T>(h: seq<T>, a: seq<T>, b: seq<T>, c: seq<T>)
    ensures h + (a + b + c) == h + a + b + c
  {
  }

  /** Without "training_time" only the header is written; with it, a row that raises ends the file early. */
  lemma CsvIncomplete(t: MetricTable, header: seq<string>, columns: seq<string>)
    ensures CsvLines(t, header, columns).1 <==> Get(t, "training_time").Some? && RowsComplete(t, columns, Get(t, "training_time").value)
    ensures Get(t, "training_time").None? ==> |CsvLines(t, header, columns).0| == 1
  {
    if Get(t, "training_time").Some? {
      var training: Dict<string, Dict<string, Json>> := Get(t, "training_time").value;
      if RowsComplete(t, columns, training) {
        CsvComplete(t, header, columns);
      } else {
        var k: int :| 0 <= k < |SizeOrder| && Get(training, SizeOrder[k]).Some?
          && var entries: Dict<string, Json> := Get(training, SizeOrder[k]).value;
             exists i: int :: 0 <= i < |entries| && RowCells(t, columns, SizeOrder[k], entries[i].0).None?;
        var entries: Dict<string, Json> := Get(training, SizeOrder[k]).value;
        var i: int :| 0 <= i < |entries| && RowCells(t, columns, SizeOrder[k], entries[i].0).None?;
        PlatformRowsFail(t, columns, SizeOrder[k], entries, i);
        SizeRowsFail(t, columns, training, SizeOrder, k);
      }
    }
  }

  lemma {:induction false} PlatformRowsFail(t: MetricTable, columns: seq<string>, size: string, entries: Dict<string, Json>, i: nat)
    requires i < |entries| && RowCells(t, columns, size, entries[i].0).None?
    ensures !PlatformRows(t, columns, size, entries).1
    decreases |entries|
  {
    if i < |entries| - 1 {
      assert entries[..|entries| - 1][i] == entries[i];
      PlatformRowsFail(t, columns, size, entries[..|entries| - 1], i);
    }
  }

  lemma {:induction false} SizeRowsFail(t: MetricTable, columns: seq<string>, training: Dict<string, Dict<string, Json>>, sizes: seq<string>, k: nat)
    requires k < |sizes| && Get(training, sizes[k]).Some? && !PlatformRows(t, columns, sizes[k], Get(training, sizes[k]).value).1
    ensures !SizeRows(t, columns, training, sizes).1
    decreases |sizes|
  {
    if k < |sizes| - 1 {
      assert sizes[..|sizes| - 1][k] == sizes[k];
      SizeRowsFail(t, columns, training, sizes[..|sizes| - 1], k);
    }
  }
}
