# thesis-ml harness bookkeeping, modelled in Dafny

thesis-ml benchmarks linear regression (house prices) and an MNIST classifier
on several platforms: Python on the GPU, TensorFlow.js with different
engines, and Rust compiled to WebAssembly. The training itself happens in
TensorFlow, TF.js and nabla_ml. The harness's own logic is the bookkeeping
around the runs, and that is what this project models and proves properties
of:

- **The result server** (`server.py`). A request handler keeps a ledger of
  result items in `result_list.json`. It allocates a new item with id
  max + 1, attaches each submitted experiment to the first item with a
  matching id, and overwrites `end` on the first matching item. It routes
  GET and POST paths, chooses cache headers by path suffix, and retries
  ports when it starts. The files are the map `Handler.disk` from path to
  stored JSON (or to an unparseable file). The request handlers are methods
  that change that map, each proved against a function that states the
  reply and the new disk. An uncaught exception is the `Crashed` reply.
  A request body reaches a handler as `Server.Body`: what `json.loads`
  makes of it, a document, a `JSONDecodeError` (caught, 400) or a
  `UnicodeDecodeError` on bytes that are not text (not caught, a crash).
- **The drivers' records** (the Python `process` functions and the
  JavaScript callers). Each builds an experiment record with the four nested
  paths `location` / `try_path` / `experiment_path` / `result_path`. The
  base name of `result_path` round-trips through the aggregators' file-name
  parser back to the platform and the percentage.
- **The aggregators** (the plot modules, current and early copies). They:
  - parse `<platform>_sample_<digits>%.json` as Python's `re.match` does;
  - accumulate the metric → percentage → platform tables, where the last
    file wins;
  - validate and flatten the regression lists;
  - order platforms by the preference list and sizes numerically;
  - collect the per-try series in try order;
  - transpose them into the platform → percentage → metric report;
  - write the CSV in the order 10%, 50%, 100%.
- **The browser CSV reader** (`fetchDataset`): trim, split, clean the
  headers, and build one record per line with `forEach`.
- **The MNIST splits**: the Python and JavaScript prefix truncation, and the
  Rust prefix/suffix split `get_mnist_data`.

Python dictionaries are insertion-ordered association lists (module
`Dicts`), so key order and row order are as the source produces them. The
nested tables of the aggregators are `Tables.Table`. JSON numbers are
`real`, and Python's `==` between JSON values is `JsonValues.PyEq`.

Where the source calls `int()` on a string, the model calls
`Strings.ParseInt`, which accepts what Python 3.12 accepts: the text with
surrounding white space removed (the ASCII white space and the Unicode
spaces Python maps to a space, `UnicodeDigits.IsIntSpace`), an optional
`+` or `-`, and decimal digits of any script (Unicode category Nd) with
single underscores between them. "Parses" in the table below means this.
The regular-expression class `\d` is the same set of digits
(`UnicodeDigits.IsDecimal`); `[a-zA-Z0-9_]` is ASCII only.

Foreign code is passed in as functions:
- the training runs;
- `parseFloat`;
- the confidence-interval arithmetic;
- the `round(x / 1000, 4)` conversion;
- gzip and bincode decoding;
- the socket bind;
- the plot scripts and the clock, as the handler sees them.

## Model

| member | source | states |
|---|---|---|
| Server.QueryInt | server.py:125-126 | `int(query_params.get(key, [None])[0])` succeeds exactly when the key is present and `int()` accepts its first value, and then gives the integer `Strings.ParseInt` reads; a missing key is `int(None)`, which raises |
| Server.NewResultItemEffect | server.py:148-163 | completes exactly when the ledger is a list whose ids are all numbers and `int()` accepts `tries`; the saved ledger is the old items followed by exactly one new item `{id, tries, isRunAll, start, experiments: []}` whose id exceeds every existing id; otherwise it crashes and writes nothing; no file but the ledger changes |
| Ledger.NewItemId | server.py:155-160 | the new item has a numeric id, and it is the id `new_id` computed |
| Ledger.SaveAppended | server.py:161-162 | the ledger saved after `append` loads back as the old items followed by the new one |
| Server.Handler.NewResultItem | server.py:34-36 | the method's reply and new disk are those of `NewResultItemEffect` on the old disk |
| Ledger.LoadLedger | server.py:109-116 | a missing or unparseable `result_list.json` loads as `[]`; otherwise the stored document |
| Server.Handler.GetResultList | server.py:109-116 | returns `LoadLedger` of the current disk |
| Server.Handler.SaveJsonFile | server.py:59-70 | the file at `location` now holds `data` and no other file changes |
| Ledger.MaxId | server.py:150-152 | the id of the last item after sorting by id is at least every item's id and is the id of some item |
| Ledger.NewId | server.py:149-155 | 1 on an empty list, otherwise the largest id + 1; `None` exactly when some item is not an object with a numeric id (sorting or adding fails) |
| Ledger.NewItem | server.py:160 | the new item is an object with exactly the keys id, tries, isRunAll, start, experiments, and an empty `experiments` list |
| Ledger.Iterated | server.py:171 | `for item in value` over a list visits its items; any other value it can iterate (an object's keys, a string's characters) yields only strings |
| Ledger.UpdateFirstSucceeds | server.py:171-177 | the loop completes exactly when the list is empty or the key is present, every item up to the first match is an object, and that match's update does not raise |
| Ledger.UpdateFirstShape | server.py:171-177 | a completed loop keeps the length, replaces the first match by its update, and keeps every other item |
| Ledger.FirstMatchUnique | server.py:172-177 | the loop's `break`: no item other than the first match is a first match, and no later item is reached |
| Ledger.UpdateAtFirstMatch | server.py:172-177 | when every item before the first match is an object and its update succeeds, the result is the list with that one item replaced in place |
| Ledger.NoMatchUnchanged | server.py:170-179 | with no matching item, a completed loop gives back the ledger exactly as loaded |
| Ledger.AttachExperimentFields | server.py:173-176 | after the attach, `experiments` is the prior list with the experiment appended at the end (no deduplication), or `[experiment]`; every other field is unchanged |
| Ledger.SetEndFields | server.py:205 | `item['end'] = data['end']` changes `end` and no other field |
| Server.UpdateFirstMatch | server.py:171-177 | the loop over the loaded items, with `break` at the first match, computes `UpdateFirst` |
| Server.Artifact | server.py:167-168 | the experiment, its string `result_path` and the results are read exactly when all three are present; `None` where one of the reads raises |
| Server.AppendEffect | server.py:166-179 | fails without writing when the artifact cannot be read; otherwise the results file is written before the ledger is loaded, and only it and the ledger can change; the artifact stays written even when the ledger update raises |
| Server.AppendToFirstMatch | server.py:170-179 | the first item whose id equals `result_item_id` gains the experiment at the end of `experiments` and keeps every other field; every other item and the list length are unchanged; the save is a list |
| Server.AppendWithoutMatch | server.py:168-179 | with no matching item the ledger is saved as loaded, and the artifact is still written |
| Server.SubmissionArtifact | server.py:167-168 | a driver's submitted body yields its record, its `result_path` and its results, keyed by its `result_item_id` |
| Server.SubmissionLands | server.py:166-179 | a driver's submission lands: the results are at the record's `result_path` and the record is appended to the matching ledger item |
| Server.Handler.AppendExperimentToResultList | server.py:166-179 | the method's outcome and new disk are those of `AppendEffect` on the old disk |
| Server.AppendExperimentEffect | server.py:182-194 | a body that is not JSON gets 400 "Invalid JSON" and writes nothing; one that is not text crashes and writes nothing; otherwise the disk is the append's, and the reply is `{}` exactly when the append completes, a crash otherwise |
| Server.Handler.AppendExperiment | server.py:182-194 | the method's reply and new disk are those of `AppendExperimentEffect` |
| Server.UpdateEffect | server.py:197-214 | a body that is not JSON gets 400 "Invalid JSON" and writes nothing; one that is not text crashes and writes nothing; a raising loop writes nothing; otherwise the reply is `{}` and the ledger is saved as a stored file; only the ledger can change |
| Server.UpdateSetsEnd | server.py:201-214 | the first matching item's `end` becomes the body's `end`, no other field of it changes, and every other item and the length are unchanged |
| Server.UpdateWithoutMatch | server.py:202-214 | with no matching item a completed update saves the ledger as loaded |
| Server.Handler.UpdateResultItem | server.py:197-214 | the method's reply and new disk are those of `UpdateEffect` |
| Server.SaveJsonObjectEffect | server.py:73-88 | a body that is not JSON gets 400 `{"error": "Invalid JSON"}`; one that is not text crashes and writes nothing; the reply is `{}` exactly when `location` is a string and `jsonObject` is present, and then exactly that file changes; otherwise a crash with nothing written |
| Server.Handler.SaveJsonObject | server.py:73-88 | the method's reply and new disk are those of `SaveJsonObjectEffect` |
| Server.RunPythonData | server.py:119-133 | the body for the append exists only when `int()` accepts `dataset` and `result_item_id`; it is the linear-regression `process` result exactly for type "Linear Regression Python GPU" and the neural-network one otherwise; it always has an artifact keyed by the query's `result_item_id` |
| Server.LinearRegressionRun | server.py:128-129 | a completed linear-regression `process` body has an artifact keyed by its `result_item_id` |
| Server.NeuralNetworkRun | server.py:130-131 | a completed neural-network `process` body has an artifact keyed by its `result_item_id` |
| Server.RunPythonEffect | server.py:119-135 | a query that makes `process` raise crashes with nothing written; otherwise the disk is the append's and the reply is `{}` exactly when the append completes |
| Server.Handler.RunPython | server.py:119-135 | the method's reply and new disk are those of `RunPythonEffect` |
| Server.PlotReply | server.py:91-106 | the reply is `{}` exactly when `int()` accepts `id` and `tries` and the plot completes; a crash otherwise |
| Server.Handler.DoGet | server.py:32-44 | each GET route runs its handler (`NewResultItemEffect`, `RunPythonEffect`, the two plot replies) and any other path is served as a static file with the disk unchanged |
| Server.Handler.DoPost | server.py:47-57 | each POST route runs its handler; any other path gets 404 `{"error": "Not Found"}` with the disk unchanged |
| Server.StartServer | server.py:237-252 | at most `max_retries` binds, on `port`, `port + 1`, … in order; a success is the first port that binds; `None` after `max_retries` failed binds |
| Routes.Before | server.py:33 | the prefix before the first stop character: it holds no stop character and is a prefix of the input, and it is the whole input when there is no stop |
| Routes.SplitScheme | server.py:33 | without a scheme the rest is the whole URL; with one, the scheme is the text before a ':' and the rest is what follows that ':' |
| Routes.DropNetloc | server.py:33 | a URL that does not start with `//` has no network location to drop and is kept whole |
| Routes.SplitParams | server.py:33 | a path without ';' has no parameters and is kept whole |
| Routes.UrlPathPlain | server.py:33 | a request path without scheme or network location keeps what is left after the cuts at '#', '?' and ';' |
| Routes.NoSchemeNoNetloc | server.py:33 | a path starting with a single '/' has no scheme and no network location |
| Routes.UrlPathOfQuery | server.py:33 | the path of `p?query` is `p`, whatever the query holds |
| Routes.UrlPathOfPlain | server.py:33 | a request path without query, fragment or parameters is its own path |
| Routes.RouteGet | server.py:32-44 | the route is static serving exactly when the parsed path component is none of the four API paths |
| Routes.RoutePost | server.py:47-57 | the route is the 404 route exactly when the raw request path is none of the three API paths |
| Routes.GetIgnoresQuery | server.py:33-43 | the GET route of `p?query` is the route of `p` |
| Routes.PostRejectsQuery | server.py:48-55 | a POST whose raw path carries a query string never reaches a handler |
| Routes.NeverBoth | server.py:222-230 | no cached suffix ends with `result_list.json` and vice versa, so no path gets both header sets |
| Routes.CacheHeaders | server.py:217-234 | the 30-day headers exactly for the listed dataset suffixes, the no-store headers exactly for `result_list.json`, nothing otherwise, and never both |
| ResultNames.WordRunMaximal | linear_regression/plot/linear_regression_plot.py:115 | the greedy `[a-zA-Z0-9_]+` run is all word characters and stops at the first other character |
| ResultNames.DigitRunMaximal | linear_regression/plot/linear_regression_plot.py:115 | the greedy `\d+` run is all Unicode decimal digits and stops at the first character that is not one |
| ResultNames.SampleTail | linear_regression/plot/linear_regression_plot.py:115 | a match of `_sample_(\d+)%.json` at the start yields non-empty digits, and the text starts with `_sample_`, those digits and `%` |
| ResultNames.MatchBelowSpec | linear_regression/plot/linear_regression_plot.py:115 | the backtracking of group 1 fails exactly when no split point admits the tail; otherwise group 2 is the tail's digits plus `%` and no longer platform admits a tail |
| ResultNames.ParseResultNameSound | linear_regression/plot/linear_regression_plot.py:115-117 | a parsed name starts with a non-empty word-character platform, `_sample_`, digits and `%`, and the percentage is those digits plus `%` |
| ResultNames.ParseBuiltName | linear_regression/plot/linear_regression_plot.py:115-117 | `<p>_sample_<d>%.json` parses back to `(p, d + "%")` for a word-character `p` and digits `d` |
| ResultNames.LaterSplitsNone | linear_regression/plot/linear_regression_plot.py:115 | in `<p>_sample_<d>%.json` no split point after the end of `p` leaves a tail that matches `_sample_(\d+)%.json` |
| ResultNames.BuiltNameRoundTrip | linear_regression/plot/linear_regression_plot.py:98 | a driver-built name parses to its platform and percentage, `re.search(r'(\d+%)')` finds the same percentage, and the name holds no '/' |
| ResultNames.SearchPercent | linear_regression/plot/linear_regression_plot.py:98 | a found group is one or more Unicode decimal digits followed by `%` |
| ResultNames.SearchSkips | linear_regression/plot/linear_regression_plot.py:98 | text without '%' that ends in a character other than a decimal digit does not change what the search finds after it |
| ResultNames.SearchBuiltName | linear_regression/plot/linear_regression_plot.py:98 | the search finds `d + "%"` in a driver-built name |
| ResultNames.StripNnPrefixOf | neural_network/plot/neural_network_plot.py:118 | `.replace("nn_mnist_", "")` removes just the leading prefix from a name that has no other `i` |
| ResultNames.StripNnPrefixAbsent | neural_network/plot/neural_network_plot.py:118 | the replace leaves a name without `i` unchanged |
| ResultNames.JsonStem | neural_network/plot/neural_network_plot.py:101 | the stem of a `.json` file plus `.json` is the file name |
| Aggregation.ParseName | neural_network/plot/neural_network_plot.py:118 | the linear-regression aggregators match the base name as it is; the neural-network ones match it after removing `nn_mnist_` |
| Aggregation.PlainBuiltName | linear_regression/plot/linear_regression_plot.py:109-117 | a driver-built name passes the `.json` filter and parses to its platform and percentage |
| Aggregation.SourceValue | linear_regression/plot/linear_regression_plot.py:131-134 | a raw metric is `data.get(key)` (null when missing); a converted time succeeds exactly when the stored value is a number, and is then its conversion to seconds |
| Aggregation.ReadFile | linear_regression/plot/linear_regression_plot.py:109-165 | the method's new table is `FileStep` of the old one |
| Aggregation.CreateMetrics | linear_regression/plot/linear_regression_plot.py:120-124 | the loop over the metrics computes `InitMetrics`: for each metric in order, `EnsurePath` creates the metric's dictionary and then the percentage's dictionary inside it where missing |
| Aggregation.ReadFolder | linear_regression/plot/linear_regression_plot.py:108-165 | the inner loop's table is `FoldFiles` over the folder's listing |
| Aggregation.ProcessFolders | linear_regression/plot/linear_regression_plot.py:105-165 | the outer loop's table is `FoldEntries` over the root listing, skipping non-directories |
| Aggregation.InitMetricsCell | linear_regression/plot/linear_regression_plot.py:120-124 | creating the metric dictionaries changes no cell |
| Aggregation.InitMetricsHas | linear_regression/plot/linear_regression_plot.py:120-124 | afterwards `metric_data[m][percentage]` exists for every listed metric |
| Aggregation.InitMetricsKeeps | linear_regression/plot/linear_regression_plot.py:120-124 | every dictionary that existed still exists |
| Aggregation.InitMetricsKeys | linear_regression/plot/linear_regression_plot.py:120-124 | the top-level keys afterwards are the old ones and the listed metrics |
| Aggregation.AssignStores | linear_regression/plot/linear_regression_plot.py:131-134 | when the assignments up to `i` succeed and no later one writes the same metric, cell `[metric_i][pct][platform]` holds the `i`th value |
| Aggregation.AssignFrame | linear_regression/plot/linear_regression_plot.py:131-134 | the assignments write no cell of another percentage or platform |
| Aggregation.AssignOthers | linear_regression/plot/linear_regression_plot.py:131-134 | an unlisted metric's cell of this file is unchanged |
| Aggregation.AssignKeepsPaths | linear_regression/plot/linear_regression_plot.py:131-134 | no dictionary is removed by the assignments |
| Aggregation.FileSkipped | linear_regression/plot/linear_regression_plot.py:109-117 | a name not ending in `.json`, an unparseable file or a name the regex rejects leaves the table as it was (the exception is caught) |
| Aggregation.FileFrame | linear_regression/plot/linear_regression_plot.py:115-134 | a file changes only cells of the platform and percentage its name gives |
| Aggregation.FileStores | linear_regression/plot/linear_regression_plot.py:115-134 | a parsed object file stores its value in each assigned metric's cell |
| Aggregation.FileStops | linear_regression/plot/linear_regression_plot.py:119-131 | when the first assignment raises, the file only creates the metric dictionaries for its percentage |
| Aggregation.FileInitializes | linear_regression/plot/linear_regression_plot.py:119-124 | a parsed file always creates `metric_data[m][percentage]` for each metric |
| Aggregation.FoldFilesAppend | linear_regression/plot/linear_regression_plot.py:108 | reading two listings one after the other is reading their concatenation |
| Aggregation.FoldEntriesFlat | linear_regression/plot/linear_regression_plot.py:105-108 | the two loops read the same as one loop over all files of all directories, in listing order |
| Aggregation.SkippedFileDropped | linear_regression/plot/linear_regression_plot.py:109-117 | a skipped file can be removed from the listing without changing the table |
| Aggregation.LastFileWins | linear_regression/plot/linear_regression_plot.py:131-134 | the cell of a platform and percentage holds the value of the last file whose name gives them |
| Aggregation.FoldFilesUnique | linear_regression/plot/linear_regression_plot.py:105-134 | the dictionaries keep at most one entry per key at every level |
| Tables.CellPut | linear_regression/plot/linear_regression_plot.py:131 | `t[a][b][c] = v` makes that cell `v` and no other cell changes |
| Tables.PutHasPath | linear_regression/plot/linear_regression_plot.py:131 | after the write `t[a][b]` exists and every existing `t[a'][b']` still does |
| Tables.EnsurePathHas | linear_regression/plot/linear_regression_plot.py:121-124 | after the two `if ... not in` steps `t[a][b]` exists |
| Tables.EnsurePathCell | linear_regression/plot/linear_regression_plot.py:121-124 | the two steps change no cell |
| Tables.EnsurePathKeeps | linear_regression/plot/linear_regression_plot.py:121-124 | every existing `t[a'][b']` still exists |
| Tables.EnsurePathKeys | linear_regression/plot/linear_regression_plot.py:121-124 | the top-level keys afterwards are the old ones and `a` |
| Tables.GetStored | linear_regression/plot/linear_regression_plot.py:131 | a looked-up value is one of the stored values |
| Tables.PutUnique | linear_regression/plot/linear_regression_plot.py:131 | a write keeps at most one entry per key at every level |
| Tables.EnsurePathUnique | linear_regression/plot/linear_regression_plot.py:121-124 | the two steps keep at most one entry per key at every level |
| Plots.ChooseLayout | linear_regression/plot/linear_regression_plot.py:94-100 | `platform_folders[0]` raises exactly for a discovering script with no platform folder; fixed axes are used as given; discovered ones are the sorted platform folders and the sorted sizes found in the first folder, with the pre-seeded table where the script seeds one |
| Plots.ProcessJsonFiles | linear_regression/plot/linear_regression_plot.py:89-170 | the method's outcome is `ProcessOutcome` of the listing |
| Plots.NoPlatformFolders | linear_regression/plot/linear_regression_plot.py:94-97 | a discovering script stops before reading any file in a folder without platform folders |
| Plots.ReturnedShape | linear_regression/plot/linear_regression_plot.py:102-170 | a returned table is what the folders wrote over the starting table, the charts could be drawn, and `metric.csv` is the header followed by the rows of 10%, 50% and 100% |
| Plots.ReturnedCharts | linear_regression/plot/linear_regression_plot.py:45-52 | a returned table has `data[metric][size]` for every metric and every charted size, since the charts are drawn before the CSV |
| Plots.LayoutSeedComplete | neural_network/plot/neural_network_plot.py:105 | the starting table has every metric dictionary or is empty, and repeats no key |
| Plots.ReturnedTable | linear_regression/plot/linear_regression_plot.py:102-170 | a returned table repeats no key at any level and holds every metric dictionary or is empty |
| Plots.TryTables | linear_regression/plot/linear_regression_plot.py:261-262 | one table per try, the one `process_json_files` returns for that try folder, in try order |
| Plots.AccumulateStops | linear_regression/plot/linear_regression_plot.py:261-262 | an exception in an earlier try ends `plot` whatever the later tries hold |
| Plots.AccumulateCollect | linear_regression/plot/linear_regression_plot.py:261-281 | the tries' values are collected exactly when every try returns, and then from the tables they return |
| Plots.PlotSeries | linear_regression/plot/linear_regression_plot.py:254-283 | when `plot` completes, every try returned every metric; each list of `metric_results` is the try-ordered series of that cell, and none holds a value `np.mean` raises on; each report entry holds every metric, with the interval of its list or `{}` |
| Plots.PlotCells | linear_regression/plot/linear_regression_plot.py:254-283 | `PlotSeries` for every cell at once |
| Plots.PlotRaises | linear_regression/plot/linear_regression_plot.py:173-174 | a `None`, string or dictionary in a listed metric's cell of any try's table makes `plot` raise before the report is written |
| Plots.Plot | linear_regression/plot/linear_regression_plot.py:254-283 | the method's result is `PlotResult` of the tries: `None` where a try raises, `data[metric]` raises `KeyError`, or `np.mean` raises on a series |
| LinearRegressionPlot.ScriptFacts | linear_regression/plot/linear_regression_plot.py:72-100 | the linear-regression script's size suffixes end in a digit and `%`, and its four metrics are distinct |
| LinearRegressionPlot.BuiltName | linear_regression/plot/linear_regression_plot.py:109-117 | a driver-built name passes the `.json` filter and parses to its platform and percentage |
| LinearRegressionPlot.ReadResultFile | linear_regression/plot/linear_regression_plot.py:119-134 | a driver's file with both times as numbers fills the four cells of its platform and percentage, the times in seconds and mse and r2 as stored, and no other cell |
| LinearRegressionPlot.Converts | linear_regression/plot/linear_regression_plot.py:131-134 | both stored times being numbers makes all four assignments succeed, and each writes its own metric |
| LinearRegressionPlot.ReadUntimedFile | linear_regression/plot/linear_regression_plot.py:119-131 | a file without a numeric `training_time_ms` only creates the four metric dictionaries for its percentage |
| LinearRegressionPlot.RowLayout | linear_regression/plot/linear_regression_plot.py:72-87 | a row of `metric.csv` is platform, size, training time, inference time, mse and r2, six cells as the header names them |
| LinearRegressionPlot.ProcessJsonFiles | linear_regression/plot/linear_regression_plot.py:89-170 | as `Plots.ProcessJsonFiles` for this script; a returned table repeats no key and holds every metric dictionary or none |
| LinearRegressionPlot.Plot | linear_regression/plot/linear_regression_plot.py:254-283 | as `Plots.Plot` for this script; a completed `plot` had every try return; each list is the try-ordered series of its cell and holds no value `np.mean` raises on, and each report entry holds the four metrics |
| LinearRegressionPlot.MissingValueRaises | linear_regression/plot/linear_regression_plot.py:173-174 | a try table holding null for a metric makes `plot` raise |
| LinearRegressionPlot.UnscoredFileRaises | linear_regression/plot/linear_regression_plot.py:131-134 | a driver's result file without `mse` or `r2`, the last of its platform and size in a try, stores null there (`data.get`) and makes `plot` raise in `np.mean` |
| Series.PlatformTriples | linear_regression/plot/linear_regression_plot.py:271-273 | one visit per platform key under a metric and percentage, in key order |
| Series.PctTriples | linear_regression/plot/linear_regression_plot.py:267-269 | the visits under a metric stay under that metric and the listed percentages |
| Series.TriplesMetrics | linear_regression/plot/linear_regression_plot.py:263-273 | every visit is under a listed metric |
| Series.LookupAppend | linear_regression/plot/linear_regression_plot.py:263-273 | the last visit of a cell wins |
| Series.PlatformLookup | linear_regression/plot/linear_regression_plot.py:271-273 | the visit of a platform finds its stored value, and nothing else is visited |
| Series.PctLookup | linear_regression/plot/linear_regression_plot.py:267-273 | the visits under a metric find exactly the cells of the listed percentages |
| Series.TriplesLookup | linear_regression/plot/linear_regression_plot.py:263-273 | walking the listed metrics finds exactly their cells |
| Series.TriplesDistinct | linear_regression/plot/linear_regression_plot.py:263-273 | a table without repeated keys is visited at most once per cell |
| Series.FoldTriplesAppend | linear_regression/plot/linear_regression_plot.py:263-281 | walking two visit lists in turn is walking their concatenation |
| Series.WalkPlatforms | linear_regression/plot/linear_regression_plot.py:271-281 | the innermost loop computes the fold over the platform visits |
| Series.WalkPcts | linear_regression/plot/linear_regression_plot.py:267-281 | the middle loop computes the fold over the percentage visits |
| Series.WalkMetrics | linear_regression/plot/linear_regression_plot.py:263-281 | the metric loop completes exactly when every listed metric is present (`data[metric]` raises otherwise), and then computes the fold over all visits |
| Series.LookupVisited | linear_regression/plot/linear_regression_plot.py:203-207 | a cell found in the walk means its platform and percentage were visited |
| Series.TriplesVisited | linear_regression/plot/linear_regression_plot.py:263-273 | a platform and percentage are visited exactly when some listed metric has a cell there |
| Series.FoldAppendCell | linear_regression/plot/linear_regression_plot.py:275-281 | with each cell visited at most once, each list grows by exactly the value visited there |
| Series.SeriesOf | linear_regression/plot/linear_regression_plot.py:261-281 | a cell's series has at most one value per try |
| Series.SeriesOfHas | linear_regression/plot/linear_regression_plot.py:261-281 | a value a try stored in a cell is in that cell's series |
| Series.CollectLast | linear_regression/plot/linear_regression_plot.py:261-263 | collecting one more try succeeds exactly when the earlier ones did and the new table has every metric |
| Series.CollectSome | linear_regression/plot/linear_regression_plot.py:261-263 | the collection succeeds exactly when every try's table has every metric |
| Series.CollectCell | linear_regression/plot/linear_regression_plot.py:261-281 | each collected list is the try-ordered series of that cell, and cells no try filled are absent |
| Series.CiEntry | linear_regression/plot/linear_regression_plot.py:229-232 | the interval entry is `{"ci_lower": lower, "ci_upper": upper}` in that order |
| Series.EmptyMetrics | linear_regression/plot/linear_regression_plot.py:220-225 | a new report entry lists every metric of the script with `{}`, in the script's order |
| Series.CellStartEntry | linear_regression/plot/linear_regression_plot.py:216-225 | starting an entry writes empty objects only into a new entry, and adds exactly that entry |
| Series.CiWriteCell | linear_regression/plot/linear_regression_plot.py:213-247 | one step writes the interval into the visited metric's place and otherwise only starts the entry |
| Series.ReportPath | linear_regression/plot/linear_regression_plot.py:205-225 | the report has an entry for a platform and percentage exactly when the walk visited them |
| Series.ReportCell | linear_regression/plot/linear_regression_plot.py:199-247 | each report entry holds every metric, with the interval of the walk's value there or `{}` |
| Series.ReportShape | linear_regression/plot/linear_regression_plot.py:191-247 | the report has an entry exactly where some metric has values, and each entry holds every metric, with the interval of its values or `{}`; no series of a written report makes `np.mean` raise |
| Series.CiFold | linear_regression/plot/linear_regression_plot.py:199-213 | the walk raises exactly when some visited series makes `np.mean` raise, and otherwise writes every interval |
| Series.CiReportSome | linear_regression/plot/linear_regression_plot.py:191-252 | the report is written exactly when every metric is present and no visited series holds `None`, a string or a dictionary |
| Series.CiReportRaises | linear_regression/plot/linear_regression_plot.py:173-174 | one series of a listed metric that `np.mean` raises on makes the whole report raise |
| Series.CiReportNoTries | linear_regression/plot/linear_regression_plot.py:199-203 | with no tries `data[metric]` raises and no report is written |
| Series.SaveConfidenceInterval | linear_regression/plot/linear_regression_plot.py:191-252 | the method's report is `CiReport` of the results: `None` where `data[metric]` raises `KeyError` or `np.mean` raises `TypeError` |
| TryReport.FileStepComplete | linear_regression/plot/linear_regression_plot.py:119-124 | reading a file keeps the table empty or holding every metric dictionary |
| TryReport.FoldFilesComplete | linear_regression/plot/linear_regression_plot.py:108-134 | reading a folder keeps the table empty or holding every metric dictionary |
| TryReport.EntriesComplete | linear_regression/plot/linear_regression_plot.py:105-134 | reading the folders keeps the table empty or holding every metric dictionary |
| TryReport.PlatformFolders | linear_regression/plot/linear_regression_plot.py:94 | no platform folder exactly when every entry is something other than a directory |
| TryReport.FirstFolderFiles | linear_regression/plot/linear_regression_plot.py:97-98 | the first folder's files exist exactly when there is a platform folder |
| TryReport.SizeFileSearch | linear_regression/plot/linear_regression_plot.py:98 | a file selected by its stem suffix always has a percentage for `re.search` to find, so `.group(1)` never fails |
| TryReport.DatasetSizes | linear_regression/plot/linear_regression_plot.py:98 | every discovered size is Unicode decimal digits followed by `%` |
| TryReport.DatasetSizesSort | linear_regression/plot/linear_regression_plot.py:98-99 | the discovered sizes always sort, since every key parses |
| TryReport.SeedFacts | neural_network/plot/neural_network_plot.py:105 | the seeded table holds no value, creates `data[m][s]` exactly for the metrics and sizes, and has exactly the metrics at the top |
| TryReport.SeedUnique | neural_network/plot/neural_network_plot.py:105 | the seeded table repeats no key |
| TryReport.ChartValues | linear_regression/plot/linear_regression_plot.py:52 | the chart values exist exactly when `data[metric][size]` exists for every size, and are then one per size, the platform's value or 0 |
| TryReport.RowCells | linear_regression/plot/linear_regression_plot.py:83-85 | the other columns are found exactly when each `data[column][size][platform]` exists, and are those values |
| TryReport.CsvRowOfThree | linear_regression/plot/linear_regression_plot.py:83-86 | a row is platform, size, training time and the three looked-up cells |
| TryReport.HeaderRow | linear_regression/plot/linear_regression_plot.py:75 | the first row is the header, cell by cell |
| TryReport.CreateCsv | linear_regression/plot/linear_regression_plot.py:68-87 | the method's rows and completion are `CsvLines` of the table |
| TryReport.SizeRowsStops | linear_regression/plot/linear_regression_plot.py:79-87 | once a size fails, later sizes write nothing |
| TryReport.WriteSizeRows | linear_regression/plot/linear_regression_plot.py:82-87 | the row loop of a size computes `PlatformRows` |
| TryReport.PlatformRowsStops | linear_regression/plot/linear_regression_plot.py:82-87 | once a row's lookup raises, no later row is written |
| TryReport.PlatformRowsComplete | linear_regression/plot/linear_regression_plot.py:82-87 | with every lookup present, one row per platform in the order of `training_time[size]` |
| TryReport.RowsOfSize | linear_regression/plot/linear_regression_plot.py:80-87 | a size absent from `training_time` writes no row; otherwise one row per platform under it |
| TryReport.AllRowsOfSizeOrder | linear_regression/plot/linear_regression_plot.py:77-79 | the sizes are written in the order 10%, 50%, 100% |
| TryReport.CsvComplete | linear_regression/plot/linear_regression_plot.py:68-87 | with every lookup present, `metric.csv` is the header and the rows of 10%, 50% and 100% |
| TryReport.CsvIncomplete | linear_regression/plot/linear_regression_plot.py:73-87 | the CSV completes exactly when `training_time` exists and every lookup succeeds; without `training_time` only the header is written |
| TryReport.PlatformRowsFail | linear_regression/plot/linear_regression_plot.py:83-85 | a missing lookup stops the rows of that size |
| TryReport.SizeRowsFail | linear_regression/plot/linear_regression_plot.py:79-87 | a size whose rows stop stops the file |
| Ordering.InsertMultiset | linear_regression/plot/linear_regression_plot.py:99-100 | inserting adds exactly one element |
| Ordering.InsertSorted | linear_regression/plot/linear_regression_plot.py:99-100 | inserting keeps the order by key |
| Ordering.InsertWithKey | linear_regression/plot/linear_regression_plot.py:99-100 | inserting puts the new element after the existing ones with the same key |
| Ordering.SortByOrdered | linear_regression/plot/linear_regression_plot.py:99-100 | `sorted(..., key=...)` orders by key and is a permutation |
| Ordering.SortByStable | linear_regression/plot/linear_regression_plot.py:99-100 | elements with equal keys keep their order, as Python's stable sort does |
| Ordering.PlatformRank | linear_regression/plot/linear_regression_plot.py:100 | the rank is the index in the preference list, or its length for an unknown platform |
| Ordering.SortPlatformsOrder | linear_regression/plot/linear_regression_plot.py:100 | the platforms are a permutation of the folders, ordered by preference, unknown ones last in listing order |
| Ordering.SizeKey | linear_regression/plot/linear_regression_plot.py:99 | `int(x.replace('%',''))` succeeds exactly when `int()` accepts what is left after removing every `%` |
| Ordering.SortSizes | linear_regression/plot/linear_regression_plot.py:99 | the sort succeeds exactly when every key parses |
| Ordering.SizeKeyOfLabel | linear_regression/plot/linear_regression_plot.py:99 | the key of `d%`, for Unicode decimal digits `d`, is the number `d` spells |
| Ordering.SortSizesOrder | linear_regression/plot/linear_regression_plot.py:99 | sizes of the form `<decimal digits>%` sort into a permutation ordered by their numbers |
| Ordering.LabelsHaveKeys | linear_regression/plot/linear_regression_plot.py:99 | every size of the form `<decimal digits>%` has a sort key, so the sort does not raise |
| Ordering.KeysOfPermutation | linear_regression/plot/linear_regression_plot.py:99 | a permutation of sizes that all have keys has keys too, the same ones |
| ResultChecks.AllItems | linear_regression/plot/linear_regression_plot.py:143-145 | `all(...)` passes exactly on a list whose every item passes, raises exactly on a number or boolean, and fails on strings and objects |
| ResultChecks.AllOf | linear_regression/plot/linear_regression_plot.py:143-145 | a chain of `and` passes exactly when every part passes; otherwise the first part that does not pass decides |
| ResultChecks.Flatten | linear_regression/plot/linear_regression_plot.py:147-149 | `[item[0] for item in x]`: one number per one-number list, in order |
| ResultChecks.RegressionCheck | linear_regression/plot/linear_regression_plot.py:142-158 | evaluated on a file's data: the regression line is drawn exactly when the three fields are non-empty lists of one-number lists, from lists as long as the fields; the missing-data warning exactly when one field is falsy; which files reach this check is `LinearRegressionPlot.RegressionOutcome` |
| LinearRegressionPlot.RegressionOutcome | linear_regression/plot/linear_regression_plot.py:109-158 | the regression check is reached for a file exactly when it is a `.json` object whose name parses and whose two times convert, and the loss plot before it completed; then the outcome is `RegressionCheck` of its data |
| LinearRegressionPlot.RegressionReached | linear_regression/plot/linear_regression_plot.py:109-158 | for a driver-built name and an object, the check is reached exactly when both times are numbers and the loss plot completed |
| LinearRegressionPlot.TimesConvert | linear_regression/plot/linear_regression_plot.py:131-134 | the four assignments complete exactly when `training_time_ms` and `inference_time_ms` are numbers |
| ResultChecks.Histories | neural_network/plot/neural_network_plot.py:128-131 | the four histories are `data.get` of their keys, in order |
| ResultChecks.HistoryCheck | neural_network/plot/neural_network_plot.py:140-157 | evaluated on a file's data: the loss and accuracy curves are drawn exactly when the four histories are non-empty number lists, from those lists; the missing warning exactly when one is falsy; which files reach this check is `NeuralNetworkPlot.HistoryOutcome` |
| NeuralNetworkPlot.HistoryOutcome | neural_network/plot/neural_network_plot.py:114-157 | the history check is reached for a file exactly when it is a `.json` object whose name parses after the prefix removal and whose two times convert; then the outcome is `HistoryCheck` of its data |
| NeuralNetworkPlot.HistoryReached | neural_network/plot/neural_network_plot.py:114-157 | for a driver-built name, with or without `nn_mnist_`, and an object, the check is reached exactly when both times are numbers |
| NeuralNetworkPlot.TimesConvert | neural_network/plot/neural_network_plot.py:132-135 | the four assignments complete exactly when `training_time_ms` and `inference_time_ms` are numbers |
| NeuralNetworkPlot.ScriptFacts | neural_network/plot/neural_network_plot.py:94-105 | the neural-network script's size suffixes end in a digit and `%`, and its four metrics are distinct |
| NeuralNetworkPlot.StripPrefixed | neural_network/plot/neural_network_plot.py:118 | removing `nn_mnist_` from a name with or without that prefix leaves the rest |
| NeuralNetworkPlot.BuiltName | neural_network/plot/neural_network_plot.py:112-120 | a driver-built name, with or without `nn_mnist_`, passes the `.json` filter and parses to its platform and percentage |
| NeuralNetworkPlot.ReadResultFile | neural_network/plot/neural_network_plot.py:122-135 | a driver's file with both times as numbers fills the four cells of its platform and percentage, the times in seconds and accuracy and loss as stored, and no other cell |
| NeuralNetworkPlot.Converts | neural_network/plot/neural_network_plot.py:132-135 | both stored times being numbers makes all four assignments succeed, and each writes its own metric |
| NeuralNetworkPlot.ReadUntimedFile | neural_network/plot/neural_network_plot.py:122-132 | a file without a numeric `training_time_ms` only creates the four metric dictionaries for its percentage |
| NeuralNetworkPlot.RowLayout | neural_network/plot/neural_network_plot.py:74-89 | a row of `metric.csv` is platform, size, training time, inference time, accuracy and loss, six cells as the header names them |
| NeuralNetworkPlot.ProcessJsonFiles | neural_network/plot/neural_network_plot.py:92-168 | as `Plots.ProcessJsonFiles` for this script; a returned table repeats no key and holds every metric dictionary or none |
| NeuralNetworkPlot.Plot | neural_network/plot/neural_network_plot.py:253-283 | as `Plots.Plot` for this script; each list is the try-ordered series of its cell and holds no value `np.mean` raises on, and each report entry holds the four metrics |
| NeuralNetworkPlot.MissingValueRaises | neural_network/plot/neural_network_plot.py:171-172 | a try table holding null for a metric makes `plot` raise |
| NeuralNetworkPlot.UnscoredFileRaises | neural_network/plot/neural_network_plot.py:134-135 | a driver's result file without `accuracy` or `loss`, the last of its platform and size in a try, stores null there (`data.get`) and makes `plot` raise in `np.mean` |
| LinearRegressionPlotEarly.ScriptFacts | linear-regression/plot/main.py:68-91 | the early script has the same metrics, header and columns as the current one, and matches names without removing a prefix |
| LinearRegressionPlotEarly.Converts | linear-regression/plot/main.py:119-122 | the early assignments store the four fields as they are, so none can raise |
| LinearRegressionPlotEarly.ReadResultFile | linear-regression/plot/main.py:105-122 | a driver's file fills the four cells of its platform and percentage with the stored values, times in milliseconds, and no other cell |
| LinearRegressionPlotEarly.BuiltName | linear-regression/plot/main.py:99-107 | a driver-built name passes the `.json` filter and parses to its platform and percentage |
| LinearRegressionPlotEarly.ProcessJsonFiles | linear-regression/plot/main.py:86-157 | as `Plots.ProcessJsonFiles` with the fixed sizes and platforms; when it completes every metric has a dictionary for 10%, 50% and 100% |
| NeuralNetworkPlotEarly.ScriptFacts | neural-network/plot/main.py:94-96 | the early script has the same metrics, header and columns as the current one |
| NeuralNetworkPlotEarly.Converts | neural-network/plot/main.py:125-128 | the early assignments store the four fields as they are, so none can raise |
| NeuralNetworkPlotEarly.ReadResultFile | neural-network/plot/main.py:111-128 | a driver's file, with or without `nn_mnist_`, fills the four cells of its platform and percentage with the stored values and no other cell |
| NeuralNetworkPlotEarly.ProcessJsonFiles | neural-network/plot/main.py:93-160 | as `Plots.ProcessJsonFiles` with the fixed sizes and platforms; when it completes every metric has a dictionary for 10%, 50% and 100% |
| Samples.SelectorPercent | linear_regression/app/python/linear_regression.py:113-122 | the dataset selector is known exactly for 1, 2 and 3, and then names 10, 50 or 100 percent |
| Samples.SampleName | linear_regression/app/python/linear_regression.py:118-122 | the dataset name starts with `sample_` and ends with `%` |
| Samples.DatasetRest | linear_regression/app/tensorflow_js/tensorflow_js_app.js:174 | removing the first `house_price/` from the dataset path leaves `sample_<pct>%.csv` |
| Experiments.ToJson | linear_regression/app/python/linear_regression.py:140-153 | the stored experiment is an object with exactly the twelve keys of the drivers' records, in their order |
| Experiments.Submission | linear_regression/app/python/linear_regression.py:139-155 | the submitted body holds the experiment under `experiment` and the results under `results` |
| Experiments.ServerFields | server.py:167-168 | the server reads back the record's `result_path` as a string and its `result_item_id` |
| Experiments.LayoutNested | linear_regression/app/python/linear_regression.py:149-152 | a record laid out as location / try / platform / file is nested, and the file is the base name of `result_path` |
| LinearRegressionPython.DatasetName | linear_regression/app/python/linear_regression.py:118-123 | `dataset_name[dataset]` exists exactly for a known selector, and is `sample_<pct>%` |
| LinearRegressionPython.Process | linear_regression/app/python/linear_regression.py:105-155 | an unknown selector raises `KeyError`; `process` completes exactly when the selector is known, `int()` accepts `executionTries` and `sample` is a string (the title concatenation raises on `None`); then the body is the record and the training results |
| LinearRegressionPython.ResultFileName | linear_regression/app/python/linear_regression.py:152 | the result file `python_gpu_sample_<pct>%.json` parses back to `python_gpu` and `<pct>%`, its percentage is found, and it has no '/' |
| LinearRegressionPython.RecordLayout | linear_regression/app/python/linear_regression.py:135-152 | the four paths are nested, `location` is the result item's folder, and the result file is `python_gpu_<dataset name>.json` |
| LinearRegressionPython.RecordRoundTrip | linear_regression/app/python/linear_regression.py:149-152 | the base name of `result_path` parses back to the record's platform and the dataset's percentage |
| LinearRegressionPython.SampleOnlyLabels | linear_regression/app/python/linear_regression.py:143-144 | `sample` only labels the record: two records differing in it differ only in `sample` and `title` |
| LinearRegressionPython.RecordFields | linear_regression/app/python/linear_regression.py:141-148 | `try` is `int(executionTries)`, `result_item_id` the id, `platform` is `python_gpu`, the title names the sample, and both times are ISO strings |
| NeuralNetworkPython.TruncToInt | neural_network/app/python/neural_network.py:30 | Python's `int()` of a float truncates toward zero |
| NeuralNetworkPython.SlicePrefix | neural_network/app/python/neural_network.py:33-36 | NumPy's `a[:k]`: the first `k` rows, all rows when `k` exceeds the length, and a negative `k` counts from the end |
| NeuralNetworkPython.RowCount | neural_network/app/python/neural_network.py:30-31 | for a fraction in [0, 1] the sample count is the floor of the fraction of the rows, between 0 and the row count |
| NeuralNetworkPython.FractionOfCount | neural_network/app/python/neural_network.py:30-31 | truncation and the floor agree on a non-negative product |
| NeuralNetworkPython.LoadMnistPrefixes | neural_network/app/python/neural_network.py:29-36 | train images and labels are cut to one prefix length, test images and labels to a second, each the floor of the fraction of the image count |
| NeuralNetworkPython.DatasetFraction | neural_network/app/python/neural_network.py:117-121 | `dataset_perc[dataset]` exists exactly for a known selector |
| NeuralNetworkPython.FractionPercent | neural_network/app/python/neural_network.py:150 | `int(dataset_perc[dataset] * 100)` is the selector's percentage, and the fraction is in (0, 1] |
| NeuralNetworkPython.Process | neural_network/app/python/neural_network.py:116-153 | an unknown selector raises `KeyError`; `process` completes exactly when the selector is known and `int()` accepts `executionTries` (a missing `sample` is formatted as `None` and stored as null); then the body is the record and the training results |
| NeuralNetworkPython.ResultFileName | neural_network/app/python/neural_network.py:150 | `python_gpu_sample_<pct>%.json` parses back to `python_gpu` and `<pct>%`, has nothing for the `nn_mnist_` removal to touch, and has no '/' |
| NeuralNetworkPython.PlatformWord | neural_network/app/python/neural_network.py:145 | the platform `python_gpu` is a word with no `i` |
| NeuralNetworkPython.RecordLayout | neural_network/app/python/neural_network.py:135-150 | the four paths are nested, `location` is the result item's folder, and the result file is `python_gpu_sample_<pct>%.json` |
| NeuralNetworkPython.RecordRoundTrip | neural_network/app/python/neural_network.py:147-150 | the base name of `result_path` parses back, after the `nn_mnist_` removal, to the record's platform and percentage |
| NeuralNetworkPython.SampleOnlyLabels | neural_network/app/python/neural_network.py:141-142 | `sample` only labels the record: two records differing in it differ only in `sample` and `title` |
| NeuralNetworkPython.RecordFields | neural_network/app/python/neural_network.py:139-146 | `try` is `int(executionTries)`, `result_item_id` the id, `platform` is `python_gpu`, and both times are ISO strings |
| LinearRegressionTfjs.ResultsJson | linear_regression/app/tensorflow_js/tensorflow_js_app.js:65-74 | the results object has exactly the eight keys in the order the driver writes them |
| LinearRegressionTfjs.ResultsOutputs | linear_regression/app/tensorflow_js/tensorflow_js_app.js:65-68 | the results hold the features and the predictions as given |
| LinearRegressionTfjs.ResultsScores | linear_regression/app/tensorflow_js/tensorflow_js_app.js:72-73 | the results hold mse and r2 as given |
| LinearRegressionTfjs.SaveData | linear_regression/app/tensorflow_js/tensorflow_js_app.js:46-76 | the submission holds the record built from the engine, sample, times, try and file name, and the results object |
| LinearRegressionTfjs.FileNameOfSample | linear_regression/app/tensorflow_js/tensorflow_js_app.js:63 | removing `.csv` from the file name of `house_price/sample_<pct>%.csv` gives `tensorflow_js_<engine>/tensorflow_js_<engine>_sample_<pct>%` |
| LinearRegressionTfjs.BaseNameOfSample | linear_regression/app/tensorflow_js/tensorflow_js_app.js:63 | `tensorflow_js_<engine>_sample_<pct>%.json` parses back to the platform and percentage and has no '/' |
| LinearRegressionTfjs.RecordLayout | linear_regression/app/tensorflow_js/tensorflow_js_app.js:48-63 | the four paths are nested, the experiment folder is named after the platform, and the result file is `tensorflow_js_<engine>_sample_<pct>%.json` |
| LinearRegressionTfjs.RecordRoundTrip | linear_regression/app/tensorflow_js/tensorflow_js_app.js:58-63 | the base name of `result_path` parses back to the record's platform and percentage |
| LinearRegressionTfjsEarly.DownloadNameMatchesLater | linear-regression/app/tensorflow_js/tensorflow_js_app.js:48 | the early download name plus `.json` is the base name the later driver stores its result under |
| LinearRegressionRustWasm.TrainingInputs | linear_regression/app/rust_wasm/src/rust_wasm_app.js:47-52 | the flattened `area` and `price` columns, one entry per data line, each the value parsed from that line |
| LinearRegressionRustWasm.Run | linear_regression/app/rust_wasm/src/rust_wasm_app.js:41-78 | the submission holds the record and the training result of the inputs read from `/linear_regression/datasets/<path>` |
| LinearRegressionRustWasm.FileNameOfSample | linear_regression/app/rust_wasm/src/rust_wasm_app.js:59 | the file name of `house_price/sample_<pct>%.csv` is `rust_wasm_cpu_sample_<pct>%.json` |
| LinearRegressionRustWasm.FileNameRoundTrip | linear_regression/app/rust_wasm/src/rust_wasm_app.js:59 | that file name parses back to `rust_wasm_cpu` and `<pct>%`, its percentage is found, and it has no '/' |
| LinearRegressionRustWasm.RecordLayout | linear_regression/app/rust_wasm/src/rust_wasm_app.js:57-74 | the four paths are nested, `location` is the result item's folder, and the result file is the file name |
| LinearRegressionRustWasm.RecordRoundTrip | linear_regression/app/rust_wasm/src/rust_wasm_app.js:59-74 | the base name of `result_path` parses back to the record's platform and percentage |
| LinearRegressionRustWasmEarly.DownloadName | linear-regression/app/rust_wasm/src/rust_wasm_app.js:33 | the early download name plus `.json` is the later driver's file name |
| LinearRegressionRustWasmEarly.Run | linear-regression/app/rust_wasm/src/rust_wasm_app.js:24-34 | the download is the training result of the inputs read from `/linear-regression/datasets/<path>`, under the later driver's base name without `.json` |
| NeuralNetworkTfjs.SliceRows | neural_network/app/tensorflow_js/tensorflow_js_app.js:45-48 | `tensor.slice([0, 0], [count, w])`: the first `count` rows, all rows for `-1`, and an error for any other count out of range |
| NeuralNetworkTfjs.FloorCount | neural_network/app/tensorflow_js/tensorflow_js_app.js:41-42 | for a fraction in [0, 1], `Math.floor(rows * p)` is the Python driver's count, between 0 and the row count |
| NeuralNetworkTfjs.SliceAllWithin | neural_network/app/tensorflow_js/tensorflow_js_app.js:45-48 | counts within the equally long images and labels cut every tensor to a prefix |
| NeuralNetworkTfjs.LoadMnistPrefixes | neural_network/app/tensorflow_js/tensorflow_js_app.js:41-48 | for a fraction in [0, 1] the four tensors are cut to the floor prefixes, exactly as the Python driver cuts them |
| NeuralNetworkTfjs.EpochHistory.OnEpochEnd | neural_network/app/tensorflow_js/tensorflow_js_app.js:113-118 | each history list gains exactly that epoch's value at its end |
| NeuralNetworkTfjs.Losses | neural_network/app/tensorflow_js/tensorflow_js_app.js:115 | one loss per epoch, in epoch order |
| NeuralNetworkTfjs.Accuracies | neural_network/app/tensorflow_js/tensorflow_js_app.js:116 | one accuracy per epoch, in epoch order |
| NeuralNetworkTfjs.ValLosses | neural_network/app/tensorflow_js/tensorflow_js_app.js:117 | one validation loss per epoch, in epoch order |
| NeuralNetworkTfjs.ValAccuracies | neural_network/app/tensorflow_js/tensorflow_js_app.js:118 | one validation accuracy per epoch, in epoch order |
| NeuralNetworkTfjs.Fit | neural_network/app/tensorflow_js/tensorflow_js_app.js:102-121 | `model.fit` runs its 10 epochs; afterwards the four lists hold the epochs' values in order, ten each |
| NeuralNetworkTfjs.ResultsJson | neural_network/app/tensorflow_js/tensorflow_js_app.js:160-169 | the results object has exactly the eight keys in the order the driver writes them |
| NeuralNetworkTfjs.ResultsHistory | neural_network/app/tensorflow_js/tensorflow_js_app.js:161-162 | the results hold the loss and accuracy histories as collected |
| NeuralNetworkTfjs.ResultsEvaluation | neural_network/app/tensorflow_js/tensorflow_js_app.js:167-168 | the results hold the evaluated loss and accuracy |
| NeuralNetworkTfjs.TrainModel | neural_network/app/tensorflow_js/tensorflow_js_app.js:79-170 | the submission holds the record and the results object built from the epoch histories and the measurements |
| NeuralNetworkTfjs.BaseNameRest | neural_network/app/tensorflow_js/tensorflow_js_app.js:158 | the result file without its `nn_mnist_` prefix parses back to `tensorflow_js_<engine>` and `<pct>%` |
| NeuralNetworkTfjs.RecordDirs | neural_network/app/tensorflow_js/tensorflow_js_app.js:155-157 | the try folder is under `location` and the experiment folder, named after the platform, under the try folder |
| NeuralNetworkTfjs.RecordFile | neural_network/app/tensorflow_js/tensorflow_js_app.js:158 | the result file `nn_mnist_tensorflow_js_<engine>_sample_<pct>%.json` is in the experiment folder |
| NeuralNetworkTfjs.RecordLayout | neural_network/app/tensorflow_js/tensorflow_js_app.js:142-158 | the four paths are nested, `location` is the result item's folder, and the base name is the prefixed result file |
| NeuralNetworkTfjs.RecordRoundTrip | neural_network/app/tensorflow_js/tensorflow_js_app.js:153-158 | the base name of `result_path` parses back, after the `nn_mnist_` removal, to the record's platform and percentage |
| NeuralNetworkRustWasmJs.RunNab | neural_network/app/rust_wasm/src/rust-wasm-app.js:18-57 | a record is appended exactly when the trainer succeeds on the two fetched files; it holds the record and the trainer's result; an error is caught and nothing is appended |
| NeuralNetworkRustWasmJs.BaseNameParses | neural_network/app/rust_wasm/src/rust-wasm-app.js:49 | `rust_wasm_cpu_sample_<d>%.json` parses back to `rust_wasm_cpu` and `<d>%`, and the prefixed name has no '/' |
| NeuralNetworkRustWasmJs.BaseNameStrips | neural_network/app/rust_wasm/src/rust-wasm-app.js:49 | removing `nn_mnist_` leaves `rust_wasm_cpu_sample_<d>%.json` |
| NeuralNetworkRustWasmJs.RecordDirs | neural_network/app/rust_wasm/src/rust-wasm-app.js:46-48 | the try folder is under `location` and the experiment folder under the try folder |
| NeuralNetworkRustWasmJs.RecordLayout | neural_network/app/rust_wasm/src/rust-wasm-app.js:33-49 | for a sample label `<d>%` the four paths are nested, `location` is the result item's folder, and the base name is `nn_mnist_rust_wasm_cpu_sample_<d>%.json` |
| NeuralNetworkRustWasmJs.RecordRoundTrip | neural_network/app/rust_wasm/src/rust-wasm-app.js:40-49 | the base name of `result_path` parses back, after the `nn_mnist_` removal, to the record's platform and its sample label |
| NeuralNetworkRustWasmJs.HandleSteps | neural_network/app/rust_wasm/src/rust-wasm-app.js:60-78 | a new result item is requested and the results plotted exactly when not running all; training happens once; the indicator is stopped last |
| MnistSplit.LoadNabFromBytes | neural_network/app/rust_wasm/src/lib.rs:36-46 | a decompression error passes through, a deserialisation error becomes an `InvalidData` error, and the load succeeds exactly when both steps do |
| MnistSplit.SplitAt | neural_network/app/rust_wasm/src/lib.rs:61-85 | the split panics exactly when the images lack three dimensions or a slice runs past its buffer or the sample count |
| MnistSplit.GetMnistData | neural_network/app/rust_wasm/src/lib.rs:49-86 | an image load error gives `Error loading images: ...`, a label load error (after images loaded) `Error loading labels: ...`; otherwise the split of the two arrays |
| MnistSplit.SplitPartitions | neural_network/app/rust_wasm/src/lib.rs:64-83 | train and test data are a prefix and the matching suffix of each buffer, with `train_size` samples of height × width pixels and shapes that add up to the sample count |
| MnistSplit.OversizedSplitPanics | neural_network/app/rust_wasm/src/lib.rs:66-72 | a training size above the sample count panics |
| MnistSplit.EarlyFetchAndTrainData | neural-network/app/rust_wasm/src/lib.rs:86-91 | the early trainer panics when either buffer is shorter than 10 bytes (the debug slice `[0..10]`), and otherwise splits as the later one |
| Timestamps.Fixed | linear_regression/app/python/linear_regression.py:145 | a zero-padded field has exactly its width in digits |
| Timestamps.FixedValue | linear_regression/app/python/linear_regression.py:145 | a zero-padded field reads back as its number when it fits the width |
| Timestamps.IsoString | linear_regression/app/tensorflow_js/tensorflow_js_app.js:56-57 | a serialised `Date` is 24 characters ending in `Z` |
| Timestamps.MicrosToMillis | linear_regression/app/python/linear_regression.py:145-146 | cutting the last three digits off the six microsecond digits leaves the three millisecond digits |
| Timestamps.PythonTimestampIsIso | linear_regression/app/python/linear_regression.py:145-146 | the Python drivers' `start` and `end` have the same form as the JavaScript drivers' serialised dates |
| CsvDataset.CleanHeader | linear_regression/app/tensorflow_js/tensorflow_js_app.js:26-28 | a cleaned header holds no CR, LF or no-break space, and is the trimmed header when that holds none |
| CsvDataset.Lines | linear_regression/app/tensorflow_js/tensorflow_js_app.js:24 | `text.trim().split('\n')` always has a first line |
| CsvDataset.Headers | linear_regression/app/tensorflow_js/tensorflow_js_app.js:26-28 | one cleaned header per comma-separated field of the first line |
| CsvDataset.BuildRow | linear_regression/app/tensorflow_js/tensorflow_js_app.js:31-36 | the `forEach` loop builds `Row` of the headers and values |
| CsvDataset.RowKeys | linear_regression/app/tensorflow_js/tensorflow_js_app.js:33-35 | the record's keys are exactly the headers |
| CsvDataset.RowLastWins | linear_regression/app/tensorflow_js/tensorflow_js_app.js:33-35 | a repeated header holds the value of its last column; a missing value is parsed from `undefined` |
| CsvDataset.Records | linear_regression/app/tensorflow_js/tensorflow_js_app.js:30-37 | one record per line after the first, each built from that line's fields |
| CsvDataset.Column | linear_regression/app/tensorflow_js/tensorflow_js_app.js:39-40 | `data.map(row => [row[column]])`: a singleton per record, in row order, empty where the column is missing |
| CsvDataset.FetchDataset | linear_regression/app/tensorflow_js/tensorflow_js_app.js:21-43 | features and target have one entry per data line |
| CsvDataset.FetchDatasetFields | linear_regression/app/tensorflow_js/tensorflow_js_app.js:30-40 | a feature entry is the value parsed from the feature column's last position in that line |
| CsvDataset.FetchDatasetMissing | linear_regression/app/tensorflow_js/tensorflow_js_app.js:39-40 | an absent feature column gives `undefined` in every entry |
| CsvDataset.FlatSingletons | linear_regression/app/tensorflow_js/tensorflow_js_app.js:39-40 | flattening singletons keeps one value per entry, in order |
| CsvDataset.FlatColumn | linear_regression/app/rust_wasm/src/rust_wasm_app.js:48-49 | `features.flat()` has one value per record, that record's column value |
| Strings.SplitJoin | linear_regression/app/tensorflow_js/tensorflow_js_app.js:24 | joining the pieces of a split with the separator gives back the text |
| Strings.JoinSplit | linear_regression/app/tensorflow_js/tensorflow_js_app.js:24 | splitting joined separator-free pieces gives back the pieces |
| Strings.Split | linear_regression/app/tensorflow_js/tensorflow_js_app.js:24 | `split` yields at least one piece, none holding the separator |
| Strings.SplitNoSep | linear_regression/app/tensorflow_js/tensorflow_js_app.js:31 | a line without the separator is one piece |
| Strings.TrimStart | linear_regression/app/tensorflow_js/tensorflow_js_app.js:24 | the removed prefix is whitespace and the rest starts with a non-space |
| Strings.TrimEnd | linear_regression/app/tensorflow_js/tensorflow_js_app.js:24 | the removed suffix is whitespace and the rest ends with a non-space |
| Strings.TrimIsCore | linear_regression/app/tensorflow_js/tensorflow_js_app.js:24 | `trim()` is a slice of the text with only whitespace cut on either side, starting and ending with a non-space |
| Strings.RemoveChars | linear_regression/app/tensorflow_js/tensorflow_js_app.js:27 | `replace(/[...]+/g, '')` leaves none of the characters and changes a text without them not at all |
| Strings.RemoveFirstAfter | linear_regression/app/tensorflow_js/tensorflow_js_app.js:174 | `replace` with a string pattern removes its first occurrence and keeps the text after it, even where the pattern occurs again |
| Strings.RemoveFirstAbsent | linear_regression/app/tensorflow_js/tensorflow_js_app.js:174 | `replace` of an absent pattern changes nothing |
| Strings.RemoveAllLeading | linear_regression/plot/linear_regression_plot.py:99 | `replace` in Python removes every occurrence, a leading one included |
| Strings.RemoveAllAbsent | linear_regression/plot/linear_regression_plot.py:99 | Python's `replace` of an absent pattern changes nothing |
| Strings.Basename | linear_regression/plot/linear_regression_plot.py:115 | `os.path.basename` holds no '/' and ends the path |
| Strings.BasenameOfJoin | linear_regression/plot/linear_regression_plot.py:115 | the base name of `dir/name` is `name` |
| Strings.NatToStringValue | linear_regression/plot/linear_regression_plot.py:99 | the decimal form of a number reads back as that number |
| Strings.ParseInt | server.py:125-126 | `int(s)` on a str succeeds exactly when, with the white space around it removed, the text is decimal digits in groups joined by single underscores, optionally after one `+` or `-`; the value is the digits' number, negated after `-` |
| Strings.ParseIntOfIntString | server.py:125-126 | `int(str(n))` is `n` |
| Strings.ParseIntOfString | linear_regression/plot/linear_regression_plot.py:99 | `int()` of a number's decimal form is that number |
| Strings.ParseIntOfDecimals | linear_regression/plot/linear_regression_plot.py:99 | `int()` of a non-empty string of decimal digits is the number they spell |
| Strings.ParseIntSpaced | server.py:125-126 | white space around the text does not change what `int()` makes of it |
| Strings.ParseIntUnderscore | server.py:125-126 | a single underscore between digits is accepted and ignored |
| Strings.TrimAround | server.py:125-126 | stripping both ends of `a + t + b`, where `a` and `b` are white space and `t` starts and ends with other characters, gives `t` |
| Strings.DigitsAreDecimal | linear_regression/plot/linear_regression_plot.py:99 | ASCII digits are decimal digits |
| UnicodeDigits.DigitZero | linear_regression/plot/linear_regression_plot.py:115 | a decimal digit lies in a run of ten that starts at its zero; below U+0660 the digits are exactly `0`-`9`, with zero `0` |
| UnicodeDigits.DecimalValue | server.py:125-126 | a decimal digit's value is below 10, and is the usual one for `0`-`9` |
| UnicodeDigits.SpaceIsNoDigit | server.py:125-126 | no character `int()` strips as white space is a decimal digit |
| JsonValues.Field | server.py:167 | a field is found only in an object that has that key |
| JsonValues.NumValue | linear_regression/plot/linear_regression_plot.py:131 | a number's value, with `True` as 1 and `False` as 0 |
| JsonValues.PyEqSymmetric | server.py:172 | Python's `==` on JSON values is symmetric |
| JsonValues.SetField | server.py:205 | after `d[key] = v` the key holds `v` and every old key is still there |
| Dicts.Keys | linear_regression/plot/linear_regression_plot.py:203 | the keys in insertion order |
| Dicts.Get | linear_regression/plot/linear_regression_plot.py:127 | `d.get(k)` finds a value exactly when `k` is a key, and it is stored under `k` |
| Dicts.Set | linear_regression/plot/linear_regression_plot.py:122 | assignment keeps the key order and appends a new key at the end |
| Dicts.GetSet | linear_regression/plot/linear_regression_plot.py:122 | after `d[k] = v`, reading `k` gives `v` and every other key reads as before |
| Dicts.SetUnique | linear_regression/plot/linear_regression_plot.py:122 | assignment never repeats a key |
| Dicts.GetUnique | linear_regression/plot/linear_regression_plot.py:122 | in a dictionary without repeated keys each stored pair is what its key reads |

## Left out

- Training, evaluation and prediction (TensorFlow/Keras, TF.js, nabla_ml) are function parameters. Their outputs enter only as opaque `results` payloads.
- Floating point is left out. The conversion `round(x / 1000, 4)` is the parameter `toSeconds`, and the Student-t confidence interval of a series `np.mean` can average is the parameter `ci`. `parseFloat` is a parameter of the CSV reader.
- The rounding that computes the Rust `train_size` is left out: `MnistSplit.GetMnistData` takes `train_size` as a natural number.
- `MnistSplit.SplitAt`: the subtraction `num_samples - train_size`, the products `train_size * height * width` (32-bit `usize` on wasm32) and the slices with `train_size > num_samples` end as `Panic`. That is the behaviour of a debug build, where an overflowing product panics; the model's unbounded product then runs past the buffer and panics too. The wrap-around of a release build is not modelled.
- gzip decompression and bincode decoding are function parameters. They return either the bytes or an error.
- Sockets, the HTTP request parsing and `serve_forever` are left out.
  - A request reaches the handler as its raw path, its query and its body.
  - The query is the dictionary of each key's first value, in place of `parse_qs`'s lists.
  - `urlsplit` is modelled by its cuts: the scheme (`Routes.SplitScheme`), the network location (`Routes.DropNetloc`), the fragment and the query, and `urlparse`'s parameters (`Routes.SplitParams`). Its removal of ASCII control characters and white space is not modelled, and neither is the `ValueError` it raises on a network location with an invalid `[...]` part.
  - `Content-Length` and request headers are not modelled.
  - Response headers other than the two cache headers are not modelled. This includes the headers sent with the `Fail` replies.
- The clock is left out. `start`, `end` and the timestamps are given as values. `Server.StartServer` takes the bind outcome as the predicate `binds`.
- Files are a map from path to stored JSON, or to an unparseable file. Left out:
  - the failures of real reads and writes;
  - `os.makedirs`;
  - directory permissions;
  - rarfile extraction;
  - the order `os.listdir` returns names in, which is given by the listings passed in;
  - `is_file`, which is modelled as the listing of files per folder.
- The plot scripts are parameters of the handler's `World`. Their chart and CSV writes do not reach `Handler.disk`.
- The matplotlib drawing, bar offsets, saved images and the `print` messages of the aggregators are left out. The `None` loss history given to `plot_loss_history` is left out too. Only the values gathered for the charts are modelled.
- The early plot scripts return nothing after writing their CSV. The model returns the table they built.
- JsonValues.PyEq follows Python's `==` on scalars, including `True == 1`. On lists and objects it is structural equality, which differs from Python in two ways:
  - Python compares the elements with `==`, so `[True] == [1]` holds there and not in the model;
  - the model compares an object's fields in order, so `{"a": 1, "b": 2}` and `{"b": 2, "a": 1}` differ, while Python's dict `==` ignores key order and finds them equal.
- JSON numbers are unbounded reals, and integers and floats are not told apart.
- Series.MeanRaises: `np.mean` raises on a series holding `None`, a string or a dictionary, and the model says so. A series holding lists is treated as one it averages; the `ValueError` NumPy raises on lists of unequal length and the `TypeError` on lists holding strings are not modelled.
- Strings.ParseInt: the limit on the number of digits `int()` accepts (4300 by default since Python 3.11) is not modelled. The digits and spaces are those of Unicode 15.0, the version Python 3.12 uses.
- Ledger.LoadLedger: a `result_list.json` that is not valid text makes `get_result_list` raise `UnicodeDecodeError`, which nothing catches. The disk does not represent such a file; an unparseable file loads as `[]`.
- The un-awaited `appendExperiment` and two processes racing on `result_list.json` are left out: there is no concurrency.
- `appendExperiment`, `getNewResultItem`, `downloadJson`, `fetch` and the DOM wiring are left out. The JavaScript drivers' records are modelled as the values handed to them.
- The page's HTML is not part of this model. The round-trip lemmas of the JavaScript linear-regression drivers therefore take the `dataset` attribute to have the form `house_price/sample_<pct>%.csv` (`Samples.HousePricePath`). The path builders themselves accept any string.
- NeuralNetworkTfjs.Record: the percentage in the file name is taken as the natural number `pct`. It stands in place of `trainPercentage * 100`, which the page computes in floating point from 0.1, 0.5 and 1.
- `linear-regression/app/rust_wasm/src/lib-linfa.rs` is not part of this model because it does not compile. The numerical code of the other `lib.rs` files is floating point and is left out.
- The training scripts `main.py` of the early Python apps and the early neural-network TF.js page are left out. They hold only plumbing and a fixed output path.
- Dataset sampling with pandas is left out.
