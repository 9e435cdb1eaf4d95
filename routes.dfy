/**
 * The pure decisions of the request handler in `server.py`: which handler a
 * request path goes to, and which caching headers `end_headers` adds.  GET
 * dispatch looks at the path component `urllib.parse.urlparse` extracts;
 * POST dispatch compares the raw request path, query string included.
 */
module Routes {
  import opened Strings

  // ---------------------------------------------------------------------
  // urlparse(path).path
  // ---------------------------------------------------------------------

  /** The prefix of `s` before its first character in `stops` (all of `s` when there is none). */
  function Before(s: string, stops: set<char>): (r: string)
    ensures |r| <= |s| && r == s[..|r|]
    ensures forall i :: 0 <= i < |r| ==> r[i] !in stops
    ensures |r| < |s| ==> s[|r|] in stops
    decreases |s|
  {
    if s == [] || s[0] in stops then []
    else
      var rest := Before(s[1..], stops);
      assert s[..|rest| + 1] == [s[0]] + s[1..][..|rest|];
      [s[0]] + rest
  }

  /** A stop-free prefix is kept whole, and the cut happens in what follows it. */
  lemma {:induction false} BeforeAfterFree(p: string, rest: string, stops: set<char>)
    requires forall i :: 0 <= i < |p| ==> p[i] !in stops
    ensures Before(p + rest, stops) == p + Before(rest, stops)
    decreases |p|
  {
    if p != [] {
      var s := p + rest;
      assert s[0] == p[0] && s[1..] == p[1..] + rest;
      assert forall i :: 0 <= i < |p| - 1 ==> p[1..][i] == p[i + 1];
      BeforeAfterFree(p[1..], rest, stops);
      assert p[0] !in stops;
      assert Before(s, stops) == [p[0]] + Before(s[1..], stops);
      assert [p[0]] + (p[1..] + Before(rest, stops)) == p + Before(rest, stops);
    } else {
      assert p + rest == rest;
    }
  }

  /** Without a stop character the whole string is kept. */
  lemma {:induction false} BeforeNoStop(s: string, stops: set<char>)
    requires forall i :: 0 <= i < |s| ==> s[i] !in stops
    ensures Before(s, stops) == s
    decreases |s|
  {
    if s != [] {
      BeforeNoStop(s[1..], stops);
    }
  }

  predicate IsAsciiLetter(c: char) {
    'a' <= c <= 'z' || 'A' <= c <= 'Z'
  }

  /** `scheme_chars` of `urllib.parse`. */
  predicate IsSchemeChar(c: char) {
    IsAsciiLetter(c) || '0' <= c <= '9' || c == '+' || c == '-' || c == '.'
  }

  function LowerChar(c: char): char {
    if 'A' <= c <= 'Z' then (c as int + 32) as char else c
  }

  function Lower(s: string): (r: string)
    ensures |r| == |s|
  {
    seq(|s|, i requires 0 <= i < |s| => LowerChar(s[i]))
  }

  /**
   * `urlsplit`'s scheme: the text before the first ':' when it is non-empty,
   * starts with an ASCII letter and holds only scheme characters; it is
   * lower-cased, and the rest of the URL follows the ':'.  Otherwise the
   * scheme is empty and the URL is kept.
   */
  function SplitScheme(url: string): (r: (string, string))
    ensures r.0 == "" ==> r.1 == url
    ensures r.0 != "" ==> |r.0| < |url| && url[|r.0|] == ':' && r.1 == url[|r.0| + 1..]
  {
    var head := Before(url, {':'});
    if |head| < |url| && head != [] && IsAsciiLetter(head[0]) && forall i :: 0 <= i < |head| ==> IsSchemeChar(head[i])
    then (Lower(head), url[|head| + 1..])
    else ("", url)
  }

  /** `'//' + netloc` at the start of what follows the scheme is not part of the path. */
  function DropNetloc(url: string): (r: string)
    ensures !StartsWith(url, "//") ==> r == url
  {
    if StartsWith(url, "//") then
      var netloc := Before(url[2..], {'/', '?', '#'});
      url[2 + |netloc|..]
    else url
  }

  /** `uses_params` of `urllib.parse`: the schemes whose last path segment may carry `;params`. */
  const UsesParams: set<string> :=
    {"", "ftp", "hdl", "prospero", "http", "imap", "https", "shttp", "rtsp", "rtsps", "rtspu",
     "sip", "sips", "mms", "sftp", "tel"}

  /** `_splitparams`: the path up to the first ';' after its last '/'. */
  function SplitParams(path: string): (r: string)
    ensures ';' !in path ==> r == path
  {
    var k := |path| - |Before(Reversed(path), {'/'})|;
    if ';' !in path then path
    else path[..k] + Before(path[k..], {';'})
  }

  function Reversed(s: string): (r: string)
    ensures |r| == |s|
  {
    seq(|s|, i requires 0 <= i < |s| => s[|s| - 1 - i])
  }

  /**
   * `urlparse(raw).path`: the scheme and the network location are removed,
   * the fragment (after '#') and then the query (after '?') are cut off, and
   * for schemes that use them the `;params` of the last segment go too.
   */
  function UrlPath(raw: string): (r: string) {
    var (scheme, rest) := SplitScheme(raw);
    var path := PathPart(DropNetloc(rest));
    if scheme in UsesParams && ';' in path then SplitParams(path) else path
  }

  /** What `urlsplit` leaves of the path once the scheme and network location are gone. */
  function PathPart(url: string): string {
    Before(Before(url, {'#'}), {'?'})
  }

  /** Without a scheme or network location, the path is what remains after the cuts. */
  lemma UrlPathPlain(raw: string)
    requires |raw| >= 2 && raw[0] == '/' && raw[1] != '/'
    requires ';' !in PathPart(raw)
    ensures UrlPath(raw) == PathPart(raw)
  {
    NoSchemeNoNetloc(raw);
  }

  /** A path starting with a single '/' has no scheme and no network location. */
  lemma NoSchemeNoNetloc(raw: string)
    requires |raw| >= 2 && raw[0] == '/' && raw[1] != '/'
    ensures SplitScheme(raw) == ("", raw) && DropNetloc(raw) == raw
  {
    var head := Before(raw, {':'});
    if head != [] {
      assert head[0] == raw[0];
    }
  }

  /**
   * A request path `p?query` (with `p` starting with a single '/') has path
   * `p` whatever the query holds.
   */
  lemma UrlPathOfQuery(p: string, query: string)
    requires |p| >= 2 && p[0] == '/' && p[1] != '/'
    requires '?' !in p && '#' !in p && ';' !in p
    ensures UrlPath(p + "?" + query) == p
  {
    var raw := p + ['?'] + query;
    assert raw == p + "?" + query;
    assert raw[0] == '/' && raw[1] == p[1];
    var cut := Before(query, {'#'});
    assert Before(raw, {'#'}) == p + ['?'] + cut by {
      BeforeAfterFree(p + ['?'], query, {'#'});
    }
    assert PathPart(raw) == p by {
      BeforeAfterFree(p, ['?'] + cut, {'?'});
      assert p + ['?'] + cut == p + (['?'] + cut);
    }
    UrlPathPlain(raw);
  }

  /** A request path without query, fragment or parameters is its own path. */
  lemma UrlPathOfPlain(p: string)
    requires |p| >= 2 && p[0] == '/' && p[1] != '/'
    requires '?' !in p && '#' !in p && ';' !in p
    ensures UrlPath(p) == p
  {
    BeforeNoStop(p, {'#'});
    BeforeNoStop(p, {'?'});
    UrlPathPlain(p);
  }

  // ---------------------------------------------------------------------
  // do_GET / do_POST dispatch
  // ---------------------------------------------------------------------

  datatype GetRoute = NewResultItemRoute | RunPythonRoute | PlotLinearRegressionRoute | PlotNeuralNetworkRoute | StaticRoute

  datatype PostRoute = SaveJsonObjectRoute | AppendExperimentRoute | UpdateResultItemRoute | NotFoundRoute

  const NewResultItemPath := "/api/new_result_item"
  const RunPythonPath := "/api/run_python"
  const PlotLinearRegressionPath := "/api/plot_linear_regression"
  const PlotNeuralNetworkPath := "/api/plot_neural_network"
  const SaveJsonObjectPath := "/api/save_json_object"
  const AppendExperimentPath := "/api/append_experiment"
  const UpdateResultItemPath := "/api/update_result_item"

  /** `do_GET`: the four API paths by their path component; everything else is static file serving. */
  function RouteGet(raw: string): (r: GetRoute)
    ensures r == StaticRoute <==>
              UrlPath(raw) !in {NewResultItemPath, RunPythonPath, PlotLinearRegressionPath, PlotNeuralNetworkPath}
  {
    var path := UrlPath(raw);
    if path == NewResultItemPath then NewResultItemRoute
    else if path == RunPythonPath then RunPythonRoute
    else if path == PlotLinearRegressionPath then PlotLinearRegressionRoute
    else if path == PlotNeuralNetworkPath then PlotNeuralNetworkRoute
    else StaticRoute
  }

  /** `do_POST`: the three API paths compared with the whole request path; anything else is a 404. */
  function RoutePost(raw: string): (r: PostRoute)
    ensures r == NotFoundRoute <==> raw !in {SaveJsonObjectPath, AppendExperimentPath, UpdateResultItemPath}
  {
    if raw == SaveJsonObjectPath then SaveJsonObjectRoute
    else if raw == AppendExperimentPath then AppendExperimentRoute
    else if raw == UpdateResultItemPath then UpdateResultItemRoute
    else NotFoundRoute
  }

  /** The GET route of `p?query` is the route of `p` when `p` is a plain request path. */
  lemma GetIgnoresQuery(p: string, query: string)
    requires |p| >= 2 && p[0] == '/' && p[1] != '/'
    requires '?' !in p && '#' !in p && ';' !in p
    ensures RouteGet(p + "?" + query) == RouteGet(p)
  {
    UrlPathOfQuery(p, query);
    UrlPathOfPlain(p);
  }

  /** A POST carrying a query string never reaches a handler: it is answered with 404. */
  lemma PostRejectsQuery(raw: string)
    requires '?' in raw
    ensures RoutePost(raw) == NotFoundRoute
  {
  }

  // ---------------------------------------------------------------------
  // end_headers
  // ---------------------------------------------------------------------

  /** The suffixes `end_headers` caches for 30 days (the source lists "mnist_test_labels.json" twice). */
  const CachedSuffixes: seq<string> :=
    [".nab", "sample_10%.csv", "sample_50%.csv", "mnist_test_images.json", "mnist_test_labels.json",
     "mnist_test_labels.json", "mnist_train_images.json", "mnist_train_labels.json"]

  const LedgerSuffix := "result_list.json"

  /** `str.endswith` with a tuple: some suffix of the tuple ends the string. */
  predicate EndsWithAny(s: string, suffixes: seq<string>) {
    exists i :: 0 <= i < |suffixes| && EndsWith(s, suffixes[i])
  }

  const PublicCache := "public, max-age=2592000"
  const NoStore := "no-store, no-cache, must-revalidate, max-age=0"

  /** The 30-day headers; `expires` is the clock's time 30 days ahead, formatted as HTTP dates are. */
  function CachedHeaders(expires: string): seq<(string, string)> {
    [("Cache-Control", PublicCache), ("Expires", expires)]
  }

  const LedgerHeaders: seq<(string, string)> :=
    [("Cache-Control", NoStore), ("Pragma", "no-cache"), ("Expires", "0")]

  /** No suffix of one list ends the other, so no path ends with both kinds. */
  lemma {:induction false} NeverBoth(path: string)
    ensures !(EndsWithAny(path, CachedSuffixes) && EndsWith(path, LedgerSuffix))
  {
    if EndsWithAny(path, CachedSuffixes) && EndsWith(path, LedgerSuffix) {
      var i :| 0 <= i < |CachedSuffixes| && EndsWith(path, CachedSuffixes[i]);
      var s := CachedSuffixes[i];
      if |s| <= |LedgerSuffix| {
        EndsWithBoth(path, s, LedgerSuffix);
      } else {
        EndsWithBoth(path, LedgerSuffix, s);
      }
    }
  }

  /**
   * The headers `end_headers` adds to every response before the blank line:
   * the 30-day headers for a cached suffix, the no-store headers for the
   * ledger, nothing otherwise; a path never gets both kinds.
   */
  function CacheHeaders(path: string, expires: string): (r: seq<(string, string)>)
    ensures EndsWithAny(path, CachedSuffixes) ==> r == CachedHeaders(expires)
    ensures EndsWith(path, LedgerSuffix) ==> r == LedgerHeaders
    ensures !EndsWithAny(path, CachedSuffixes) && !EndsWith(path, LedgerSuffix) ==> r == []
    ensures !(("Cache-Control", PublicCache) in r && ("Cache-Control", NoStore) in r)
  {
    NeverBoth(path);
    (if EndsWithAny(path, CachedSuffixes) then CachedHeaders(expires) else [])
    + (if EndsWith(path, LedgerSuffix) then LedgerHeaders else [])
  }
}
