/**
 * `fetchDataset` of the JavaScript linear-regression drivers (all four copies
 * share it): the CSV text is trimmed and split into lines, the first line's
 * comma-separated names are cleaned into headers, and every further line
 * becomes one record mapping each header to `parseFloat` of the field in the
 * same position.  There is no quoting.  `parseFloat` is the parameter `parse`;
 * a missing field is `undefined`, which `parseFloat` reads as the text "undefined".
 */
module CsvDataset {
  import opened Wrappers
  import opened Strings

  /** `header.trim().replace(/[\r\n ]+/g, '')`. */
  function CleanHeader(h: string): (r: string)
    ensures forall i :: 0 <= i < |r| ==> r[i] != '\r' && r[i] != '\n' && r[i] != '\U{00A0}'
    ensures (forall i :: 0 <= i < |Trim(h)| ==> Trim(h)[i] !in {'\r', '\n', '\U{00A0}'}) ==> r == Trim(h)
  {
    RemoveChars(Trim(h), {'\r', '\n', '\U{00A0}'})
  }

  /** `text.trim().split('\n')`: never empty, so `lines[0]` always exists. */
  function Lines(text: string): (r: seq<string>)
    ensures |r| >= 1
  {
    Split(Trim(text), '\n')
  }

  function Headers(text: string): (r: seq<string>)
    ensures |r| == |Split(Lines(text)[0], ',')|
    ensures forall i :: 0 <= i < |r| ==> r[i] == CleanHeader(Split(Lines(text)[0], ',')[i])
  {
    var names := Split(Lines(text)[0], ',');
    seq(|names|, i requires 0 <= i < |names| => CleanHeader(names[i]))
  }

  /** `values[index]`, which is `undefined` past the end of the line. */
  function FieldText(values: seq<string>, i: nat): string {
    if i < |values| then values[i] else "undefined"
  }

  /** The record after the `forEach` callback has run for the first `n` headers. */
  function RowUpTo<V>(headers: seq<string>, values: seq<string>, parse: string -> V, n: nat): map<string, V>
    requires n <= |headers|
  {
    if n == 0 then map[]
    else RowUpTo(headers, values, parse, n - 1)[headers[n - 1] := parse(FieldText(values, n - 1))]
  }

  /** The record built from one line. */
  function Row<V>(headers: seq<string>, values: seq<string>, parse: string -> V): map<string, V> {
    RowUpTo(headers, values, parse, |headers|)
  }

  /**
   * `headers.forEach((header, index) => { obj[header] = parseFloat(values[index]); })`:
   * the record is filled one header at a time.
   */
  method BuildRow<V>(headers: seq<string>, values: seq<string>, parse: string -> V) returns (obj: map<string, V>)
    ensures obj == Row(headers, values, parse)
  {
    obj := map[];
    var index := 0;
    while index < |headers|
      invariant index <= |headers|
      invariant obj == RowUpTo(headers, values, parse, index)
    {
      obj := obj[headers[index] := parse(FieldText(values, index))];
      index := index + 1;
    }
  }

  /** The record's keys are exactly the headers. */
  lemma {:induction false} RowKeys<V>(headers: seq<string>, values: seq<string>, parse: string -> V, n: nat)
    requires n <= |headers|
    ensures RowUpTo(headers, values, parse, n).Keys == set i | 0 <= i < n :: headers[i]
  {
    if n > 0 {
      RowKeys(headers, values, parse, n - 1);
    }
  }

  /** A header holds the field of its last occurrence: a repeated header keeps the later column's value. */
  lemma {:induction false} RowLastWins<V>(headers: seq<string>, values: seq<string>, parse: string -> V, n: nat, j: nat)
    requires j < n <= |headers|
    requires forall k :: j < k < n ==> headers[k] != headers[j]
    ensures headers[j] in RowUpTo(headers, values, parse, n)
    ensures RowUpTo(headers, values, parse, n)[headers[j]] == parse(FieldText(values, j))
  {
    if n - 1 > j {
      RowLastWins(headers, values, parse, n - 1, j);
    }
  }

  /** `lines.slice(1).map(...)`: one record per line after the header line. */
  function Records<V>(headers: seq<string>, lines: seq<string>, parse: string -> V): (r: seq<map<string, V>>)
    requires |lines| >= 1
    ensures |r| == |lines| - 1
    ensures forall i :: 0 <= i < |r| ==> r[i] == Row(headers, Split(lines[i + 1], ','), parse)
  {
    seq(|lines| - 1, i requires 0 <= i < |lines| - 1 => Row(headers, Split(lines[i + 1], ','), parse))
  }

  /** `row[column]`, `undefined` when the record has no such key. */
  function Lookup<V>(row: map<string, V>, column: string): Option<V> {
    if column in row then Some(row[column]) else None
  }

  /** `data.map(row => [row[column]])`: one singleton list per record, in row order. */
  function Column<V>(records: seq<map<string, V>>, column: string): (r: seq<seq<Option<V>>>)
    ensures |r| == |records|
    ensures forall i :: 0 <= i < |r| ==> r[i] == [Lookup(records[i], column)]
  {
    seq(|records|, i requires 0 <= i < |records| => [Lookup(records[i], column)])
  }

  datatype Dataset<V> = Dataset(features: seq<seq<Option<V>>>, target: seq<seq<Option<V>>>)

  /** `fetchDataset(datasetPath, targetColumn, featureColumn)` on the text the server returned. */
  function FetchDataset<V>(text: string, targetColumn: string, featureColumn: string, parse: string -> V): (r: Dataset<V>)
    ensures |r.features| == |r.target| == |Lines(text)| - 1
  {
    var data := Records(Headers(text), Lines(text), parse);
    Dataset(Column(data, featureColumn), Column(data, targetColumn))
  }

  /**
   * Each line after the first gives one feature and one target: the value of
   * the last column with that header, or `undefined` if no header matches.
   */
  lemma FetchDatasetFields<V>(text: string, targetColumn: string, featureColumn: string, parse: string -> V, i: nat, j: nat)
    requires i < |Lines(text)| - 1
    requires j < |Headers(text)| && Headers(text)[j] == featureColumn
    requires forall k :: j < k < |Headers(text)| ==> Headers(text)[k] != featureColumn
    ensures FetchDataset(text, targetColumn, featureColumn, parse).features[i]
         == [Some(parse(FieldText(Split(Lines(text)[i + 1], ','), j)))]
  {
    RowLastWins(Headers(text), Split(Lines(text)[i + 1], ','), parse, |Headers(text)|, j);
  }

  /** A column no header names reads as `undefined` in every row. */
  lemma FetchDatasetMissing<V>(text: string, targetColumn: string, featureColumn: string, parse: string -> V, i: nat)
    requires i < |Lines(text)| - 1
    requires featureColumn !in Headers(text)
    ensures FetchDataset(text, targetColumn, featureColumn, parse).features[i] == [None]
  {
    var headers := Headers(text);
    RowKeys(headers, Split(Lines(text)[i + 1], ','), parse, |headers|);
  }

  /** `xs.flat()` for a list of lists. */
  function Flat<T>(xs: seq<seq<T>>): seq<T>
    decreases |xs|
  {
    if xs == [] then [] else xs[0] + Flat(xs[1..])
  }

  /** Flattening singleton lists keeps their length and order. */
  lemma {:induction false} FlatSingletons<T>(xs: seq<seq<T>>)
    requires forall i :: 0 <= i < |xs| ==> |xs[i]| == 1
    ensures |Flat(xs)| == |xs|
    ensures forall i :: 0 <= i < |xs| ==> Flat(xs)[i] == xs[i][0]
    decreases |xs|
  {
    if xs != [] {
      FlatSingletons(xs[1..]);
      assert forall i :: 1 <= i < |xs| ==> xs[1..][i - 1] == xs[i];
    }
  }

  /** The columns `fetchDataset` returns are singleton lists, so `.flat()` gives one value per row, in row order. */
  lemma FlatColumn<V>(records: seq<map<string, V>>, column: string)
    ensures |Flat(Column(records, column))| == |records|
    ensures forall i :: 0 <= i < |records| ==> Flat(Column(records, column))[i] == Lookup(records[i], column)
  {
    FlatSingletons(Column(records, column));
  }
}
