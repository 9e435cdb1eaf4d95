/**
 * JSON documents as the server and the plotting scripts see them after
 * `json.load`, and the file store they live in.  Python's `int` and `float`
 * are both JSON numbers and are merged here into one `real`.
 */
module JsonValues {
  import opened Wrappers
  import opened Dicts

  datatype Json =
    | JNull
    | JBool(b: bool)
    | JNum(n: real)
    | JStr(s: string)
    | JArr(items: seq<Json>)
    | JObj(fields: Dict<string, Json>)

  /** A file on disk: a JSON document `json.load` can read, or a file it rejects with `JSONDecodeError`. */
  datatype File = Stored(content: Json) | Unparseable

  /** The file system, by path. */
  type Disk = map<string, File>

  /** `obj.get(key)`; `None` also when `j` is not an object. */
  function Field(j: Json, key: string): (r: Option<Json>)
    ensures r.Some? ==> j.JObj? && key in Keys(j.fields)
  {
    if j.JObj? then Get(j.fields, key) else None
  }

  /** `obj.get(key)` with `None` turned into JSON `null`. */
  function FieldOrNull(j: Json, key: string): Json {
    Field(j, key).GetOr(JNull)
  }

  /** `isinstance(x, (int, float))`: Python's booleans are integers too. */
  predicate IsNumber(j: Json) {
    j.JNum? || j.JBool?
  }

  /** The numeric value of a number or a boolean (`True` is 1). */
  function NumValue(j: Json): (r: real)
    requires IsNumber(j)
    ensures j.JNum? ==> r == j.n
    ensures j.JBool? ==> (r == 1.0 <==> j.b) && (r == 0.0 <==> !j.b)
  {
    if j.JNum? then j.n else if j.b then 1.0 else 0.0
  }

  /** Python truthiness of a JSON value. */
  predicate Truthy(j: Json) {
    match j
    case JNull => false
    case JBool(b) => b
    case JNum(n) => n != 0.0
    case JStr(s) => s != []
    case JArr(a) => a != []
    case JObj(f) => f != []
  }

  /** Python's `==` on JSON values: numbers and booleans compare by value, everything else structurally. */
  predicate PyEq(a: Json, b: Json) {
    if IsNumber(a) && IsNumber(b) then NumValue(a) == NumValue(b) else a == b
  }

  /** `PyEq` is an equivalence on the values it compares. */
  lemma PyEqSymmetric(a: Json, b: Json)
    ensures PyEq(a, b) == PyEq(b, a)
  {
  }

  /** Setting one key of a JSON object. */
  function SetField(j: Json, key: string, v: Json): (r: Json)
    requires j.JObj?
    ensures r.JObj? && Field(r, key) == Some(v)
    ensures Keys(j.fields) <= Keys(r.fields)
  {
    GetSet(j.fields, key, v, key);
    JObj(Set(j.fields, key, v))
  }
}
