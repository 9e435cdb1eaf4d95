/**
 * The checks the aggregation scripts make on a result file before drawing its
 * own plots: the regression line needs `features`, `target` and `predictions`
 * as lists of one-number lists, the training curves need four lists of
 * numbers.  Python's `all(... for item in x)` iterates whatever `x` is: a
 * string yields characters and an object yields its keys, which fail the
 * test, while a number cannot be iterated and raises `TypeError`.
 */
module ResultChecks {
  import opened Wrappers
  import opened JsonValues

  /** The value of `all(test(item) for item in x)`, or `None` where iterating `x` raises. */
  datatype Check = Fails | Passes | Raises

  /** `isinstance(item, list) and len(item) == 1 and isinstance(item[0], (int, float))`. */
  predicate SingleNumber(item: Json) {
    item.JArr? && |item.items| == 1 && IsNumber(item.items[0])
  }

  /** `all(...)` over a truthy value: lists are checked item by item; strings and objects yield strings. */
  function AllItems(x: Json, test: Json -> bool): (r: Check)
    requires Truthy(x)
    ensures r == Passes <==> x.JArr? && forall i :: 0 <= i < |x.items| ==> test(x.items[i])
    ensures r == Raises <==> x.JNum? || x.JBool?
  {
    match x
    case JArr(items) => if forall i :: 0 <= i < |items| ==> test(items[i]) then Passes else Fails
    case JStr(_) => Fails
    case JObj(_) => Fails
    case _ => Raises
  }

  /** `a and b and ...` over checks evaluated left to right: the first that fails or raises decides. */
  function AllOf(checks: seq<Check>): (r: Check)
    ensures r == Passes <==> forall i :: 0 <= i < |checks| ==> checks[i] == Passes
    ensures r != Passes ==> exists i :: 0 <= i < |checks| && checks[i] == r && forall j :: 0 <= j < i ==> checks[j] == Passes
    decreases |checks|
  {
    if checks == [] then Passes
    else if checks[0] != Passes then checks[0]
    else
      var r := AllOf(checks[1..]);
      assert forall i :: 1 <= i < |checks| ==> checks[i] == checks[1..][i - 1];
      assert r != Passes ==>
        var i :| 0 <= i < |checks[1..]| && checks[1..][i] == r && forall j :: 0 <= j < i ==> checks[1..][j] == Passes;
        checks[i + 1] == r && forall j :: 0 <= j < i + 1 ==> checks[j] == Passes;
      r
  }

  /** What happens to the regression plot of one file. */
  datatype RegressionPlot =
    | MissingData                                           // "Warning: Missing 'features', ..."
    | NotNumbers                                            // "Warning: ... are not valid lists of numbers."
    | RegressionRaises                                      // the loop's `except Exception`
    | RegressionLine(features: seq<real>, target: seq<real>, predictions: seq<real>)

  /** `[item[0] for item in x]` on a list of one-number lists. */
  function Flatten(items: seq<Json>): (r: seq<real>)
    requires forall i :: 0 <= i < |items| ==> items[i].JArr? && |items[i].items| == 1 && IsNumber(items[i].items[0])
    ensures |r| == |items|
    ensures forall i :: 0 <= i < |items| ==> r[i] == NumValue(items[i].items[0])
  {
    seq(|items|, i requires 0 <= i < |items| => NumValue(items[i].items[0]))
  }

  /** `data.get('features')`, `'target'` and `'predictions'` decide the regression plot. */
  function RegressionCheck(data: Json): (r: RegressionPlot)
    requires data.JObj?
    ensures r.RegressionLine? <==>
              var f, t, p := FieldOrNull(data, "features"), FieldOrNull(data, "target"), FieldOrNull(data, "predictions");
              f.JArr? && t.JArr? && p.JArr? && f.items != [] && t.items != [] && p.items != []
              && (forall i :: 0 <= i < |f.items| ==> SingleNumber(f.items[i]))
              && (forall i :: 0 <= i < |t.items| ==> SingleNumber(t.items[i]))
              && (forall i :: 0 <= i < |p.items| ==> SingleNumber(p.items[i]))
    ensures r.RegressionLine? ==>
              && |r.features| == |FieldOrNull(data, "features").items|
              && |r.target| == |FieldOrNull(data, "target").items|
              && |r.predictions| == |FieldOrNull(data, "predictions").items|
    ensures r == MissingData <==> !(Truthy(FieldOrNull(data, "features")) && Truthy(FieldOrNull(data, "target"))
                                    && Truthy(FieldOrNull(data, "predictions")))
  {
    var f, t, p := FieldOrNull(data, "features"), FieldOrNull(data, "target"), FieldOrNull(data, "predictions");
    if !(Truthy(f) && Truthy(t) && Truthy(p)) then MissingData
    else
      var checks := [AllItems(f, SingleNumber), AllItems(t, SingleNumber), AllItems(p, SingleNumber)];
      assert checks[0] == AllItems(f, SingleNumber) && checks[1] == AllItems(t, SingleNumber) && checks[2] == AllItems(p, SingleNumber);
      match AllOf(checks)
      case Passes => RegressionLine(Flatten(f.items), Flatten(t.items), Flatten(p.items))
      case Fails => NotNumbers
      case Raises => RegressionRaises
  }

  /** What happens to the loss and accuracy plots of one file. */
  datatype HistoryPlot =
    | MissingHistory                                        // "Warning: Missing 'loss_values', ..."
    | NotNumberLists                                        // "Warning: ... are not valid lists of numbers."
    | HistoryRaises                                         // the loop's `except Exception`
    | Curves(loss: seq<Json>, accuracy: seq<Json>, valLoss: seq<Json>, valAccuracy: seq<Json>)

  const HistoryKeys: seq<string> := ["loss_values", "accuracy_values", "val_loss_values", "val_accuracy_values"]

  /** `data.get(...)` for each of the four histories. */
  function Histories(data: Json): (r: seq<Json>)
    ensures |r| == |HistoryKeys| && forall k :: 0 <= k < |HistoryKeys| ==> r[k] == FieldOrNull(data, HistoryKeys[k])
  {
    seq(|HistoryKeys|, k requires 0 <= k < |HistoryKeys| => FieldOrNull(data, HistoryKeys[k]))
  }

  /** A non-empty list of numbers. */
  predicate NumberList(x: Json) {
    x.JArr? && x.items != [] && forall i :: 0 <= i < |x.items| ==> IsNumber(x.items[i])
  }

  /** The four training histories decide the loss and accuracy plots. */
  function HistoryCheck(data: Json): (r: HistoryPlot)
    requires data.JObj?
    ensures r.Curves? <==> forall k :: 0 <= k < 4 ==> NumberList(Histories(data)[k])
    ensures r.Curves? ==>
              && r.loss == Histories(data)[0].items && r.accuracy == Histories(data)[1].items
              && r.valLoss == Histories(data)[2].items && r.valAccuracy == Histories(data)[3].items
    ensures r == MissingHistory <==> exists k :: 0 <= k < 4 && !Truthy(Histories(data)[k])
  {
    var xs := Histories(data);
    if exists k :: 0 <= k < 4 && !Truthy(xs[k]) then MissingHistory
    else
      var checks := seq(4, k requires 0 <= k < 4 => AllItems(xs[k], IsNumber));
      match AllOf(checks)
      case Passes =>
        assert forall k :: 0 <= k < 4 ==> checks[k] == Passes && checks[k] == AllItems(xs[k], IsNumber);
        assert forall k :: 0 <= k < 4 ==> xs[k].JArr?;
        Curves(xs[0].items, xs[1].items, xs[2].items, xs[3].items)
      case Fails => NotNumberLists
      case Raises => HistoryRaises
  }
}
