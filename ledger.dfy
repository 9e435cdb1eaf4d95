/**
 * The result ledger `result_list.json` of the server: a JSON list of result
 * items `{id, tries, isRunAll, start, experiments, end?}`.  This module holds
 * what the request handlers compute from it: the next item id, the item a
 * request creates, and the "first item whose id matches" update that both
 * `append_experiment_to_result_list` and `update_result_item` perform.
 * An uncaught Python exception is a `None` result.
 */
module Ledger {
  import opened Wrappers
  import opened Dicts
  import opened JsonValues

  const LedgerPath := "result_list.json"

  /** `get_result_list()`: the stored document, or `[]` when the file is missing or is not valid JSON. */
  function LoadLedger(disk: Disk): (r: Json)
    ensures LedgerPath !in disk || disk[LedgerPath].Unparseable? ==> r == JArr([])
    ensures LedgerPath in disk && disk[LedgerPath].Stored? ==> r == disk[LedgerPath].content
  {
    if LedgerPath in disk && disk[LedgerPath].Stored? then disk[LedgerPath].content else JArr([])
  }

  // ---------------------------------------------------------------------
  // new_result_item
  // ---------------------------------------------------------------------

  /** An item `x['id']` can be read from and added to: an object with a number under "id". */
  predicate HasNumericId(item: Json) {
    item.JObj? && Field(item, "id").Some? && IsNumber(Field(item, "id").value)
  }

  function IdOf(item: Json): real
    requires HasNumericId(item)
  {
    NumValue(Field(item, "id").value)
  }

  /** The largest id: the id of `sorted(data, key=lambda x: x['id'])[-1]`. */
  function MaxId(items: seq<Json>): (r: real)
    requires items != [] && forall i :: 0 <= i < |items| ==> HasNumericId(items[i])
    ensures forall i :: 0 <= i < |items| ==> IdOf(items[i]) <= r
    ensures exists i :: 0 <= i < |items| && IdOf(items[i]) == r
    decreases |items|
  {
    var first := IdOf(items[0]);
    if |items| == 1 then first
    else
      var tail := items[1..];
      assert forall i :: 0 <= i < |tail| ==> tail[i] == items[i + 1];
      var after := MaxId(tail);
      MaxOfCons(items, after);
      if after < first then first else after
  }

  /** The larger of the head's id and the tail's largest id is the largest id of the list. */
  lemma MaxOfCons(items: seq<Json>, after: real)
    requires |items| >= 2 && forall i :: 0 <= i < |items| ==> HasNumericId(items[i])
    requires forall i :: 0 <= i < |items| - 1 ==> IdOf(items[1..][i]) <= after
    requires exists i :: 0 <= i < |items| - 1 && IdOf(items[1..][i]) == after
    ensures var r := if after < IdOf(items[0]) then IdOf(items[0]) else after;
            && (forall i :: 0 <= i < |items| ==> IdOf(items[i]) <= r)
            && exists i :: 0 <= i < |items| && IdOf(items[i]) == r
  {
    var tail := items[1..];
    var w :| 0 <= w < |tail| && IdOf(tail[w]) == after;
    assert IdOf(items[w + 1]) == after;
    forall i | 1 <= i < |items| ensures IdOf(items[i]) <= after { assert items[i] == tail[i - 1]; }
  }

  /**
   * The id `new_result_item` gives: 1 for an empty list, the largest id plus
   * one otherwise; `None` where sorting by `x['id']` or adding 1 raises,
   * which happens exactly when some item is not an object with a numeric id.
   */
  function NewId(items: seq<Json>): (r: Option<real>)
    ensures r.Some? <==> forall i :: 0 <= i < |items| ==> HasNumericId(items[i])
    ensures r.Some? ==> forall i :: 0 <= i < |items| ==> IdOf(items[i]) < r.value
    ensures r.Some? && items == [] ==> r.value == 1.0
    ensures r.Some? && items != [] ==> exists i :: 0 <= i < |items| && r.value == IdOf(items[i]) + 1.0
  {
    if forall i :: 0 <= i < |items| ==> HasNumericId(items[i]) then
      Some(if items == [] then 1.0 else MaxId(items) + 1.0)
    else None
  }

  /** A query value that may be absent becomes JSON `null`, as `None` does. */
  function OptionalText(v: Option<string>): Json {
    match v
    case None => JNull
    case Some(s) => JStr(s)
  }

  /** `{'id': ..., 'tries': ..., "isRunAll": ..., "start": ..., 'experiments': []}`. */
  function NewItem(id: real, tries: int, isRunAll: Option<string>, start: Option<string>): (r: Json)
    ensures r.JObj? && Keys(r.fields) == ["id", "tries", "isRunAll", "start", "experiments"]
    ensures Field(r, "id") == Some(JNum(id)) && Field(r, "experiments") == Some(JArr([]))
  {
    JObj([("id", JNum(id)), ("tries", JNum(tries as real)), ("isRunAll", OptionalText(isRunAll)),
          ("start", OptionalText(start)), ("experiments", JArr([]))])
  }

  /** An item built with id `id` has a numeric id, and it is `id`. */
  lemma NewItemId(id: real, tries: int, isRunAll: Option<string>, start: Option<string>)
    ensures HasNumericId(NewItem(id, tries, isRunAll, start)) && IdOf(NewItem(id, tries, isRunAll, start)) == id
  {
  }

  /** Saving the ledger with one item appended is read back as that list. */
  lemma SaveAppended(disk: Disk, items: seq<Json>, item: Json)
    ensures var saved := LoadLedger(disk[LedgerPath := Stored(JArr(items + [item]))]);
            && saved == JArr(items + [item])
            && |saved.items| == |items| + 1 && saved.items[..|items|] == items && saved.items[|items|] == item
  {
    assert (items + [item])[..|items|] == items;
  }

  // ---------------------------------------------------------------------
  // The first-match update
  // ---------------------------------------------------------------------

  /** `item.get('id') == key` for an item that has `get`. */
  predicate Matches(item: Json, key: Json) {
    item.JObj? && PyEq(FieldOrNull(item, "id"), key)
  }

  /** No item before position `j` matches: the loop reaches item `j`. */
  predicate NoMatchBefore(items: seq<Json>, key: Json, j: int)
    requires 0 <= j <= |items|
  {
    forall i :: 0 <= i < j ==> !Matches(items[i], key)
  }

  /** Item `j` is the one the loop stops at. */
  predicate IsFirstMatch(items: seq<Json>, key: Json, j: int) {
    0 <= j < |items| && Matches(items[j], key) && NoMatchBefore(items, key, j)
  }

  /** Reaching item `j + 1` is passing the first item and then reaching item `j` of the rest. */
  lemma NoMatchBeforeShift(items: seq<Json>, key: Json, j: int)
    requires items != [] && 0 <= j < |items|
    ensures NoMatchBefore(items, key, j + 1) <==> !Matches(items[0], key) && NoMatchBefore(items[1..], key, j)
  {
    var tail := items[1..];
    assert forall i :: 0 <= i < |tail| ==> tail[i] == items[i + 1];
    if !Matches(items[0], key) && NoMatchBefore(tail, key, j) {
      forall i | 0 <= i < j + 1 ensures !Matches(items[i], key) {
        if i > 0 { assert items[i] == tail[i - 1]; }
      }
    }
  }

  /** What is done to the matching item. */
  datatype Update =
      /** `item['experiments'].append(experiment)`, or `item['experiments'] = [experiment]` when that is not a list. */
    | AttachExperiment(experiment: Json)
      /** `item['end'] = data['end']`; `None` when the body has no "end" (`KeyError`). */
    | SetEnd(end: Option<Json>)

  function ApplyUpdate(u: Update, item: Json): (r: Option<Json>)
    requires item.JObj?
    ensures r.Some? <==> !(u.SetEnd? && u.end.None?)
    ensures r.Some? ==> r.value.JObj?
  {
    match u
    case AttachExperiment(e) =>
      (match Field(item, "experiments")
       case Some(JArr(xs)) => Some(SetField(item, "experiments", JArr(xs + [e])))
       case _ => Some(SetField(item, "experiments", JArr([e]))))
    case SetEnd(end) =>
      if end.None? then None else Some(SetField(item, "end", end.value))
  }

  /**
   * `for item in items: if item.get('id') == key: <update>; break`.  `None`
   * where an item before the match has no `get`, where the key is missing
   * (`KeyError`, raised at the first comparison), or where the update raises.
   */
  function UpdateFirst(items: seq<Json>, key: Option<Json>, u: Update): (r: Option<seq<Json>>)
    decreases |items|
  {
    if items == [] then Some([])
    else if !items[0].JObj? || key.None? then None
    else if PyEq(FieldOrNull(items[0], "id"), key.value) then
      match ApplyUpdate(u, items[0])
      case None => None
      case Some(item) => Some([item] + items[1..])
    else
      match UpdateFirst(items[1..], key, u)
      case None => None
      case Some(rest) => Some([items[0]] + rest)
  }

  /** The items before position `i`, followed by the outcome of the loop from there. */
  function Prepend(xs: seq<Json>, r: Option<seq<Json>>): Option<seq<Json>> {
    match r
    case None => None
    case Some(ys) => Some(xs + ys)
  }

  /** The loop from position `i`: the item there decides, or the loop goes on from `i + 1`. */
  lemma UpdateFirstAt(items: seq<Json>, key: Option<Json>, u: Update, i: nat)
    requires i < |items|
    ensures UpdateFirst(items[i..], key, u) ==
              if !items[i].JObj? || key.None? then None
              else if PyEq(FieldOrNull(items[i], "id"), key.value) then
                (match ApplyUpdate(u, items[i])
                 case None => None
                 case Some(item) => Some([item] + items[i + 1..]))
              else Prepend([items[i]], UpdateFirst(items[i + 1..], key, u))
  {
    assert items[i..][0] == items[i] && items[i..][1..] == items[i + 1..];
  }

  lemma PrependTwice(xs: seq<Json>, ys: seq<Json>, r: Option<seq<Json>>)
    ensures Prepend(xs, Prepend(ys, r)) == Prepend(xs + ys, r)
  {
    if r.Some? {
      assert xs + (ys + r.value) == (xs + ys) + r.value;
    }
  }

  /** What `for item in value` iterates over: a list's items, an object's keys, a string's characters. */
  function Iterated(value: Json): (r: Option<seq<Json>>)
    ensures value.JArr? ==> r == Some(value.items)
    ensures r.Some? && !value.JArr? ==> forall i :: 0 <= i < |r.value| ==> r.value[i].JStr?
  {
    match value
    case JArr(items) => Some(items)
    case JObj(fields) => Some(seq(|fields|, i requires 0 <= i < |fields| => JStr(fields[i].0)))
    case JStr(s) => Some(seq(|s|, i requires 0 <= i < |s| => JStr([s[i]])))
    case _ => None
  }

  /** The loaded ledger after the loop, as it is saved; `None` where the loop raises. */
  function UpdateLedger(ledger: Json, key: Option<Json>, u: Update): Option<Json> {
    match Iterated(ledger)
    case None => None
    case Some(items) =>
      match UpdateFirst(items, key, u)
      case None => None
      case Some(updated) => Some(if ledger.JArr? then JArr(updated) else ledger)
  }

  // ---------------------------------------------------------------------
  // Properties of the first-match update
  // ---------------------------------------------------------------------

  /**
   * The loop completes exactly when the key is there (or the list is empty),
   * every item up to the first match is an object, and the update of that
   * match does not raise.
   */
  lemma {:induction false} UpdateFirstSucceeds(items: seq<Json>, key: Option<Json>, u: Update)
    ensures UpdateFirst(items, key, u).Some? <==>
              && (items == [] || key.Some?)
              && (forall j :: 0 <= j < |items| && NoMatchBefore(items, key.value, j) ==> items[j].JObj?)
              && (forall j :: key.Some? && IsFirstMatch(items, key.value, j) ==> ApplyUpdate(u, items[j]).Some?)
    decreases |items|
  {
    if items != [] && key.Some? {
      var k := key.value;
      assert NoMatchBefore(items, k, 0);
      if items[0].JObj? && !Matches(items[0], k) {
        var tail := items[1..];
        UpdateFirstSucceeds(tail, key, u);
        forall j | 0 <= j < |tail|
          ensures NoMatchBefore(items, k, j + 1) <==> NoMatchBefore(tail, k, j)
          ensures IsFirstMatch(items, k, j + 1) <==> IsFirstMatch(tail, k, j)
        {
          NoMatchBeforeShift(items, k, j);
        }
        assert !IsFirstMatch(items, k, 0);
        assert forall j :: 0 < j < |items| ==> items[j] == tail[j - 1];
        if UpdateFirst(tail, key, u).None? {
          if forall j :: 0 <= j < |tail| && NoMatchBefore(tail, k, j) ==> tail[j].JObj? {
            var j :| IsFirstMatch(tail, k, j) && ApplyUpdate(u, tail[j]).None?;
            assert IsFirstMatch(items, k, j + 1);
          } else {
            var j :| 0 <= j < |tail| && NoMatchBefore(tail, k, j) && !tail[j].JObj?;
            assert NoMatchBefore(items, k, j + 1);
          }
        }
      } else if items[0].JObj? {
        assert IsFirstMatch(items, k, 0);
      }
    }
  }

  /**
   * A completed loop keeps the length and every item but the first match,
   * which it replaces by its update; with no match the list is unchanged.
   */
  lemma {:induction false} UpdateFirstShape(items: seq<Json>, key: Option<Json>, u: Update)
    requires UpdateFirst(items, key, u).Some?
    ensures items != [] ==> key.Some?
    ensures var r := UpdateFirst(items, key, u).value;
            && |r| == |items|
            && forall j :: 0 <= j < |items| ==>
                 if IsFirstMatch(items, key.value, j) then ApplyUpdate(u, items[j]) == Some(r[j]) else r[j] == items[j]
    decreases |items|
  {
    if items != [] {
      if Matches(items[0], key.value) {
        ShapeAtHead(items, key.value, u);
      } else {
        UpdateFirstShape(items[1..], key, u);
        ShapeAfterHead(items, key.value, u);
      }
    }
  }

  /** A matching head is the item replaced, and the rest of the list is kept. */
  lemma ShapeAtHead(items: seq<Json>, k: Json, u: Update)
    requires items != [] && Matches(items[0], k) && UpdateFirst(items, Some(k), u).Some?
    ensures var r := UpdateFirst(items, Some(k), u).value;
            && |r| == |items|
            && forall j :: 0 <= j < |items| ==>
                 if IsFirstMatch(items, k, j) then ApplyUpdate(u, items[j]) == Some(r[j]) else r[j] == items[j]
  {
    var r := UpdateFirst(items, Some(k), u).value;
    var v := ApplyUpdate(u, items[0]).value;
    assert r == [v] + items[1..];
    assert NoMatchBefore(items, k, 0);
    FirstMatchUnique(items, k, 0);
    forall j | 0 < j < |items| ensures !IsFirstMatch(items, k, j) && r[j] == items[j] {
      assert r[j] == items[1..][j - 1];
    }
  }

  /** A head that does not match is kept, and the tail's shape carries over one position later. */
  lemma ShapeAfterHead(items: seq<Json>, k: Json, u: Update)
    requires items != [] && !Matches(items[0], k) && UpdateFirst(items, Some(k), u).Some?
    requires var rest := UpdateFirst(items[1..], Some(k), u);
             && rest.Some? && |rest.value| == |items| - 1
             && forall j :: 0 <= j < |items| - 1 ==>
                  if IsFirstMatch(items[1..], k, j) then ApplyUpdate(u, items[1..][j]) == Some(rest.value[j])
                  else rest.value[j] == items[1..][j]
    ensures var r := UpdateFirst(items, Some(k), u).value;
            && |r| == |items|
            && forall j :: 0 <= j < |items| ==>
                 if IsFirstMatch(items, k, j) then ApplyUpdate(u, items[j]) == Some(r[j]) else r[j] == items[j]
  {
    var tail := items[1..];
    var r := UpdateFirst(items, Some(k), u).value;
    var rest := UpdateFirst(tail, Some(k), u).value;
    assert r == [items[0]] + rest;
    assert !IsFirstMatch(items, k, 0);
    forall j | 0 < j < |items|
      ensures if IsFirstMatch(items, k, j) then ApplyUpdate(u, items[j]) == Some(r[j]) else r[j] == items[j]
    {
      NoMatchBeforeShift(items, k, j - 1);
      assert items[j] == tail[j - 1] && r[j] == rest[j - 1];
    }
  }

  /** The loop stops at the first match: no other item is a first match, and no later item is reached. */
  lemma FirstMatchUnique(items: seq<Json>, key: Json, j: int)
    requires IsFirstMatch(items, key, j)
    ensures forall i :: 0 <= i < |items| && i != j ==> !IsFirstMatch(items, key, i)
    ensures forall i :: j < i <= |items| ==> !NoMatchBefore(items, key, i)
  {
    forall i | j < i <= |items| ensures !NoMatchBefore(items, key, i) {
      assert 0 <= j < i && Matches(items[j], key);
    }
    forall i | 0 <= i < j ensures !IsFirstMatch(items, key, i) {
      assert !Matches(items[i], key);
    }
  }

  /** Replacing item `i` is keeping the items before it, the new one, and the items after it. */
  lemma SpliceAt<T>(items: seq<T>, i: nat, v: T)
    requires i < |items|
    ensures items[..i] + ([v] + items[i + 1..]) == items[i := v]
  {
  }

  lemma ReplaceHead<T>(items: seq<T>, v: T)
    requires items != []
    ensures [v] + items[1..] == items[0 := v]
  {
  }

  /** Replacing an item after the head is replacing it in the tail. */
  lemma ReplaceInTail<T>(items: seq<T>, j: nat, v: T)
    requires 0 < j < |items|
    ensures [items[0]] + items[1..][j - 1 := v] == items[j := v]
  {
  }

  /** An object that does not match is passed over and kept. */
  lemma UpdateFirstPass(items: seq<Json>, key: Json, u: Update)
    requires items != [] && items[0].JObj? && !Matches(items[0], key)
    ensures UpdateFirst(items, Some(key), u) == Prepend([items[0]], UpdateFirst(items[1..], Some(key), u))
  {
  }

  /** A first match after the head is the first match of the tail, one position earlier. */
  lemma FirstMatchTail(items: seq<Json>, key: Json, j: nat)
    requires IsFirstMatch(items, key, j) && forall i :: 0 <= i < j ==> items[i].JObj?
    requires j > 0
    ensures items[0].JObj? && !Matches(items[0], key)
    ensures IsFirstMatch(items[1..], key, j - 1) && forall i :: 0 <= i < j - 1 ==> items[1..][i].JObj?
  {
    assert !Matches(items[0], key);
    NoMatchBeforeShift(items, key, j - 1);
    assert items[1..][j - 1] == items[j];
    assert forall i :: 0 <= i < j - 1 ==> items[1..][i] == items[i + 1];
  }

  /**
   * When the loop reaches the first match (every item before it is an
   * object) and its update succeeds, the first match is replaced by its
   * update where it stands.
   */
  lemma {:induction false} UpdateAtFirstMatch(items: seq<Json>, key: Json, u: Update, j: nat, v: Json)
    requires IsFirstMatch(items, key, j) && forall i :: 0 <= i < j ==> items[i].JObj?
    requires ApplyUpdate(u, items[j]) == Some(v)
    ensures UpdateFirst(items, Some(key), u) == Some(items[j := v])
    decreases |items|
  {
    if j == 0 {
      assert Matches(items[0], key);
      ReplaceHead(items, v);
    } else {
      var tail := items[1..];
      FirstMatchTail(items, key, j);
      UpdateFirstPass(items, key, u);
      UpdateAtFirstMatch(tail, key, u, j - 1, v);
      ReplaceInTail(items, j, v);
    }
  }

  /** With no item matching, a completed loop leaves the ledger as it was loaded. */
  lemma NoMatchUnchanged(ledger: Json, key: Option<Json>, u: Update)
    requires UpdateLedger(ledger, key, u).Some?
    requires ledger.JArr? ==> forall j :: 0 <= j < |ledger.items| ==> !Matches(ledger.items[j], key.value)
    ensures UpdateLedger(ledger, key, u) == Some(ledger)
  {
    if ledger.JArr? {
      var items := ledger.items;
      UpdateFirstShape(items, key, u);
      var r := UpdateFirst(items, key, u).value;
      assert r == items;
    }
  }

  /** The "experiments" list of an item before the append: the list itself, or nothing when it is missing or not a list. */
  function PriorExperiments(item: Json): seq<Json> {
    match Field(item, "experiments")
    case Some(JArr(xs)) => xs
    case _ => []
  }

  /**
   * Attaching an experiment: the item's "experiments" list gains exactly that
   * experiment at its end (no deduplication), or becomes `[experiment]` when
   * it was missing or not a list; every other field is kept.
   */
  lemma AttachExperimentFields(item: Json, e: Json, k: string)
    requires item.JObj?
    ensures var r := ApplyUpdate(AttachExperiment(e), item).value;
            && Field(r, "experiments") == Some(JArr(PriorExperiments(item) + [e]))
            && (k != "experiments" ==> Field(r, k) == Field(item, k))
  {
    AttachIsSet(item, e);
    GetSet(item.fields, "experiments", JArr(PriorExperiments(item) + [e]), k);
  }

  /** Both branches of the attachment set "experiments" to the prior list extended by the experiment. */
  lemma AttachIsSet(item: Json, e: Json)
    requires item.JObj?
    ensures ApplyUpdate(AttachExperiment(e), item) == Some(SetField(item, "experiments", JArr(PriorExperiments(item) + [e])))
  {
    var f := Field(item, "experiments");
    if !(f.Some? && f.value.JArr?) {
      assert PriorExperiments(item) + [e] == [e];
    }
  }

  /** Setting the end time changes the "end" field and no other. */
  lemma SetEndFields(item: Json, end: Json, k: string)
    requires item.JObj?
    ensures var r := ApplyUpdate(SetEnd(Some(end)), item).value;
            Field(r, "end") == Some(end) && (k != "end" ==> Field(r, k) == Field(item, k))
  {
    GetSet(item.fields, "end", end, k);
  }
}
