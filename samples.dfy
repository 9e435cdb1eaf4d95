/**
 * The three dataset sizes every driver offers.  The page's buttons and the
 * server's `dataset` parameter select them as 1, 2 and 3; the files and the
 * reports name them by percentage: 10%, 50% and 100%.
 */
module Samples {
  import opened Wrappers
  import opened Strings

  /** The percentage a selector stands for. */
  function SelectorPercent(selector: int): (r: Option<nat>)
    ensures r.Some? <==> 1 <= selector <= 3
    ensures r.Some? ==> r.value in {10, 50, 100}
  {
    if selector == 1 then Some(10)
    else if selector == 2 then Some(50)
    else if selector == 3 then Some(100)
    else None
  }

  /** `sample_<pct>%`, the stem shared by the dataset files and the result files. */
  function SampleName(pct: nat): (r: string)
    ensures StartsWith(r, "sample_") && r[|r| - 1] == '%'
  {
    "sample_" + NatToString(pct) + "%"
  }

  /** The dataset a linear-regression button names: `house_price/sample_<pct>%.csv`. */
  function HousePricePath(pct: nat): string {
    "house_price/" + SampleName(pct) + ".csv"
  }

  /** Removing the first "house_price/" from a dataset path leaves `sample_<pct>%.csv`. */
  lemma DatasetRest(pct: nat)
    ensures RemoveFirst(HousePricePath(pct), "house_price/") == SampleName(pct) + ".csv"
  {
    var rest := SampleName(pct) + ".csv";
    assert HousePricePath(pct) == [] + "house_price/" + rest;
    RemoveFirstAfter([], "house_price/", rest);
    assert [] + rest == rest;
  }

  /** The three sizes in the order the CSV report writes them. */
  const SizeOrder: seq<string> := ["10%", "50%", "100%"]
}
