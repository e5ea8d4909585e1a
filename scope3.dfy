/** The list of active Scope 3 categories on the simulation view: the
    container that the add-category button appends to, and what the
    simulation reads back from it. */
module Scope3 {
  import opened Wrappers
  import opened Text
  import opened Simulation

  /** Separator between a category's short name and its description in the
      option text of the category selector. */
  const FullwidthColon: char := '：'

  /** One `.category-slider-item`: its `data-cat` id when it has one, the
      short name shown in its label, the value of its slider (a range
      0..100), and whether that slider carries the `scope3-dyn-slider` class
      that the simulation sums. Items made by the add-category handler always
      have both; items already on the page need not. */
  datatype CategoryItem = CategoryItem(id: Option<string>, shortText: string, reduction: int, counted: bool)

  /** Display name of a category: the option text up to its first fullwidth colon. */
  function ShortText(catText: string): (r: string)
    ensures r <= catText && FullwidthColon !in r
    ensures |r| < |catText| ==> catText[|r|] == FullwidthColon
  {
    TextBefore(catText, FullwidthColon)
  }

  predicate HasId(items: seq<CategoryItem>, id: string)
  {
    exists k :: 0 <= k < |items| && items[k].id == Some(id)
  }

  /** No two items carry the same category id. */
  predicate DistinctIds(items: seq<CategoryItem>)
  {
    forall j, k :: 0 <= j < k < |items| && items[j].id.Some? ==> items[j].id != items[k].id
  }

  /** The values of the `.scope3-dyn-slider` inputs, in document order: one
      per counted item, none for the others. */
  function Reductions(items: seq<CategoryItem>): (r: seq<int>)
    ensures |r| <= |items|
    ensures (forall k :: 0 <= k < |items| ==> 0 <= items[k].reduction <= 100) ==> InPercentRange(r)
    ensures (forall k :: 0 <= k < |items| ==> items[k].counted) ==>
              |r| == |items| && forall k :: 0 <= k < |items| ==> r[k] == items[k].reduction
  {
    if items == [] then []
    else
      var last := items[|items| - 1];
      Reductions(items[..|items| - 1]) + (if last.counted then [last.reduction] else [])
  }

  /** Appending an item adds its slider value at the end exactly when it is counted. */
  lemma ReductionsAppend(items: seq<CategoryItem>, item: CategoryItem)
    ensures Reductions(items + [item]) == Reductions(items) + (if item.counted then [item.reduction] else [])
  {
    assert (items + [item])[..|items|] == items;
  }

  /** Well-formed item lists: distinct ids and every slider within its range. */
  predicate ValidItems(items: seq<CategoryItem>)
  {
    DistinctIds(items) && forall k :: 0 <= k < |items| ==> 0 <= items[k].reduction <= 100
  }

  class ActiveCategories {
    var items: seq<CategoryItem>

    ghost predicate Valid()
      reads this
    {
      ValidItems(items)
    }

    /** The list as the page first renders it. */
    constructor (initial: seq<CategoryItem>)
      requires ValidItems(initial)
      ensures Valid() && items == initial
    {
      items := initial;
    }

    /** `activeCategoriesCount()`: the number of category items on the page. */
    function Count(): (n: nat)
      reads this
      ensures n == |items|
    {
      |items|
    }

    /** The add-category handler. A category already present is rejected
        and nothing changes; otherwise a new item with its short name and a
        slider at 0 is appended at the end. */
    method Add(catId: string, catText: string) returns (added: bool)
      requires Valid()
      modifies this
      ensures Valid()
      ensures added <==> !HasId(old(items), catId)
      ensures added ==> items == old(items) + [CategoryItem(Some(catId), ShortText(catText), 0, true)]
      ensures added ==> Count() == old(Count()) + 1 && Reductions(items) == Reductions(old(items)) + [0]
      ensures !added ==> items == old(items)
    {
      if HasId(items, catId) {
        added := false;
        return;
      }
      var item := CategoryItem(Some(catId), ShortText(catText), 0, true);
      ReductionsAppend(items, item);
      items := items + [item];
      added := true;
    }

    /** The user drags the slider of the item at position `k`; a range
        input keeps its value between its `min` 0 and `max` 100. */
    method Slide(k: nat, value: int)
      requires Valid() && k < |items|
      modifies this
      ensures Valid()
      ensures |items| == |old(items)|
      ensures items[k] == old(items)[k].(reduction := if value < 0 then 0 else if value > 100 then 100 else value)
      ensures forall j :: 0 <= j < |items| && j != k ==> items[j] == old(items)[j]
    {
      var clamped := if value < 0 then 0 else if value > 100 then 100 else value;
      items := items[k := items[k].(reduction := clamped)];
    }

    /** `updateSimChart` as the page runs it: the counted sliders and the
        item count come from this list. With a non-negative price the projection is a
        loss that deepens year by year. */
    method Simulate(priceSlider: Option<int>, scenarioSelect: Option<string>) returns (r: Projection)
      requires Valid()
      ensures r == Project(ReadParams(priceSlider, scenarioSelect, Reductions(items), Count()))
      ensures (priceSlider.None? || priceSlider.value >= 0) ==>
                (forall i :: 0 <= i < |r.points| ==> r.points[i].impact <= 0.0)
                && (forall i :: 0 < i < |r.points| ==> r.points[i].impact <= r.points[i - 1].impact)
    {
      var p := ReadParams(priceSlider, scenarioSelect, Reductions(items), Count());
      r := Project(p);
      if p.carbonPrice >= 0 {
        assert WellFormed(p);
        ImpactNonPositiveAndGrowing(p);
        forall i | 0 < i < |r.points|
          ensures r.points[i].impact <= r.points[i - 1].impact
        {
          assert r.points[(i - 1) + 1].impact <= r.points[i - 1].impact;
        }
      }
    }
  }
}
