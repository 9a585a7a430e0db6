/** `selectBestFood`: filter the slot's catalog by diet preference, rank, take the first. */
module Selector {
  import opened Results
  import opened Foods
  import opened Ranking

  datatype SelectError = NoCandidate

  /**
   * `x` is a right answer of `selectBestFood`: a catalog item and candidate
   * honouring the diet preference, the head of the stably sorted candidates, ranked behind no
   * candidate, and within budget whenever some candidate is.
   */
  ghost predicate IsBestPick(foods: seq<FoodItem>, pref: DietPreference, coin: bool,
                             target: real, maxBudget: real, x: FoodItem)
  {
    var candidates := Candidates(foods, pref, coin);
    && x in foods
    && DietRespected(foods, pref, coin, x)
    && candidates != []
    && x in candidates
    && x == SortByRank(candidates, target, maxBudget)[0]
    && (forall y :: y in candidates ==> !RankLess(y, x, target, maxBudget))
    && ((exists y :: y in candidates && y.price <= maxBudget) ==> x.price <= maxBudget)
  }

  /**
   * Picks the food for one slot. `coin` stands for `Math.random() > 0.5` and is
   * only consulted when `pref` is `Both`. Where `selectBestFood` reads index 0 of
   * an empty list, this returns `Failure(NoCandidate)`.
   */
  method SelectBestFood(foods: seq<FoodItem>, target: real, maxBudget: real,
                        pref: DietPreference, coin: bool)
    returns (r: Result<FoodItem, SelectError>)
    ensures r.Failure? <==> !Selectable(foods, pref)
    ensures r.Success? ==> IsBestPick(foods, pref, coin, target, maxBudget, r.value)
  {
    var filtered := foods;
    match pref {
      case VegOnly =>
        filtered := OfType(foods, Veg);
      case NonVegOnly =>
        filtered := OfType(foods, NonVeg);
      case Both =>
        var vegItems := OfType(foods, Veg);
        var nonVegItems := OfType(foods, NonVeg);
        filtered := if coin then nonVegItems else vegItems;
        if |filtered| == 0 {
          filtered := if |vegItems| > 0 then vegItems else nonVegItems;
        }
    }
    if |filtered| == 0 {
      filtered := OfType(foods, Veg);
    }
    assert filtered == Candidates(foods, pref, coin);
    CandidatesNonEmptyIff(foods, pref, coin);
    CandidatesRespectDiet(foods, pref, coin);
    if |filtered| == 0 {
      return Failure(NoCandidate);
    }
    var k := FirstBestIndex(filtered, target, maxBudget);
    SortHeadIsFirstBest(filtered, k, target, maxBudget);
    r := Success(filtered[k]);
  }
}
