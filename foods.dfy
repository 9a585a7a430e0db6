/**
 * Catalog entries and the diet-preference filter that `selectBestFood`
 * applies before ranking.
 */
module Foods {

  datatype DietType = Veg | NonVeg

  datatype DietPreference = VegOnly | NonVegOnly | Both

  /** One catalog entry. `quantity` and `recipe` are descriptive text only. */
  datatype FoodItem = FoodItem(
    name: string,
    quantity: string,
    calories: real,
    protein: real,
    carbs: real,
    fats: real,
    fiber: real,
    price: real,
    diet: DietType,
    recipe: string)

  /** `foods.filter(food => food.type === t)`: the items of one diet type, in catalog order. */
  function OfType(foods: seq<FoodItem>, t: DietType): (r: seq<FoodItem>)
    ensures forall x :: x in r <==> x in foods && x.diet == t
    ensures |r| <= |foods|
  {
    if foods == [] then []
    else if foods[0].diet == t then [foods[0]] + OfType(foods[1..], t)
    else OfType(foods[1..], t)
  }

  /** A one-item catalog keeps its item exactly when the type matches. */
  lemma OfTypeSingle(x: FoodItem, t: DietType)
    ensures OfType([x], t) == if x.diet == t then [x] else []
  {
    assert [x][1..] == [];
  }

  /**
   * Filtering a concatenation filters each part and keeps the parts in order;
   * with `OfTypeSingle` this fixes the result as the in-order subsequence of
   * the matching items, which the stable tie-break relies on.
   */
  lemma {:induction false} OfTypeAppend(a: seq<FoodItem>, b: seq<FoodItem>, t: DietType)
    ensures OfType(a + b, t) == OfType(a, t) + OfType(b, t)
  {
    if a == [] {
      assert a + b == b;
    } else {
      assert (a + b)[0] == a[0];
      assert (a + b)[1..] == a[1..] + b;
      OfTypeAppend(a[1..], b, t);
    }
  }

  /** Every item is either veg or non-veg, so the two filters split the catalog. */
  lemma {:induction false} OfTypePartition(foods: seq<FoodItem>)
    ensures |OfType(foods, Veg)| + |OfType(foods, NonVeg)| == |foods|
  {
    if foods != [] {
      OfTypePartition(foods[1..]);
    }
  }

  /**
   * The list `selectBestFood` sorts, after its filter steps and fallbacks.
   * `coin` is the outcome of `Math.random() > 0.5`, consulted only for `Both`.
   */
  function Candidates(foods: seq<FoodItem>, pref: DietPreference, coin: bool): (r: seq<FoodItem>)
    ensures r == OfType(foods, Veg) || r == OfType(foods, NonVeg)
    ensures pref == VegOnly ==> r == OfType(foods, Veg)
    ensures pref == NonVegOnly && OfType(foods, NonVeg) != [] ==> r == OfType(foods, NonVeg)
    ensures pref == Both && coin && OfType(foods, NonVeg) != [] ==> r == OfType(foods, NonVeg)
    ensures pref == Both && !coin && OfType(foods, Veg) != [] ==> r == OfType(foods, Veg)
    ensures pref != VegOnly && OfType(foods, Veg) == [] ==> r == OfType(foods, NonVeg)
  {
    var vegItems := OfType(foods, Veg);
    var nonVegItems := OfType(foods, NonVeg);
    var chosen :=
      match pref
      case VegOnly => vegItems
      case NonVegOnly => nonVegItems
      case Both =>
        var pick := if coin then nonVegItems else vegItems;
        if |pick| == 0 then (if |vegItems| > 0 then vegItems else nonVegItems) else pick;
    if |chosen| == 0 then vegItems else chosen
  }

  /** Whether the filter and its fallbacks leave anything to choose from. */
  predicate Selectable(foods: seq<FoodItem>, pref: DietPreference)
  {
    foods != [] && (pref == VegOnly ==> exists x :: x in foods && x.diet == Veg)
  }

  /** The diet type an item must have to honour the preference, given the catalog and the coin. */
  predicate DietRespected(foods: seq<FoodItem>, pref: DietPreference, coin: bool, x: FoodItem)
  {
    var hasVeg := exists y :: y in foods && y.diet == Veg;
    var hasNonVeg := exists y :: y in foods && y.diet == NonVeg;
    match pref
    case VegOnly => x.diet == Veg
    case NonVegOnly => x.diet == NonVeg || !hasNonVeg
    case Both => if coin then x.diet == NonVeg || !hasNonVeg else x.diet == Veg || !hasVeg
  }

  /** Every candidate comes from the catalog and honours the diet preference. */
  lemma CandidatesRespectDiet(foods: seq<FoodItem>, pref: DietPreference, coin: bool)
    ensures forall x :: x in Candidates(foods, pref, coin) ==>
              x in foods && DietRespected(foods, pref, coin, x)
  {
  }

  /** There is a candidate exactly when the catalog is selectable for the preference. */
  lemma CandidatesNonEmptyIff(foods: seq<FoodItem>, pref: DietPreference, coin: bool)
    ensures Candidates(foods, pref, coin) != [] <==> Selectable(foods, pref)
  {
    var vegItems := OfType(foods, Veg);
    var nonVegItems := OfType(foods, NonVeg);
    OfTypePartition(foods);
    assert (exists y :: y in foods && y.diet == Veg) <==> |vegItems| > 0 by {
      if |vegItems| > 0 { assert vegItems[0] in vegItems; }
    }
  }
}
