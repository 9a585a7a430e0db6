/**
 * `generateMealPlan` and its surroundings: the five meal slots, the fixed
 * calorie and budget shares, the per-field totals of the picks, the budget
 * status line, the `handleSubmit` guard, and the lose/gain display values of
 * the src copy.
 */
module Plan {
  import opened Results
  import opened Energy
  import opened Foods
  import opened Ranking
  import opened Selector

  datatype Slot = Breakfast | Lunch | Dinner | Snack | Drink {
    /** Position in the order the plan is built and summed. */
    function Order(): nat
    {
      match this
      case Breakfast => 0
      case Lunch => 1
      case Dinner => 2
      case Snack => 3
      case Drink => 4
    }
  }

  const AllSlots: seq<Slot> := [Breakfast, Lunch, Dinner, Snack, Drink]

  /** One value per meal slot: the shape of the distributions, the catalog and the meal plan. */
  datatype PerSlot<T> = PerSlot(breakfast: T, lunch: T, dinner: T, snack: T, drink: T) {
    function Get(s: Slot): T
    {
      match s
      case Breakfast => breakfast
      case Lunch => lunch
      case Dinner => dinner
      case Snack => snack
      case Drink => drink
    }
  }

  /** Sum of a per-slot quantity over a list of slots. */
  function SumOver(slots: seq<Slot>, v: PerSlot<real>): real
  {
    if slots == [] then 0.0 else v.Get(slots[0]) + SumOver(slots[1..], v)
  }

  /** Summing over all five slots adds the five fields. */
  lemma SumOverAllSlots(v: PerSlot<real>)
    ensures SumOver(AllSlots, v) == v.breakfast + v.lunch + v.dinner + v.snack + v.drink
  {
    assert [Drink][1..] == [];
    assert SumOver([Drink], v) == v.drink;
    assert [Snack, Drink][1..] == [Drink];
    assert SumOver([Snack, Drink], v) == v.snack + v.drink;
    assert [Dinner, Snack, Drink][1..] == [Snack, Drink];
    assert SumOver([Dinner, Snack, Drink], v) == v.dinner + v.snack + v.drink;
    assert [Lunch, Dinner, Snack, Drink][1..] == [Dinner, Snack, Drink];
    assert SumOver([Lunch, Dinner, Snack, Drink], v) == v.lunch + v.dinner + v.snack + v.drink;
    assert AllSlots[1..] == [Lunch, Dinner, Snack, Drink];
  }

  datatype Split = CalorieSplit | BudgetSplit

  /** The fraction of the daily calories or of the daily budget given to a slot. */
  function Shares(split: Split): (shares: PerSlot<real>)
    ensures forall s: Slot :: 0.0 < shares.Get(s) < 1.0
  {
    match split
    case CalorieSplit => PerSlot(0.25, 0.35, 0.3, 0.07, 0.03)
    case BudgetSplit => PerSlot(0.2, 0.35, 0.3, 0.1, 0.05)
  }

  /** Both share tables add up to one. */
  lemma SharesSumToOne(split: Split)
    ensures SumOver(AllSlots, Shares(split)) == 1.0
  {
  }

  /**
   * `calorieDistribution` / `budgetDistribution`: each slot gets its share of
   * the amount, and the five slot amounts add up to the whole amount.
   */
  function Distribute(split: Split, amount: real): (d: PerSlot<real>)
    ensures forall s: Slot :: d.Get(s) == amount * Shares(split).Get(s)
    ensures SumOver(AllSlots, d) == amount
  {
    var shares := Shares(split);
    var d := PerSlot(amount * shares.breakfast, amount * shares.lunch, amount * shares.dinner,
                     amount * shares.snack, amount * shares.drink);
    SumOverAllSlots(d);
    SharesSumToOne(split);
    SumOverAllSlots(shares);
    d
  }

  datatype Field = Calories | Protein | Carbs | Fats | Fiber | Price

  function FieldValue(x: FoodItem, f: Field): real
  {
    match f
    case Calories => x.calories
    case Protein => x.protein
    case Carbs => x.carbs
    case Fats => x.fats
    case Fiber => x.fiber
    case Price => x.price
  }

  /** The sum of one field over the picked meals. */
  function Total(meals: PerSlot<FoodItem>, f: Field): real
  {
    SumOver(AllSlots, PerSlot(FieldValue(meals.breakfast, f), FieldValue(meals.lunch, f),
                              FieldValue(meals.dinner, f), FieldValue(meals.snack, f),
                              FieldValue(meals.drink, f)))
  }

  /** Totals of non-negative fields are non-negative and bound every single pick. */
  lemma TotalBoundsEachPick(meals: PerSlot<FoodItem>, f: Field, s: Slot)
    requires forall t: Slot :: FieldValue(meals.Get(t), f) >= 0.0
    ensures 0.0 <= FieldValue(meals.Get(s), f) <= Total(meals, f)
  {
    SumOverAllSlots(PerSlot(FieldValue(meals.breakfast, f), FieldValue(meals.lunch, f),
                            FieldValue(meals.dinner, f), FieldValue(meals.snack, f),
                            FieldValue(meals.drink, f)));
    assert FieldValue(meals.Get(Breakfast), f) >= 0.0;
    assert FieldValue(meals.Get(Lunch), f) >= 0.0;
    assert FieldValue(meals.Get(Dinner), f) >= 0.0;
    assert FieldValue(meals.Get(Snack), f) >= 0.0;
    assert FieldValue(meals.Get(Drink), f) >= 0.0;
  }

  /** The form as `handleSubmit` sees it; 0 and `None` stand for an unfilled field. */
  datatype FormData = FormData(
    age: real,
    sex: Sex,
    weight: real,
    height: real,
    activityLevel: Option<ActivityLevel>,
    goal: Option<Goal>,
    dietPreference: Option<DietPreference>,
    budget: real)

  /** The `handleSubmit` guard: all eight fields are truthy, so the BMR takes the Mifflin-St Jeor formula and not its 0 fallback. */
  predicate IsComplete(form: FormData): (ok: bool)
    ensures ok ==> CalculateBmr(form.weight, form.height, form.age, form.sex)
                   == 10.0 * form.weight + 6.25 * form.height - 5.0 * form.age
                      + (if form.sex == Male then 5.0 else -161.0)
  {
    form.age != 0.0 && form.sex != Unspecified && form.weight != 0.0 && form.height != 0.0
    && form.activityLevel.Some? && form.goal.Some? && form.dietPreference.Some?
    && form.budget != 0.0
  }

  /** The record `generateMealPlan` returns; bmi, bmr, target and nutrient totals are rounded for display. */
  datatype MealPlanResult = MealPlanResult(
    bmi: real,
    bmr: real,
    targetCalories: real,
    mealPlan: PerSlot<FoodItem>,
    totalCalories: real,
    totalProtein: real,
    totalCarbs: real,
    totalFats: real,
    totalFiber: real,
    totalCost: real)

  datatype PlanError = MissingFields | EmptySlot(slot: Slot)

  /** The unrounded daily target of a complete form. */
  function FormTarget(form: FormData, edition: Edition): (t: real)
    requires IsComplete(form)
    ensures var bmr := 10.0 * form.weight + 6.25 * form.height - 5.0 * form.age
                       + (if form.sex == Male then 5.0 else -161.0);
            t == bmr * ActivityFactor(form.activityLevel.value)
                 + (match form.goal.value
                    case Lose => -edition.GoalStep()
                    case Maintain => 0.0
                    case Gain => edition.GoalStep())
  {
    TargetCalories(CalculateBmr(form.weight, form.height, form.age, form.sex),
                   form.activityLevel.value, form.goal.value, edition.GoalStep())
  }

  /** Every slot's catalog has a candidate for the preference. */
  predicate AllSelectable(catalog: PerSlot<seq<FoodItem>>, pref: DietPreference)
  {
    && Selectable(catalog.breakfast, pref)
    && Selectable(catalog.lunch, pref)
    && Selectable(catalog.dinner, pref)
    && Selectable(catalog.snack, pref)
    && Selectable(catalog.drink, pref)
  }

  /** `slot` is the first slot, in plan order, whose catalog has no candidate. */
  predicate IsFirstEmptySlot(catalog: PerSlot<seq<FoodItem>>, pref: DietPreference, slot: Slot)
  {
    && !Selectable(catalog.Get(slot), pref)
    && (slot.Order() > 0 ==> Selectable(catalog.breakfast, pref))
    && (slot.Order() > 1 ==> Selectable(catalog.lunch, pref))
    && (slot.Order() > 2 ==> Selectable(catalog.dinner, pref))
    && (slot.Order() > 3 ==> Selectable(catalog.snack, pref))
  }

  /** The slot-by-slot form of `AllSelectable`. */
  lemma AllSelectableEverySlot(catalog: PerSlot<seq<FoodItem>>, pref: DietPreference)
    ensures AllSelectable(catalog, pref) <==> forall s: Slot :: Selectable(catalog.Get(s), pref)
  {
    if !AllSelectable(catalog, pref) {
      var s :| s in AllSlots && !Selectable(catalog.Get(s), pref);
    }
  }

  /** Each slot's meal is the `selectBestFood` answer for that slot's catalog, target and budget. */
  ghost predicate AllBestPicks(catalog: PerSlot<seq<FoodItem>>, pref: DietPreference,
                               coins: PerSlot<bool>, targets: PerSlot<real>,
                               budgets: PerSlot<real>, meals: PerSlot<FoodItem>)
  {
    && IsBestPick(catalog.breakfast, pref, coins.breakfast, targets.breakfast, budgets.breakfast,
                  meals.breakfast)
    && IsBestPick(catalog.lunch, pref, coins.lunch, targets.lunch, budgets.lunch, meals.lunch)
    && IsBestPick(catalog.dinner, pref, coins.dinner, targets.dinner, budgets.dinner, meals.dinner)
    && IsBestPick(catalog.snack, pref, coins.snack, targets.snack, budgets.snack, meals.snack)
    && IsBestPick(catalog.drink, pref, coins.drink, targets.drink, budgets.drink, meals.drink)
  }

  /** The five `selectBestFood` calls of `generateMealPlan`, in slot order. */
  method PickMeals(catalog: PerSlot<seq<FoodItem>>, pref: DietPreference, coins: PerSlot<bool>,
                   targets: PerSlot<real>, budgets: PerSlot<real>)
    returns (r: Result<PerSlot<FoodItem>, PlanError>)
    ensures r.Success? <==> AllSelectable(catalog, pref)
    ensures r.Failure? ==> r.error.EmptySlot? && IsFirstEmptySlot(catalog, pref, r.error.slot)
    ensures r.Success? ==> AllBestPicks(catalog, pref, coins, targets, budgets, r.value)
  {
    var breakfast := SelectBestFood(catalog.breakfast, targets.breakfast, budgets.breakfast,
                                    pref, coins.breakfast);
    if breakfast.Failure? {
      return Failure(EmptySlot(Breakfast));
    }
    var lunch := SelectBestFood(catalog.lunch, targets.lunch, budgets.lunch, pref, coins.lunch);
    if lunch.Failure? {
      return Failure(EmptySlot(Lunch));
    }
    var dinner := SelectBestFood(catalog.dinner, targets.dinner, budgets.dinner, pref, coins.dinner);
    if dinner.Failure? {
      return Failure(EmptySlot(Dinner));
    }
    var snack := SelectBestFood(catalog.snack, targets.snack, budgets.snack, pref, coins.snack);
    if snack.Failure? {
      return Failure(EmptySlot(Snack));
    }
    var drink := SelectBestFood(catalog.drink, targets.drink, budgets.drink, pref, coins.drink);
    if drink.Failure? {
      return Failure(EmptySlot(Drink));
    }
    var meals := PerSlot(breakfast.value, lunch.value, dinner.value, snack.value, drink.value);
    r := Success(meals);
  }

  /**
   * Builds the plan for a complete form. `coins` holds, per slot, the outcome of
   * the `Math.random() > 0.5` draw made when the preference is `Both`.
   */
  method GenerateMealPlan(form: FormData, catalog: PerSlot<seq<FoodItem>>, edition: Edition,
                          coins: PerSlot<bool>)
    returns (r: Result<MealPlanResult, PlanError>)
    requires IsComplete(form)
    ensures r.Success? <==> AllSelectable(catalog, form.dietPreference.value)
    ensures r.Failure? ==>
              r.error.EmptySlot? && IsFirstEmptySlot(catalog, form.dietPreference.value, r.error.slot)
    ensures r.Success? ==>
              AllBestPicks(catalog, form.dietPreference.value, coins,
                           Distribute(CalorieSplit, FormTarget(form, edition)),
                           Distribute(BudgetSplit, form.budget), r.value.mealPlan)
    ensures r.Success? ==>
              var p := r.value;
              && p.totalCalories == Total(p.mealPlan, Calories)
              && p.totalProtein == RoundTenth(Total(p.mealPlan, Protein))
              && p.totalCarbs == RoundTenth(Total(p.mealPlan, Carbs))
              && p.totalFats == RoundTenth(Total(p.mealPlan, Fats))
              && p.totalFiber == RoundTenth(Total(p.mealPlan, Fiber))
              && p.totalCost == Total(p.mealPlan, Price)
    ensures r.Success? ==>
              && r.value.bmi == RoundTenth(CalculateBmi(form.weight, form.height))
              && r.value.bmr == Round(CalculateBmr(form.weight, form.height, form.age, form.sex)) as real
              && r.value.targetCalories == Round(FormTarget(form, edition)) as real
  {
    var bmi := CalculateBmi(form.weight, form.height);
    var bmr := CalculateBmr(form.weight, form.height, form.age, form.sex);
    var targetCalories := bmr * ActivityFactor(form.activityLevel.value)
                          + GoalAdjustment(form.goal.value, edition.GoalStep());
    assert targetCalories == FormTarget(form, edition);
    var calorieDistribution := Distribute(CalorieSplit, targetCalories);
    var budgetDistribution := Distribute(BudgetSplit, form.budget);
    var picks := PickMeals(catalog, form.dietPreference.value, coins,
                           calorieDistribution, budgetDistribution);
    if picks.Failure? {
      return Failure(picks.error);
    }
    r := Success(Summarise(bmi, bmr, targetCalories, picks.value));
  }

  /**
   * The record `generateMealPlan` returns for its five picks: per-field sums,
   * with bmi and the nutrient totals rounded to one decimal and bmr and the
   * target to whole calories; calories and cost are left unrounded.
   */
  function Summarise(bmi: real, bmr: real, targetCalories: real, mealPlan: PerSlot<FoodItem>)
    : (p: MealPlanResult)
    ensures p.mealPlan == mealPlan
    ensures p.bmi == RoundTenth(bmi) && p.bmr == Round(bmr) as real
    ensures p.targetCalories == Round(targetCalories) as real
    ensures p.totalCalories == Total(mealPlan, Calories)
    ensures p.totalProtein == RoundTenth(Total(mealPlan, Protein))
    ensures p.totalCarbs == RoundTenth(Total(mealPlan, Carbs))
    ensures p.totalFats == RoundTenth(Total(mealPlan, Fats))
    ensures p.totalFiber == RoundTenth(Total(mealPlan, Fiber))
    ensures p.totalCost == Total(mealPlan, Price)
  {
    var totalCalories := mealPlan.breakfast.calories + mealPlan.lunch.calories
      + mealPlan.dinner.calories + mealPlan.snack.calories + mealPlan.drink.calories;
    var totalProtein := mealPlan.breakfast.protein + mealPlan.lunch.protein
      + mealPlan.dinner.protein + mealPlan.snack.protein + mealPlan.drink.protein;
    var totalCarbs := mealPlan.breakfast.carbs + mealPlan.lunch.carbs
      + mealPlan.dinner.carbs + mealPlan.snack.carbs + mealPlan.drink.carbs;
    var totalFats := mealPlan.breakfast.fats + mealPlan.lunch.fats
      + mealPlan.dinner.fats + mealPlan.snack.fats + mealPlan.drink.fats;
    var totalFiber := mealPlan.breakfast.fiber + mealPlan.lunch.fiber
      + mealPlan.dinner.fiber + mealPlan.snack.fiber + mealPlan.drink.fiber;
    var totalCost := mealPlan.breakfast.price + mealPlan.lunch.price
      + mealPlan.dinner.price + mealPlan.snack.price + mealPlan.drink.price;
    TotalIsFiveTermSum(mealPlan, Calories);
    TotalIsFiveTermSum(mealPlan, Protein);
    TotalIsFiveTermSum(mealPlan, Carbs);
    TotalIsFiveTermSum(mealPlan, Fats);
    TotalIsFiveTermSum(mealPlan, Fiber);
    TotalIsFiveTermSum(mealPlan, Price);
    MealPlanResult(
      RoundTenth(bmi), Round(bmr) as real, Round(targetCalories) as real, mealPlan,
      totalCalories, RoundTenth(totalProtein), RoundTenth(totalCarbs), RoundTenth(totalFats),
      RoundTenth(totalFiber), totalCost)
  }

  lemma TotalIsFiveTermSum(meals: PerSlot<FoodItem>, f: Field)
    ensures Total(meals, f) == FieldValue(meals.breakfast, f) + FieldValue(meals.lunch, f)
                               + FieldValue(meals.dinner, f) + FieldValue(meals.snack, f)
                               + FieldValue(meals.drink, f)
  {
    SumOverAllSlots(PerSlot(FieldValue(meals.breakfast, f), FieldValue(meals.lunch, f),
                            FieldValue(meals.dinner, f), FieldValue(meals.snack, f),
                            FieldValue(meals.drink, f)));
  }

  /** `handleSubmit`: refuses an incomplete form, otherwise generates the plan. */
  method HandleSubmit(form: FormData, catalog: PerSlot<seq<FoodItem>>, edition: Edition,
                      coins: PerSlot<bool>)
    returns (r: Result<MealPlanResult, PlanError>)
    ensures r == Failure(MissingFields) <==> !IsComplete(form)
    ensures IsComplete(form) ==> (r.Success? <==> AllSelectable(catalog, form.dietPreference.value))
    ensures IsComplete(form) && r.Failure? ==>
              r.error.EmptySlot? && IsFirstEmptySlot(catalog, form.dietPreference.value, r.error.slot)
    ensures IsComplete(form) && r.Success? ==>
              AllBestPicks(catalog, form.dietPreference.value, coins,
                           Distribute(CalorieSplit, FormTarget(form, edition)),
                           Distribute(BudgetSplit, form.budget), r.value.mealPlan)
    ensures r.Success? ==>
              var p := r.value;
              && p.totalCalories == Total(p.mealPlan, Calories)
              && p.totalProtein == RoundTenth(Total(p.mealPlan, Protein))
              && p.totalCarbs == RoundTenth(Total(p.mealPlan, Carbs))
              && p.totalFats == RoundTenth(Total(p.mealPlan, Fats))
              && p.totalFiber == RoundTenth(Total(p.mealPlan, Fiber))
              && p.totalCost == Total(p.mealPlan, Price)
    ensures r.Success? ==>
              && r.value.bmi == RoundTenth(CalculateBmi(form.weight, form.height))
              && r.value.bmr == Round(CalculateBmr(form.weight, form.height, form.age, form.sex)) as real
              && r.value.targetCalories == Round(FormTarget(form, edition)) as real
  {
    if !IsComplete(form) {
      return Failure(MissingFields);
    }
    r := GenerateMealPlan(form, catalog, edition, coins);
  }

  datatype BudgetStatus = WithinBudget | OverBudget(amount: real)

  /** The budget status line: within budget, or over by a positive amount. */
  function GetBudgetStatus(totalCost: real, budget: real): (status: BudgetStatus)
    ensures status == WithinBudget <==> totalCost <= budget
    ensures status.OverBudget? ==> status.amount > 0.0 && budget + status.amount == totalCost
  {
    if totalCost <= budget then WithinBudget else OverBudget(totalCost - budget)
  }

  /** The src copy's lose-weight card: the shown target minus 400, never below 1200. */
  function LoseWeightDisplay(shownTarget: real): (v: real)
    ensures v >= 1200.0 && v >= shownTarget - SrcEdition.GoalStep()
    ensures v == 1200.0 || v == shownTarget - SrcEdition.GoalStep()
  {
    if shownTarget - 400.0 >= 1200.0 then shownTarget - 400.0 else 1200.0
  }

  /** The src copy's gain-weight card: the shown target plus 400. */
  function GainWeightDisplay(shownTarget: real): (v: real)
    ensures v - shownTarget == SrcEdition.GoalStep()
  {
    shownTarget + 400.0
  }

  /**
   * For a maintain-weight form in the src copy, the two cards show exactly the
   * rounded lose and gain targets, the lose card floored at 1200.
   */
  lemma DisplayCardsMatchGoalTargets(bmr: real, level: ActivityLevel)
    ensures var step := SrcEdition.GoalStep();
            var shown := Round(TargetCalories(bmr, level, Maintain, step)) as real;
            && GainWeightDisplay(shown) == Round(TargetCalories(bmr, level, Gain, step)) as real
            && LoseWeightDisplay(shown)
               == if Round(TargetCalories(bmr, level, Lose, step)) >= 1200
                  then Round(TargetCalories(bmr, level, Lose, step)) as real else 1200.0
  {
    var step := SrcEdition.GoalStep();
    var m := TargetCalories(bmr, level, Maintain, step);
    GoalSpacing(bmr, level, step);
    RoundShift(m, 400);
    RoundShift(m - 400.0, 400);
  }

  /** Rounding commutes with adding a whole number. */
  lemma RoundShift(x: real, n: int)
    ensures Round(x + n as real) == Round(x) + n
  {
  }
}
