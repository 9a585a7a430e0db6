# Indian Diet Planner — meal-plan core in Dafny

This project models the computation behind the diet planner's "generate plan"
button. A form supplies age, sex, weight, height, activity level, goal
(lose / maintain / gain), diet preference (veg / nonveg / both) and a daily
budget. From these the planner derives:

- BMI and BMR (Mifflin-St Jeor);
- a daily calorie target: BMR × activity factor + goal offset;
- one food per meal slot (breakfast, lunch, dinner, snack, drink).

Each slot gets a fixed share of the calorie target and of the budget. Its
catalog is filtered by diet preference. The candidates are ranked by how far
they go over the slot budget, then by distance from the slot's calorie target,
and the first one is taken. The plan totals are per-field sums of the five
picks.

The repository holds two near-identical copies of this logic. One is under
`Downloads/dietplanner--main/dietplanner--main/src/pages/Index.tsx` ("Downloads
copy"). The other is `src/pages/Index.tsx` ("src copy"). They differ in one
constant, the goal offset: ±500 kcal in the Downloads copy and ±400 kcal in the
src copy. The model writes the shared logic once and takes that constant from
`Energy.Edition.GoalStep()`. Two display rules exist in only one copy each:

- the BMI category thresholds, in the Downloads copy, which applies them to the
  BMI after it has been rounded to one decimal (so 18.46 shows as normal weight);
- the lose/gain display cards, in the src copy.

Modules:

- `Results` (results.dfy): the `Option` and `Result` datatypes.
- `Energy` (energy.dfy): BMI, BMR, activity factors, goal offset, target,
  `Math.round`-style rounding, BMI category.
- `Foods` (foods.dfy): the catalog entry, the diet filter and the candidate list
  with its fallbacks.
- `Ranking` (ranking.dfy): the two-key comparator, a stable insertion sort as
  the reference for "sort, then take element 0", and the arg-min scan.
- `Selector` (selector.dfy): `selectBestFood`.
- `Plan` (plan.dfy): slots, shares, totals, `generateMealPlan`, the
  `handleSubmit` guard, budget status and the src copy's display cards.

Modelling decisions:

- All quantities are exact `real`s. `Math.round(x)` is `floor(x + 1/2)`.
- An unfilled numeric field holds 0, which is the only falsy number the form
  produces, so "missing" means `== 0.0`.
- Sex has an `Unspecified` value for the empty string.
- Activity level, goal and preference are `Option`s in `FormData`.
- `Math.random() > 0.5` becomes an explicit `bool` per slot (`coins`). It is
  consulted only for the `Both` preference.
- Each slot's catalog is a `seq<FoodItem>` parameter.
- Where the code would read `filtered[0]` of an empty list (and later throw on
  `.calories`), the model returns an error: `NoCandidate` from the selector and
  `EmptySlot(slot)` from the plan, naming the first such slot in plan order.
- Stable sort order: JavaScript's `Array.prototype.sort` is stable, so element 0
  after sorting is the earliest item, in catalog order, that no other item
  ranks before. `SelectBestFood` finds that item with a min-scan loop.
  `Ranking.SortHeadIsFirstBest` proves it is the head of a stable insertion
  sort under the same comparator.
- `PickMeals` returns as soon as a slot has no candidate. The source makes all
  five calls first. The outcome is the same because the calls have no side
  effects once the coin flips are parameters.

## Model

| member | source | states |
|---|---|---|
| `Energy.CalculateBmi` | Downloads/dietplanner--main/dietplanner--main/src/pages/Index.tsx:42-45 | 0 when weight or height is missing; otherwise bmi × (height/100)² = weight; positive for a positive weight |
| `Energy.CalculateBmr` | Downloads/dietplanner--main/dietplanner--main/src/pages/Index.tsx:48-55 | 0 when weight, height, age or sex is missing |
| `Energy.BmrSexGap` | Downloads/dietplanner--main/dietplanner--main/src/pages/Index.tsx:50-54 | for identical present inputs, male BMR − female BMR = 166 |
| `Energy.BmrSlopes` | src/pages/Index.tsx:46-53 | each kg adds 10 kcal, each cm adds 6.25 kcal and each year removes 5 kcal from the BMR |
| `Energy.BmrPositiveOnValidatedInput` | Downloads/dietplanner--main/dietplanner--main/src/pages/Index.tsx:48-55 | on the ranges the Downloads copy's form clamps to (30–200 kg, 120–250 cm, 15–100 years) BMR ≥ 389; the src copy does not clamp |
| `Energy.Edition.GoalStep` | Downloads/dietplanner--main/dietplanner--main/src/pages/Index.tsx:60-64 | the goal step is positive: 500 in the Downloads copy, 400 in the src copy (src/pages/Index.tsx:56-60) |
| `Energy.ActivityFactor` | Downloads/dietplanner--main/dietplanner--main/src/pages/Index.tsx:152-158 | every multiplier lies in [1.2, 1.9] |
| `Energy.ActivityFactorMonotone` | src/pages/Index.tsx:119-125 | a more active level never has a smaller multiplier, and a strictly more active one has a strictly larger one |
| `Energy.GoalAdjustment` | src/pages/Index.tsx:56-60 | the offset is −step, 0 or +step; for a positive step it is negative exactly for lose and positive exactly for gain |
| `Energy.TargetCalories` | Downloads/dietplanner--main/dietplanner--main/src/pages/Index.tsx:609-611 | for maintain the target is BMR × activity factor |
| `Energy.GoalSpacing` | Downloads/dietplanner--main/dietplanner--main/src/pages/Index.tsx:60-64 | gain − maintain = maintain − lose = the edition's step |
| `Energy.Round` | Downloads/dietplanner--main/dietplanner--main/src/pages/Index.tsx:706-707 | the rounded value is within half a unit: x − ½ < n ≤ x + ½ |
| `Energy.RoundTenth` | Downloads/dietplanner--main/dietplanner--main/src/pages/Index.tsx:705-713 | the result is a whole number of tenths within 0.05 of the input, which fixes it as `Math.round(x × 10) / 10` |
| `Energy.GetBmiCategory` | Downloads/dietplanner--main/dietplanner--main/src/pages/Index.tsx:88-114 | each category holds exactly on its interval: <18.5, [18.5,25), [25,30), ≥30, so every BMI gets exactly one |
| `Energy.BmiCategoryMonotone` | Downloads/dietplanner--main/dietplanner--main/src/pages/Index.tsx:88-114 | a larger BMI never gets a lower category |
| `Energy.CategoryOfShownBmi` | Downloads/dietplanner--main/dietplanner--main/src/pages/Index.tsx:803-807 | the category is taken from the BMI already rounded to one decimal: 18.46 is underweight but is shown as 18.5, normal weight |
| `Energy.ExampleMale70kg` | Downloads/dietplanner--main/dietplanner--main/src/pages/Index.tsx:42-55 | 70 kg / 175 cm / 30 y male: BMR 1648.75, BMI shown as 22.9, moderate + lose target 2055.5625 |
| `Energy.NegativeTargetOnValidatedInput` | Downloads/dietplanner--main/dietplanner--main/src/pages/Index.tsx:609-611 | 30 kg / 120 cm / 100 y female, sedentary, lose: the target is negative with the ±500 step and positive with ±400 |
| `Foods.OfType` | Downloads/dietplanner--main/dietplanner--main/src/pages/Index.tsx:569-576 | the filter keeps exactly the catalog items of the given diet type |
| `Foods.OfTypeSingle` | Downloads/dietplanner--main/dietplanner--main/src/pages/Index.tsx:575-576 | a one-item catalog keeps its item exactly when the type matches |
| `Foods.OfTypeAppend` | Downloads/dietplanner--main/dietplanner--main/src/pages/Index.tsx:575-576 | filtering a concatenation is the concatenation of the filtered parts, so matching items keep their catalog order |
| `Foods.Candidates` | Downloads/dietplanner--main/dietplanner--main/src/pages/Index.tsx:566-590 | the list that gets sorted is one of the two diet filters: veg for veg; nonveg for nonveg unless it is empty; for both, the coin's side unless it is empty; whenever the veg list is empty and the preference is not veg, the nonveg list |
| `Foods.OfTypePartition` | Downloads/dietplanner--main/dietplanner--main/src/pages/Index.tsx:575-576 | the veg and non-veg filters together have as many items as the catalog |
| `Foods.CandidatesRespectDiet` | Downloads/dietplanner--main/dietplanner--main/src/pages/Index.tsx:566-590 | every candidate is a catalog item; veg gives veg; nonveg gives nonveg unless the catalog has none; both follows the coin unless the chosen side is empty |
| `Foods.CandidatesNonEmptyIff` | Downloads/dietplanner--main/dietplanner--main/src/pages/Index.tsx:582-590 | there is a candidate iff the catalog is non-empty and, for veg, holds a veg item |
| `Ranking.Overflow` | Downloads/dietplanner--main/dietplanner--main/src/pages/Index.tsx:596-597 | budget overflow is zero exactly when the price is within the slot budget, and price − budget otherwise |
| `Ranking.Distance` | Downloads/dietplanner--main/dietplanner--main/src/pages/Index.tsx:594-595 | calorie distance is non-negative and equals ±(calories − target) |
| `Ranking.RankLess` | Downloads/dietplanner--main/dietplanner--main/src/pages/Index.tsx:593-601 | the comparator is negative when the budget overflow is strictly smaller, never when it is larger, and on equal overflow exactly when the calorie distance is smaller |
| `Ranking.RankLessStrictWeakOrder` | Downloads/dietplanner--main/dietplanner--main/src/pages/Index.tsx:593-601 | the comparator is irreflexive and transitive, and two items tie exactly when both keys agree |
| `Ranking.WithinBudgetFirst` | Downloads/dietplanner--main/dietplanner--main/src/pages/Index.tsx:596-599 | an item within budget ranks strictly before any item over budget |
| `Ranking.LessOverBudgetFirst` | Downloads/dietplanner--main/dietplanner--main/src/pages/Index.tsx:596-599 | of two items over budget, the cheaper one (smaller overflow) ranks strictly first, whatever their calories |
| `Ranking.SortByRank` | Downloads/dietplanner--main/dietplanner--main/src/pages/Index.tsx:593-601 | the reference sort keeps the length of its input |
| `Ranking.SortPermutes` | Downloads/dietplanner--main/dietplanner--main/src/pages/Index.tsx:593-601 | the sort is a permutation of the candidates |
| `Ranking.SortSorted` | Downloads/dietplanner--main/dietplanner--main/src/pages/Index.tsx:593-601 | after sorting, no item ranks strictly before an earlier one |
| `Ranking.SortHeadIsFirstBest` | Downloads/dietplanner--main/dietplanner--main/src/pages/Index.tsx:593-603 | element 0 of the sorted list is the earliest item that nothing ranks before |
| `Ranking.FirstBestIndex` | src/pages/Index.tsx:315-325 | the scan returns an index that no item ranks before, and every earlier item ranks strictly after it |
| `Ranking.ExampleRanking` | Downloads/dietplanner--main/dietplanner--main/src/pages/Index.tsx:593-603 | (price 50, 300 kcal) beats (200, 305) at budget 100 and target 300; 295 kcal beats 340 kcal when both are within budget |
| `Selector.SelectBestFood` | Downloads/dietplanner--main/dietplanner--main/src/pages/Index.tsx:560-604 | fails exactly when no candidate exists; otherwise the pick is a catalog item, honours the diet rule, is the head of the stably sorted candidates, is ranked behind no candidate, and is within budget whenever some candidate is |
| `Plan.SharesSumToOne` | src/pages/Index.tsx:335-349 | the calorie shares and the budget shares each sum to 1 |
| `Plan.Shares` | Downloads/dietplanner--main/dietplanner--main/src/pages/Index.tsx:613-627 | every slot share lies strictly between 0 and 1 |
| `Plan.Distribute` | Downloads/dietplanner--main/dietplanner--main/src/pages/Index.tsx:613-627 | each slot gets amount × its share, and the five slot amounts add up to the whole amount: the slot targets sum to the daily target and the slot budgets to the budget |
| `Plan.TotalBoundsEachPick` | Downloads/dietplanner--main/dietplanner--main/src/pages/Index.tsx:662-702 | for non-negative fields, each pick's value lies between 0 and the plan total |
| `Plan.TotalIsFiveTermSum` | src/pages/Index.tsx:384-424 | the slot-fold total of a field equals the five-term sum written out in the source |
| `Plan.AllSelectableEverySlot` | Downloads/dietplanner--main/dietplanner--main/src/pages/Index.tsx:629-660 | all five slots selectable iff every slot is selectable |
| `Plan.PickMeals` | Downloads/dietplanner--main/dietplanner--main/src/pages/Index.tsx:629-660 | succeeds iff every slot has a candidate; otherwise names the first empty slot; on success each meal is that slot's best pick |
| `Plan.Summarise` | Downloads/dietplanner--main/dietplanner--main/src/pages/Index.tsx:662-715 | calories and cost are the exact sums of the picks; protein, carbs, fats, fiber and BMI are rounded to one decimal; BMR and target are rounded to whole numbers |
| `Plan.IsComplete` | src/pages/Index.tsx:441-450 | a form passing the eight-field guard has its BMR from the Mifflin-St Jeor formula, not the zero fallback |
| `Plan.FormTarget` | Downloads/dietplanner--main/dietplanner--main/src/pages/Index.tsx:606-611 | a complete form's target is (10w + 6.25h − 5a + 5 or −161) × activity factor, then −step, 0 or +step for lose, maintain or gain |
| `Plan.GenerateMealPlan` | Downloads/dietplanner--main/dietplanner--main/src/pages/Index.tsx:606-716 | on a complete form: succeeds iff every slot has a candidate; each meal is the best pick for its slot's share of the target and budget; totals are sums of the picks; BMI, BMR and target are those of the energy model, rounded |
| `Plan.HandleSubmit` | src/pages/Index.tsx:440-458 | refuses exactly the forms with an unfilled field; for a complete form it returns what `generateMealPlan` returns: an error naming the first slot without a candidate, or the best pick per slot with the summed and rounded totals and the rounded BMI, BMR and target |
| `Plan.GetBudgetStatus` | src/pages/Index.tsx:702-707 | within budget iff total cost ≤ budget; otherwise the reported overage is positive and equals cost − budget |
| `Plan.LoseWeightDisplay` | src/pages/Index.tsx:532 | the lose card is never below 1200 and is either 1200 or the shown target − 400 |
| `Plan.GainWeightDisplay` | src/pages/Index.tsx:538 | the gain card exceeds the shown target by the src copy's goal step |
| `Plan.DisplayCardsMatchGoalTargets` | src/pages/Index.tsx:531-538 | for a maintain target, the gain card equals the rounded gain target and the lose card equals the rounded lose target, floored at 1200 |
| `Plan.RoundShift` | src/pages/Index.tsx:532-538 | adding a whole number commutes with rounding |

## Left out

- JSX rendering, `framer-motion` animations, icons, CSS classes and
  `Downloads/dietplanner--main/dietplanner--main/src/components/Navbar.tsx`: static markup with no logic.
- React state (`useState`, `updateFormData`, `handleReset`, `setResults`,
  `setShowResults`) and the `alert` in `handleSubmit`. The guard is modelled as
  the `MissingFields` error of `HandleSubmit` and as the precondition of
  `GenerateMealPlan`.
- Input parsing and clamping in the `onChange`/`onBlur` handlers (`parseInt`,
  NaN checks, the 15–100, 30–200, 120–250 and 100–5000 ranges). These ranges
  appear only as the precondition of `BmrPositiveOnValidatedInput`. The
  clamping exists only in the Downloads copy. The src copy has just the HTML
  `min`/`max` attributes and `parseX(value) || 0`, so any number reaches its
  formulas, and a BMR or target of zero or below is reachable there.
- `Math.random()`: replaced by the `coins` parameter.
- IEEE floating point: all arithmetic is exact over the reals, so
  round-off in the shares, products and sums is not modelled.
- The literal `FOOD_DATABASE` contents of both copies. The catalog is a
  parameter, and the name, quantity and recipe strings carry no logic.
- The colour and advice strings returned by `getBMICategory`: presentation only.
- The catalog reorder for an unrecognised preference string. For such a string
  `filtered` aliases `foods`, and the in-place sort would reorder the catalog.
  The preference here is a three-valued datatype, and the form's type together
  with the `handleSubmit` guard rules out any other value, so that path cannot
  be reached.
- `SelectBestFood`: the in-place reordering of the freshly filtered array
  beyond its first element is not modelled. That array is discarded after
  element 0 is read.
- `Ranking.SortByRank`: the model does not prove that every stable sort under
  the comparator gives this same sequence. It proves only that the sort is a
  permutation and sorted, and that its head is the earliest best item.
- Rendering of the BMR, target and "maintain" cards in the Downloads copy: they
  print stored values and compute nothing.
