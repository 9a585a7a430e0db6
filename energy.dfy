/**
 * The energy model of the meal planner: body-mass index, basal metabolic rate
 * (Mifflin-St Jeor), the activity-factor table, the goal offset and the
 * resulting daily calorie target, the BMI category shown to the user, and the
 * `Math.round` based display rounding.
 *
 * Quantities are exact reals. A numeric form field that was never filled in
 * holds 0, which is the only falsy number the form can produce, so "missing"
 * is modelled as `== 0.0`.
 */
module Energy {

  datatype Sex = Male | Female | Unspecified

  datatype ActivityLevel = Sedentary | Light | Moderate | Active | VeryActive

  datatype Goal = Lose | Maintain | Gain

  /** The two copies of the planner differ only in the size of the goal offset. */
  datatype Edition = DownloadsEdition | SrcEdition {
    function GoalStep(): (step: real)
      ensures step > 0.0
    {
      match this
      case DownloadsEdition => 500.0
      case SrcEdition => 400.0
    }
  }

  /** weight / (height in metres)^2, or 0 when either input is missing. */
  function CalculateBmi(weight: real, height: real): (bmi: real)
    ensures weight == 0.0 || height == 0.0 ==> bmi == 0.0
    ensures weight != 0.0 && height != 0.0 ==>
              bmi * ((height / 100.0) * (height / 100.0)) == weight
    ensures weight > 0.0 && height != 0.0 ==> bmi > 0.0
  {
    if weight == 0.0 || height == 0.0 then 0.0
    else
      var metres := height / 100.0;
      assert metres * metres > 0.0 by {
        if metres > 0.0 { assert metres * metres > 0.0; } else { assert (-metres) * (-metres) > 0.0; }
      }
      weight / (metres * metres)
  }

  /** Mifflin-St Jeor basal metabolic rate, or 0 when any input is missing. */
  function CalculateBmr(weight: real, height: real, age: real, sex: Sex): (bmr: real)
    ensures weight == 0.0 || height == 0.0 || age == 0.0 || sex == Unspecified ==> bmr == 0.0
  {
    if weight == 0.0 || height == 0.0 || age == 0.0 || sex == Unspecified then 0.0
    else if sex == Male then 10.0 * weight + 6.25 * height - 5.0 * age + 5.0
    else 10.0 * weight + 6.25 * height - 5.0 * age - 161.0
  }

  /** For identical present inputs, the male BMR exceeds the female BMR by exactly 166. */
  lemma BmrSexGap(weight: real, height: real, age: real)
    requires weight != 0.0 && height != 0.0 && age != 0.0
    ensures CalculateBmr(weight, height, age, Male) - CalculateBmr(weight, height, age, Female) == 166.0
  {
  }

  /** Each extra kilogram adds 10 kcal, each extra centimetre 6.25 kcal, and each extra year removes 5 kcal. */
  lemma BmrSlopes(weight: real, height: real, age: real, sex: Sex, dw: real, dh: real, da: real)
    requires weight != 0.0 && weight + dw != 0.0 && height != 0.0 && height + dh != 0.0
    requires age != 0.0 && age + da != 0.0 && sex != Unspecified
    ensures CalculateBmr(weight + dw, height + dh, age + da, sex)
            == CalculateBmr(weight, height, age, sex) + 10.0 * dw + 6.25 * dh - 5.0 * da
  {
  }

  /** Over the ranges the Downloads copy's form clamps its inputs to, the BMR is at least 389 kcal. */
  lemma BmrPositiveOnValidatedInput(weight: real, height: real, age: real, sex: Sex)
    requires 30.0 <= weight <= 200.0 && 120.0 <= height <= 250.0 && 15.0 <= age <= 100.0
    requires sex != Unspecified
    ensures CalculateBmr(weight, height, age, sex) >= 389.0
  {
  }

  function ActivityFactor(level: ActivityLevel): (factor: real)
    ensures 1.2 <= factor <= 1.9
  {
    match level
    case Sedentary => 1.2
    case Light => 1.375
    case Moderate => 1.55
    case Active => 1.725
    case VeryActive => 1.9
  }

  function ActivityRank(level: ActivityLevel): nat
  {
    match level
    case Sedentary => 0
    case Light => 1
    case Moderate => 2
    case Active => 3
    case VeryActive => 4
  }

  /** A more active level never has a smaller multiplier, and a strictly more active one a larger. */
  lemma ActivityFactorMonotone(a: ActivityLevel, b: ActivityLevel)
    ensures ActivityRank(a) <= ActivityRank(b) ==> ActivityFactor(a) <= ActivityFactor(b)
    ensures ActivityRank(a) < ActivityRank(b) ==> ActivityFactor(a) < ActivityFactor(b)
  {
  }

  /** The additive calorie offset: -step, 0 or +step. */
  function GoalAdjustment(goal: Goal, step: real): (offset: real)
    ensures step > 0.0 ==> (offset < 0.0 <==> goal == Lose)
    ensures step > 0.0 ==> (offset > 0.0 <==> goal == Gain)
    ensures offset == -step || offset == 0.0 || offset == step
  {
    match goal
    case Lose => -step
    case Maintain => 0.0
    case Gain => step
  }

  /** bmr * activity factor + goal offset. */
  function TargetCalories(bmr: real, level: ActivityLevel, goal: Goal, step: real): (target: real)
    ensures goal == Maintain ==> target == bmr * ActivityFactor(level)
  {
    bmr * ActivityFactor(level) + GoalAdjustment(goal, step)
  }

  /** The three goals are evenly spaced by the edition's step. */
  lemma GoalSpacing(bmr: real, level: ActivityLevel, step: real)
    ensures TargetCalories(bmr, level, Gain, step) - TargetCalories(bmr, level, Maintain, step) == step
    ensures TargetCalories(bmr, level, Maintain, step) - TargetCalories(bmr, level, Lose, step) == step
  {
  }

  /** Rounding as `Math.round` does it on exact values: floor(x + 1/2). */
  function Round(x: real): (n: int)
    ensures x - 0.5 < n as real <= x + 0.5
  {
    (x + 0.5).Floor
  }

  /** `Math.round(x * 10) / 10`: rounding to one decimal. */
  function RoundTenth(x: real): (y: real)
    ensures x - 0.05 < y <= x + 0.05
    ensures (y * 10.0).Floor as real == y * 10.0
  {
    Round(x * 10.0) as real / 10.0
  }

  datatype BmiCategory = Underweight | NormalWeight | Overweight | Obese {
    function Index(): nat
    {
      match this
      case Underweight => 0
      case NormalWeight => 1
      case Overweight => 2
      case Obese => 3
    }

    function Label(): string
    {
      match this
      case Underweight => "Underweight"
      case NormalWeight => "Normal Weight"
      case Overweight => "Overweight"
      case Obese => "Obese"
    }
  }

  /** The category for a BMI value: thresholds 18.5, 25 and 30 (Downloads copy only). */
  function GetBmiCategory(bmi: real): (c: BmiCategory)
    ensures c == Underweight <==> bmi < 18.5
    ensures c == NormalWeight <==> 18.5 <= bmi < 25.0
    ensures c == Overweight <==> 25.0 <= bmi < 30.0
    ensures c == Obese <==> 30.0 <= bmi
  {
    if bmi < 18.5 then Underweight
    else if bmi < 25.0 then NormalWeight
    else if bmi < 30.0 then Overweight
    else Obese
  }

  /** A larger BMI never yields a lower category. */
  lemma BmiCategoryMonotone(b1: real, b2: real)
    requires b1 <= b2
    ensures GetBmiCategory(b1).Index() <= GetBmiCategory(b2).Index()
  {
  }

  /**
   * The Downloads copy classifies the BMI after rounding it to one decimal, so a
   * BMI of 18.46 is shown as 18.5 and classified as normal weight.
   */
  lemma CategoryOfShownBmi()
    ensures GetBmiCategory(18.46) == Underweight
    ensures GetBmiCategory(RoundTenth(18.46)) == NormalWeight
  {
    assert Round(184.6) == 185;
  }

  /** 70 kg, 175 cm, 30 years, male: BMR 1648.75, BMI shown as 22.9. */
  lemma ExampleMale70kg()
    ensures CalculateBmr(70.0, 175.0, 30.0, Male) == 1648.75
    ensures RoundTenth(CalculateBmi(70.0, 175.0)) == 22.9
    ensures TargetCalories(1648.75, Moderate, Lose, DownloadsEdition.GoalStep()) == 2055.5625
  {
  }

  /**
   * With the Downloads step the lose-weight target can be negative on inputs
   * the form accepts: 30 kg, 120 cm, 100 years, female, sedentary.
   */
  lemma NegativeTargetOnValidatedInput()
    ensures TargetCalories(CalculateBmr(30.0, 120.0, 100.0, Female), Sedentary, Lose,
                           DownloadsEdition.GoalStep()) < 0.0
    ensures TargetCalories(CalculateBmr(30.0, 120.0, 100.0, Female), Sedentary, Lose,
                           SrcEdition.GoalStep()) > 0.0
  {
  }
}
