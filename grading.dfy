/**
 * Reference standards by nutrient, gender and age bracket, the seven-tier
 * grade of an intake percentage, and the per-nutrient analysis with its
 * suggestion text.
 */
module Grading {
  import opened Nutrients

  /** The two genders a user can register with, "男" and "女". */
  datatype Gender = Male | Female

  /** The two age columns of the standards table, "<=18" and ">18". */
  datatype AgeBracket = Young | Adult

  /** The column used for an age: "<=18" exactly when the age is at most 18. */
  function BracketOf(age: int): (b: AgeBracket)
    ensures b == Young <==> age <= 18
  {
    if age <= 18 then Young else Adult
  }

  function Pick(g: Gender, b: AgeBracket, maleYoung: real, maleAdult: real,
                femaleYoung: real, femaleAdult: real): real
  {
    match (g, b)
    case (Male, Young) => maleYoung
    case (Male, Adult) => maleAdult
    case (Female, Young) => femaleYoung
    case (Female, Adult) => femaleAdult
  }

  /** The recommended daily value, one row per nutrient of the standards table. */
  function StandardTable(n: Nutrient, g: Gender, b: AgeBracket): real
  {
    match n
    case Calories => Pick(g, b, 2700.0, 2400.0, 2400.0, 2100.0)
    case Protein => Pick(g, b, 75.0, 65.0, 65.0, 55.0)
    case Fat => Pick(g, b, 75.0, 70.0, 65.0, 60.0)
    case Calcium => Pick(g, b, 1000.0, 800.0, 1000.0, 800.0)
    case Iron => Pick(g, b, 12.0, 12.0, 15.0, 15.0)
    case Zinc => Pick(g, b, 15.0, 15.0, 12.0, 12.0)
    case Magnesium => Pick(g, b, 100.0, 100.0, 100.0, 100.0)
    case VitaminA => Pick(g, b, 800.0, 800.0, 700.0, 700.0)
    case VitaminB1 => Pick(g, b, 1.4, 1.4, 1.2, 1.2)
    case VitaminB2 => Pick(g, b, 1.4, 1.4, 1.2, 1.2)
    case VitaminC => Pick(g, b, 100.0, 100.0, 100.0, 100.0)
    case VitaminD => Pick(g, b, 100.0, 100.0, 100.0, 100.0)
    case VitaminE => Pick(g, b, 100.0, 100.0, 100.0, 100.0)
  }

  /**
   * The standard for a nutrient, gender and age; every standard is positive,
   * so the percentage below is always defined.
   */
  function NutritionStandard(n: Nutrient, g: Gender, age: int): (s: real)
    ensures s > 0.0
    ensures age <= 18 ==> s == StandardTable(n, g, Young)
    ensures age > 18 ==> s == StandardTable(n, g, Adult)
  {
    StandardTable(n, g, BracketOf(age))
  }

  /** The seven grades, from severe deficiency through normal to severe excess. */
  datatype Tier =
    | SevereDeficiency | Deficiency | SlightlyLow | Normal
    | Sufficient | Excess | SevereExcess
  {
    /** The severity level: 4 at the single peak, falling to 1 on both sides. */
    function Level(): int
    {
      match this
      case SevereDeficiency => 1
      case Deficiency => 2
      case SlightlyLow => 3
      case Normal => 4
      case Sufficient => 3
      case Excess => 2
      case SevereExcess => 1
    }

    function Label(): string
    {
      match this
      case SevereDeficiency => "严重不足"
      case Deficiency => "不足"
      case SlightlyLow => "略低"
      case Normal => "适中"
      case Sufficient => "充足"
      case Excess => "过量"
      case SevereExcess => "严重过量"
    }

    function Description(): string
    {
      match this
      case SevereDeficiency => "摄入量远低于推荐值，需要立即改善"
      case Deficiency => "摄入量低于推荐值，建议适当增加"
      case SlightlyLow => "摄入量接近推荐值，可以适当增加"
      case Normal => "摄入量符合推荐值，继续保持"
      case Sufficient => "摄入量略高于推荐值，可以适当减少"
      case Excess => "摄入量明显高于推荐值，建议减少"
      case SevereExcess => "摄入量远高于推荐值，需要立即控制"
    }

    function Color(): string
    {
      match this
      case SevereDeficiency => "red"
      case Deficiency => "orange"
      case SlightlyLow => "yellow"
      case Normal => "green"
      case Sufficient => "blue"
      case Excess => "orange"
      case SevereExcess => "red"
    }
  }

  /**
   * The grade of an intake percentage. The seven ranges partition the reals:
   * lower edges are strict below 100% and upper edges inclusive above it.
   */
  function NutritionGrade(percentage: real): (t: Tier)
    ensures t == SevereDeficiency <==> percentage < 60.0
    ensures t == Deficiency <==> 60.0 <= percentage < 80.0
    ensures t == SlightlyLow <==> 80.0 <= percentage < 95.0
    ensures t == Normal <==> 95.0 <= percentage <= 105.0
    ensures t == Sufficient <==> 105.0 < percentage <= 120.0
    ensures t == Excess <==> 120.0 < percentage <= 140.0
    ensures t == SevereExcess <==> 140.0 < percentage
    ensures 1 <= t.Level() <= 4
    ensures t.Level() == 4 <==> 95.0 <= percentage <= 105.0
  {
    if percentage < 60.0 then SevereDeficiency
    else if percentage < 80.0 then Deficiency
    else if percentage < 95.0 then SlightlyLow
    else if percentage <= 105.0 then Normal
    else if percentage <= 120.0 then Sufficient
    else if percentage <= 140.0 then Excess
    else SevereExcess
  }

  /** The foods named when asking for more of a nutrient. */
  function IncreaseFoods(n: Nutrient): string
  {
    match n
    case Protein => "瘦肉、鱼、蛋、奶制品、豆制品等"
    case Calcium => "牛奶、酸奶、小鱼干、豆制品等"
    case Iron => "动物肝脏、瘦肉、菠菜等深色蔬菜"
    case Zinc => "牡蛎、瘦肉、坚果等"
    case Magnesium => "绿叶蔬菜、坚果、鱼类等"
    case VitaminA => "胡萝卜、南瓜、菠菜、动物肝脏等"
    case VitaminB1 => "全谷物、瘦肉、蛋类、豆类等"
    case VitaminB2 => "牛奶、鸡蛋、绿叶蔬菜等"
    case VitaminC => "柑橘类水果、青椒、西兰花等"
    case VitaminD => "鱼类、蛋黄、奶制品等"
    case VitaminE => "坚果、种子、绿叶蔬菜等"
    case Calories => "全麦面包、燕麦、糙米、红薯、玉米等"
    case Fat => "坚果、橄榄油、牛油果、三文鱼、芝麻等"
  }

  /** The advice given when asking for less of a nutrient. */
  function DecreaseAdvice(n: Nutrient): string
  {
    match n
    case Calories => "控制食量，增加运动量"
    case Fat => "少吃油炸食品，选择蒸煮烤的烹饪方式"
    case _ => "注意饮食均衡，不要过分偏食"
  }

  function IncreaseText(n: Nutrient): string
  {
    "建议增加" + Key(n) + "的摄入，可以多吃以下食物：" + IncreaseFoods(n)
  }

  function DecreaseText(n: Nutrient): string
  {
    "建议减少" + Key(n) + "的摄入，可以：" + DecreaseAdvice(n)
  }

  const KeepText: string := "目前摄入适中，请继续保持均衡的饮食习惯"

  /** The three suggestion texts are pairwise different. */
  lemma SuggestionTextsDiffer(n: Nutrient)
    ensures IncreaseText(n) != DecreaseText(n)
    ensures IncreaseText(n) != KeepText
    ensures DecreaseText(n) != KeepText
  {
    assert IncreaseText(n)[2] == '增' && DecreaseText(n)[2] == '减';
    assert IncreaseText(n)[0] == '建' && DecreaseText(n)[0] == '建' && KeepText[0] == '目';
  }

  /** The analysis of one nutrient's observed value. */
  datatype Analysis = Analysis(
    nutrient: Nutrient, current: real, standard: real, percentage: real,
    tier: Tier, suggestion: string)

  /**
   * Grades an observed value against its standard. The "increase" text goes
   * with tier levels 1 and 2, whichever side of 100% they are on; the
   * "decrease" text goes with level 4, the normal range; level 3 keeps.
   */
  function AnalyzeNutrition(observed: real, g: Gender, age: int, n: Nutrient): (a: Analysis)
    ensures a.nutrient == n && a.current == observed
    ensures a.standard == NutritionStandard(n, g, age)
    ensures a.percentage == Percentage(observed, a.standard)
    ensures a.tier == NutritionGrade(a.percentage)
    ensures a.suggestion == IncreaseText(n) <==> a.tier.Level() < 3
    ensures a.suggestion == DecreaseText(n) <==> a.tier.Level() > 3
    ensures a.suggestion == KeepText <==> a.tier.Level() == 3
  {
    var standard := NutritionStandard(n, g, age);
    var percentage := Percentage(observed, standard);
    var tier := NutritionGrade(percentage);
    var suggestion :=
      if tier.Level() < 3 then IncreaseText(n)
      else if tier.Level() > 3 then DecreaseText(n)
      else KeepText;
    SuggestionTextsDiffer(n);
    Analysis(n, observed, standard, percentage, tier, suggestion)
  }

  /** An intake as a percentage of its standard. */
  function Percentage(observed: real, standard: real): (p: real)
    requires standard > 0.0
    ensures p * standard == observed * 100.0
  {
    observed / standard * 100.0
  }

  /** Comparisons survive division by a positive factor. */
  lemma DivideComparison(p: real, s: real, lo: real, hi: real)
    requires s > 0.0
    ensures lo * s <= p * s ==> lo <= p
    ensures p * s <= hi * s ==> p <= hi
    ensures p * s > hi * s ==> p > hi
  {
  }

  /** Intake inside the normal range is answered with the "decrease" text. */
  lemma NormalIntakeGetsDecreaseText(observed: real, g: Gender, age: int, n: Nutrient)
    requires 95.0 * NutritionStandard(n, g, age) <= observed * 100.0 <= 105.0 * NutritionStandard(n, g, age)
    ensures AnalyzeNutrition(observed, g, age, n).suggestion == DecreaseText(n)
  {
    var a := AnalyzeNutrition(observed, g, age, n);
    DivideComparison(a.percentage, a.standard, 95.0, 105.0);
  }

  /** Intake above 120% of the standard is answered with the "increase" text. */
  lemma ExcessIntakeGetsIncreaseText(observed: real, g: Gender, age: int, n: Nutrient)
    requires observed * 100.0 > 120.0 * NutritionStandard(n, g, age)
    ensures AnalyzeNutrition(observed, g, age, n).suggestion == IncreaseText(n)
  {
    var a := AnalyzeNutrition(observed, g, age, n);
    DivideComparison(a.percentage, a.standard, 0.0, 120.0);
  }

  /** A male of fifteen eating 75 g of protein a day is exactly at the standard. */
  lemma ProteinScenario()
    ensures NutritionStandard(Protein, Male, 15) == 75.0
    ensures AnalyzeNutrition(75.0, Male, 15, Protein).percentage == 100.0
    ensures AnalyzeNutrition(75.0, Male, 15, Protein).tier == Normal
  {
  }

  /** The analyses of every nutrient of a totals record, in key order. */
  function AnalyzeAll(t: Totals, g: Gender, age: int): (r: seq<Analysis>)
    ensures |r| == |AllNutrients|
    ensures forall i :: 0 <= i < |r| ==> r[i] == AnalyzeNutrition(Get(t, AllNutrients[i]), g, age, AllNutrients[i])
  {
    seq(|AllNutrients|, i requires 0 <= i < |AllNutrients| =>
      AnalyzeNutrition(Get(t, AllNutrients[i]), g, age, AllNutrients[i]))
  }
}
