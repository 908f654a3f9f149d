/**
 * The alternative nutrition report: every recommended nutrient whose intake
 * is under 70% of a gender-specific recommendation is listed as a
 * deficiency, with example foods, and the count sets an overall status.
 */
module DeficiencyReport {
  import opened Wrappers
  import opened Nutrients
  import opened Grading

  /** The recommended nutrients in the order the report checks them (no magnesium). */
  const RecommendedOrder: seq<Nutrient> :=
    [Calories, Protein, Fat, Calcium, Iron, Zinc,
     VitaminA, VitaminB1, VitaminB2, VitaminC, VitaminD, VitaminE]

  /** The recommended daily intake; the male table for "男", the other table otherwise. */
  function Recommended(g: Gender, n: Nutrient): (r: real)
    ensures r > 0.0
  {
    match n
    case Calories => if g == Male then 2250.0 else 1800.0
    case Protein => if g == Male then 65.0 else 55.0
    case Fat => if g == Male then 60.0 else 50.0
    case Calcium => 800.0
    case Iron => if g == Male then 12.0 else 20.0
    case Zinc => if g == Male then 12.5 else 7.5
    case VitaminA => if g == Male then 800.0 else 700.0
    case VitaminB1 => if g == Male then 1.4 else 1.2
    case VitaminB2 => if g == Male then 1.4 else 1.2
    case VitaminC => 100.0
    case VitaminD => 10.0
    case VitaminE => 14.0
    case Magnesium => 1.0  // not a recommended nutrient; never consulted
  }

  /** Example foods per recommended nutrient. */
  function NutrientFoods(n: Nutrient): seq<string>
  {
    match n
    case Calories => ["全麦面包", "燕麦", "糙米", "红薯", "玉米"]
    case Protein => ["鸡胸肉", "鱼", "鸡蛋", "豆腐", "牛奶"]
    case Fat => ["坚果", "橄榄油", "牛油果", "三文鱼", "芝麻"]
    case Calcium => ["牛奶", "酸奶", "豆腐", "虾皮", "芝麻"]
    case Iron => ["菠菜", "瘦牛肉", "黑木耳", "红枣", "紫菜"]
    case Zinc => ["牡蛎", "瘦牛肉", "南瓜子", "芝麻", "花生"]
    case VitaminA => ["胡萝卜", "菠菜", "南瓜", "芒果", "红薯"]
    case VitaminB1 => ["糙米", "瘦猪肉", "花生", "豆类", "全麦面包"]
    case VitaminB2 => ["牛奶", "鸡蛋", "瘦肉", "香菇", "豆类"]
    case VitaminC => ["猕猴桃", "柑橘", "青椒", "西兰花", "草莓"]
    case VitaminD => ["鱼类", "蛋黄", "牛奶", "香菇", "海鲜"]
    case VitaminE => ["坚果", "植物油", "豆类", "绿叶蔬菜", "全谷物"]
    case Magnesium => []
  }

  /** The display name of a nutrient. */
  function NutrientName(n: Nutrient): string
  {
    match n
    case Calories => "热量"
    case Protein => "蛋白质"
    case Fat => "脂肪"
    case Calcium => "钙"
    case Iron => "铁"
    case Zinc => "锌"
    case VitaminA => "维生素A"
    case VitaminB1 => "维生素B1"
    case VitaminB2 => "维生素B2"
    case VitaminC => "维生素C"
    case VitaminD => "维生素D"
    case VitaminE => "维生素E"
    case Magnesium => "magnesium"
  }

  /** `", ".join(items)`. */
  function Join(items: seq<string>): (r: string)
    ensures items == [] ==> r == ""
    ensures |items| == 1 ==> r == items[0]
  {
    if items == [] then ""
    else if |items| == 1 then items[0]
    else items[0] + ", " + Join(items[1..])
  }

  /** Three items, the case every suggestion line has, are joined with two separators. */
  lemma JoinThree(a: string, b: string, c: string)
    ensures Join([a, b, c]) == a + ", " + b + ", " + c
  {
    assert [a, b, c][1..] == [b, c];
    assert [b, c][1..] == [c];
  }

  /** The intake as a percentage of the recommendation; an absent value reads as 0. */
  function Ratio(avgs: map<Nutrient, Option<real>>, g: Gender, n: Nutrient): real
    requires n in avgs
  {
    Contribution(avgs[n]) / Recommended(g, n) * 100.0
  }

  /** A nutrient counts as deficient when it is reported and under 70%. */
  predicate IsDeficient(avgs: map<Nutrient, Option<real>>, g: Gender, n: Nutrient)
  {
    n in avgs && Ratio(avgs, g, n) < 70.0
  }

  /** The deficient nutrients among `ns`, in order. */
  function DeficientAmong(avgs: map<Nutrient, Option<real>>, g: Gender, ns: seq<Nutrient>): (r: seq<Nutrient>)
    ensures |r| <= |ns|
    ensures forall i :: 0 <= i < |r| ==> IsDeficient(avgs, g, r[i])
  {
    if ns == [] then []
    else DeficientAmong(avgs, g, ns[..|ns| - 1]) +
         (if IsDeficient(avgs, g, ns[|ns| - 1]) then [ns[|ns| - 1]] else [])
  }

  /** A nutrient is listed exactly when it is one of `ns` and deficient. */
  lemma {:induction false} DeficientAmongMembers(avgs: map<Nutrient, Option<real>>, g: Gender, ns: seq<Nutrient>, n: Nutrient)
    ensures n in DeficientAmong(avgs, g, ns) <==> n in ns && IsDeficient(avgs, g, n)
  {
    if ns != [] {
      DeficientAmongMembers(avgs, g, ns[..|ns| - 1], n);
      assert ns == ns[..|ns| - 1] + [ns[|ns| - 1]];
    }
  }

  datatype DeficiencyItem = DeficiencyItem(nutrient: Nutrient, current: real, recommended: real, percentage: real)

  datatype FoodSuggestion = FoodSuggestion(nutrient: string, foods: seq<string>, description: string)

  datatype Report = Report(status: string, deficiencies: seq<DeficiencyItem>, suggestions: seq<FoodSuggestion>)

  /** The status for a number of deficiencies. */
  function StatusFor(count: nat): (s: string)
    ensures s == "良好" <==> count == 0
    ensures s == "一般" <==> 1 <= count <= 3
    ensures s == "需要注意" <==> count > 3
  {
    if count > 3 then "需要注意" else if count > 0 then "一般" else "良好"
  }

  /** Python's `items[:k]`: the first k items, or all of them when there are fewer. */
  function Take(items: seq<string>, k: nat): (r: seq<string>)
    ensures |r| == if |items| < k then |items| else k
    ensures r == items[..|r|]
  {
    if |items| <= k then items else items[..k]
  }

  function SuggestionFor(n: Nutrient): FoodSuggestion
  {
    FoodSuggestion(NutrientName(n), NutrientFoods(n),
                   "建议多吃：" + Join(Take(NutrientFoods(n), 3)) + "等食物")
  }

  /** Entry `d` with suggestion `s` is what the report lists for a deficient `n`. */
  predicate Listed(avgs: map<Nutrient, Option<real>>, g: Gender, n: Nutrient,
                   d: DeficiencyItem, s: FoodSuggestion)
  {
    && n in avgs
    && d == DeficiencyItem(n, Contribution(avgs[n]), Recommended(g, n), Ratio(avgs, g, n))
    && d.percentage < 70.0
    && s == SuggestionFor(n)
  }

  /**
   * The report for a set of daily averages: the deficiencies are exactly the
   * deficient recommended nutrients, in the checking order, each with its
   * intake and ratio; one food suggestion follows per deficiency; the status
   * depends on their number only.
   */
  method GetNutritionAnalysis(avgs: map<Nutrient, Option<real>>, g: Gender) returns (r: Report)
    ensures |r.deficiencies| == |r.suggestions|
    ensures |r.deficiencies| == |DeficientAmong(avgs, g, RecommendedOrder)|
    ensures forall i :: 0 <= i < |r.deficiencies| ==>
      Listed(avgs, g, DeficientAmong(avgs, g, RecommendedOrder)[i], r.deficiencies[i], r.suggestions[i])
    ensures r.status == StatusFor(|r.deficiencies|)
  {
    var deficiencies: seq<DeficiencyItem> := [];
    var suggestions: seq<FoodSuggestion> := [];
    var i := 0;
    while i < |RecommendedOrder|
      invariant 0 <= i <= |RecommendedOrder|
      invariant |deficiencies| == |suggestions| == |DeficientAmong(avgs, g, RecommendedOrder[..i])|
      invariant forall k :: 0 <= k < |deficiencies| ==>
        Listed(avgs, g, DeficientAmong(avgs, g, RecommendedOrder[..i])[k], deficiencies[k], suggestions[k])
    {
      var nutrient := RecommendedOrder[i];
      assert RecommendedOrder[..i + 1][..i] == RecommendedOrder[..i];
      if nutrient in avgs {
        var actual := Contribution(avgs[nutrient]);
        var ratio := actual / Recommended(g, nutrient) * 100.0;
        if ratio < 70.0 {
          deficiencies := deficiencies + [DeficiencyItem(nutrient, actual, Recommended(g, nutrient), ratio)];
          suggestions := suggestions + [SuggestionFor(nutrient)];
        }
      }
      i := i + 1;
    }
    assert RecommendedOrder[..i] == RecommendedOrder;
    r := Report(StatusFor(|deficiencies|), deficiencies, suggestions);
  }

  /** Magnesium is never reported as deficient. */
  lemma MagnesiumNeverDeficient(avgs: map<Nutrient, Option<real>>, g: Gender)
    ensures Magnesium !in DeficientAmong(avgs, g, RecommendedOrder)
  {
    DeficientAmongMembers(avgs, g, RecommendedOrder, Magnesium);
  }
}
