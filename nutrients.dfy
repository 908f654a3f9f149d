/**
 * The fixed set of thirteen nutrients, a food's nutrient profile (one field per
 * column of the food table) and the totals record that every aggregation fills.
 */
module Nutrients {
  import opened Wrappers

  datatype Nutrient =
    | Calories | Protein | Fat | Calcium | Iron | Zinc | Magnesium
    | VitaminA | VitaminB1 | VitaminB2 | VitaminC | VitaminD | VitaminE

  /** The nutrients in the key order of the totals dictionaries. */
  const AllNutrients: seq<Nutrient> :=
    [Calories, Protein, Fat, Calcium, Iron, Zinc, Magnesium,
     VitaminA, VitaminB1, VitaminB2, VitaminC, VitaminD, VitaminE]

  /** Position of a nutrient in AllNutrients. */
  function Index(n: Nutrient): (i: nat)
    ensures i < |AllNutrients| && AllNutrients[i] == n
  {
    match n
    case Calories => 0
    case Protein => 1
    case Fat => 2
    case Calcium => 3
    case Iron => 4
    case Zinc => 5
    case Magnesium => 6
    case VitaminA => 7
    case VitaminB1 => 8
    case VitaminB2 => 9
    case VitaminC => 10
    case VitaminD => 11
    case VitaminE => 12
  }

  /** Every nutrient occurs in AllNutrients exactly once, at its Index. */
  lemma AllNutrientsDistinct(i: nat)
    requires i < |AllNutrients|
    ensures Index(AllNutrients[i]) == i
  {
  }

  /** The dictionary key the source uses for a nutrient. */
  function Key(n: Nutrient): string
  {
    match n
    case Calories => "calories"
    case Protein => "protein"
    case Fat => "fat"
    case Calcium => "calcium"
    case Iron => "iron"
    case Zinc => "zinc"
    case Magnesium => "magnesium"
    case VitaminA => "vitamin_a"
    case VitaminB1 => "vitamin_b1"
    case VitaminB2 => "vitamin_b2"
    case VitaminC => "vitamin_c"
    case VitaminD => "vitamin_d"
    case VitaminE => "vitamin_e"
  }

  /** Calories, protein and fat are NOT NULL columns; the ten others are nullable. */
  predicate IsMacro(n: Nutrient)
  {
    n == Calories || n == Protein || n == Fat
  }

  /**
   * A food's nutrient values per standard portion, and equally the per-food
   * "nutrition" entry that meal recording builds: the macronutrients are always
   * present, every micronutrient may be absent.
   */
  datatype Profile = Profile(
    calories: real, protein: real, fat: real,
    calcium: Option<real>, iron: Option<real>, zinc: Option<real>, magnesium: Option<real>,
    vitaminA: Option<real>, vitaminB1: Option<real>, vitaminB2: Option<real>,
    vitaminC: Option<real>, vitaminD: Option<real>, vitaminE: Option<real>)

  /** The value a profile holds for a nutrient; the macronutrients are never absent. */
  function Value(p: Profile, n: Nutrient): (v: Option<real>)
    ensures IsMacro(n) ==> v.Some?
  {
    match n
    case Calories => Some(p.calories)
    case Protein => Some(p.protein)
    case Fat => Some(p.fat)
    case Calcium => p.calcium
    case Iron => p.iron
    case Zinc => p.zinc
    case Magnesium => p.magnesium
    case VitaminA => p.vitaminA
    case VitaminB1 => p.vitaminB1
    case VitaminB2 => p.vitaminB2
    case VitaminC => p.vitaminC
    case VitaminD => p.vitaminD
    case VitaminE => p.vitaminE
  }

  /** What a possibly absent value adds to a sum: an absent value adds nothing. */
  function Contribution(v: Option<real>): (c: real)
    ensures v.None? ==> c == 0.0
    ensures v.Some? ==> c == v.value
  {
    match v
    case None => 0.0
    case Some(x) => x
  }

  /** One accumulated value per nutrient. */
  datatype Totals = Totals(
    calories: real, protein: real, fat: real,
    calcium: real, iron: real, zinc: real, magnesium: real,
    vitaminA: real, vitaminB1: real, vitaminB2: real,
    vitaminC: real, vitaminD: real, vitaminE: real)

  function Get(t: Totals, n: Nutrient): real
  {
    match n
    case Calories => t.calories
    case Protein => t.protein
    case Fat => t.fat
    case Calcium => t.calcium
    case Iron => t.iron
    case Zinc => t.zinc
    case Magnesium => t.magnesium
    case VitaminA => t.vitaminA
    case VitaminB1 => t.vitaminB1
    case VitaminB2 => t.vitaminB2
    case VitaminC => t.vitaminC
    case VitaminD => t.vitaminD
    case VitaminE => t.vitaminE
  }

  /** The totals with one nutrient's entry replaced (`total[key] = x`). */
  function Set(t: Totals, n: Nutrient, x: real): (r: Totals)
    ensures Get(r, n) == x
    ensures forall m :: m != n ==> Get(r, m) == Get(t, m)
  {
    match n
    case Calories => t.(calories := x)
    case Protein => t.(protein := x)
    case Fat => t.(fat := x)
    case Calcium => t.(calcium := x)
    case Iron => t.(iron := x)
    case Zinc => t.(zinc := x)
    case Magnesium => t.(magnesium := x)
    case VitaminA => t.(vitaminA := x)
    case VitaminB1 => t.(vitaminB1 := x)
    case VitaminB2 => t.(vitaminB2 := x)
    case VitaminC => t.(vitaminC := x)
    case VitaminD => t.(vitaminD := x)
    case VitaminE => t.(vitaminE := x)
  }

  /** Two totals that agree on every nutrient are the same record. */
  lemma TotalsEq(a: Totals, b: Totals)
    requires forall n :: Get(a, n) == Get(b, n)
    ensures a == b
  {
    assert Get(a, Calories) == Get(b, Calories) && Get(a, Protein) == Get(b, Protein);
    assert Get(a, Fat) == Get(b, Fat) && Get(a, Calcium) == Get(b, Calcium);
    assert Get(a, Iron) == Get(b, Iron) && Get(a, Zinc) == Get(b, Zinc);
    assert Get(a, Magnesium) == Get(b, Magnesium) && Get(a, VitaminA) == Get(b, VitaminA);
    assert Get(a, VitaminB1) == Get(b, VitaminB1) && Get(a, VitaminB2) == Get(b, VitaminB2);
    assert Get(a, VitaminC) == Get(b, VitaminC) && Get(a, VitaminD) == Get(b, VitaminD);
    assert Get(a, VitaminE) == Get(b, VitaminE);
  }

  /** The all-zero totals (`initialize_nutrition_dict`). */
  const Zero: Totals :=
    Totals(0.0, 0.0, 0.0, 0.0, 0.0, 0.0, 0.0, 0.0, 0.0, 0.0, 0.0, 0.0, 0.0)

  lemma ZeroIsZero(n: Nutrient)
    ensures Get(Zero, n) == 0.0
  {
  }

  /** Elementwise sum of two totals. */
  function Add(a: Totals, b: Totals): (r: Totals)
    ensures forall n :: Get(r, n) == Get(a, n) + Get(b, n)
  {
    Totals(a.calories + b.calories, a.protein + b.protein, a.fat + b.fat,
           a.calcium + b.calcium, a.iron + b.iron, a.zinc + b.zinc,
           a.magnesium + b.magnesium, a.vitaminA + b.vitaminA,
           a.vitaminB1 + b.vitaminB1, a.vitaminB2 + b.vitaminB2,
           a.vitaminC + b.vitaminC, a.vitaminD + b.vitaminD, a.vitaminE + b.vitaminE)
  }

  /** Every nutrient's entry divided by a positive count (a daily average). */
  function DivideBy(t: Totals, d: real): (r: Totals)
    requires d > 0.0
    ensures forall n :: Get(r, n) * d == Get(t, n)
  {
    Totals(t.calories / d, t.protein / d, t.fat / d, t.calcium / d, t.iron / d,
           t.zinc / d, t.magnesium / d, t.vitaminA / d, t.vitaminB1 / d,
           t.vitaminB2 / d, t.vitaminC / d, t.vitaminD / d, t.vitaminE / d)
  }
}
