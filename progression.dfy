/**
 * The spirit's progression: experience from a meal, repeated level-ups, and
 * four attributes that grow with the nutrients eaten, each up to a cap.
 */
module Progression {
  import opened Nutrients

  /** Experience one level needs, per level number (nutrition.py:213). */
  const LevelStep: int := 200

  function Threshold(level: int): int
  {
    level * LevelStep
  }

  const HeightCap: real := 200.0
  const WeightCap: real := 100.0
  const IqCap: real := 100.0
  const StrengthCap: real := 100.0

  function Min(a: real, b: real): (m: real)
    ensures m <= a && m <= b && (m == a || m == b)
  {
    if a <= b then a else b
  }

  /** 1 when a total is strictly positive, 0 otherwise. */
  function Indicator(t: Totals, n: Nutrient): int
  {
    if Get(t, n) > 0.0 then 1 else 0
  }

  /** How many of `ns` have a positive total. */
  function CountPositive(t: Totals, ns: seq<Nutrient>): (c: int)
    ensures 0 <= c <= |ns|
  {
    if ns == [] then 0 else Indicator(t, ns[0]) + CountPositive(t, ns[1..])
  }

  /** Listing one more nutrient adds one to the count exactly when its total is positive. */
  lemma {:induction false} CountPositiveAppend(t: Totals, ns: seq<Nutrient>, n: Nutrient)
    ensures CountPositive(t, ns + [n]) == CountPositive(t, ns) + (if Get(t, n) > 0.0 then 1 else 0)
  {
    if ns != [] {
      assert (ns + [n])[1..] == ns[1..] + [n];
      CountPositiveAppend(t, ns[1..], n);
    }
  }

  const BalanceNutrients: seq<Nutrient> := [Calories, Protein, Fat, Calcium]

  const Vitamins: seq<Nutrient> := [VitaminA, VitaminB1, VitaminB2, VitaminC, VitaminD, VitaminE]

  /**
   * Experience for one recorded meal: 5, plus 2 for each of calories,
   * protein, fat and calcium with a positive total.
   */
  function ExpGain(t: Totals): (g: int)
    ensures g == 5 + 2 * CountPositive(t, BalanceNutrients)
    ensures 5 <= g <= 13
    ensures g == 5 <==> (Get(t, Calories) <= 0.0 && Get(t, Protein) <= 0.0 && Get(t, Fat) <= 0.0 && Get(t, Calcium) <= 0.0)
    ensures g == 13 <==> (Get(t, Calories) > 0.0 && Get(t, Protein) > 0.0 && Get(t, Fat) > 0.0 && Get(t, Calcium) > 0.0)
  {
    var balance :=
      (if t.calories > 0.0 then 1 else 0) + (if t.protein > 0.0 then 1 else 0) +
      (if t.fat > 0.0 then 1 else 0) + (if t.calcium > 0.0 then 1 else 0);
    assert CountPositive(t, BalanceNutrients) == balance by {
      var s := BalanceNutrients;
      assert s[1..][1..][1..][1..] == [];
      assert CountPositive(t, s[1..][1..][1..]) == Indicator(t, Calcium);
      assert CountPositive(t, s[1..][1..]) == Indicator(t, Fat) + Indicator(t, Calcium);
      assert CountPositive(t, s[1..]) == Indicator(t, Protein) + Indicator(t, Fat) + Indicator(t, Calcium);
    }
    5 + balance * 2
  }

  /** A level and the experience held towards the next one. */
  datatype Progress = Progress(level: int, exp: int)

  /** The sum of the thresholds of levels lo, lo + 1, ..., hi - 1. */
  function Consumed(lo: int, hi: int): int
    requires lo <= hi
    decreases hi - lo
  {
    if lo == hi then 0 else Threshold(lo) + Consumed(lo + 1, hi)
  }

  /**
   * Repeatedly spends a level's threshold while the experience reaches it.
   * The level never falls; what is left is below the final level's
   * threshold; and leftover plus the thresholds spent is the experience
   * put in.
   */
  function LevelUp(level: int, exp: int): (p: Progress)
    requires level >= 1
    decreases exp
    ensures p.level >= level
    ensures p.exp < Threshold(p.level)
    ensures exp >= 0 ==> p.exp >= 0
    ensures p.exp + Consumed(level, p.level) == exp
  {
    if exp >= Threshold(level) then LevelUp(level + 1, exp - Threshold(level))
    else Progress(level, exp)
  }

  lemma {:induction false} ConsumedStep(lo: int, hi: int)
    requires 1 <= lo <= hi
    ensures Consumed(lo, hi + 1) == Consumed(lo, hi) + Threshold(hi)
    decreases hi - lo
  {
    if lo < hi {
      ConsumedStep(lo + 1, hi);
    }
  }

  /** The thresholds spent grow with the level reached. */
  lemma {:induction false} ConsumedMonotone(lo: int, a: int, b: int)
    requires 1 <= lo <= a <= b
    ensures Consumed(lo, a) <= Consumed(lo, b)
    decreases b - a
  {
    if a < b {
      ConsumedMonotone(lo, a, b - 1);
      ConsumedStep(lo, b - 1);
    }
  }

  /**
   * The level-up result is the only progress that reaches at least the
   * starting level, keeps the experience below its threshold and accounts
   * for all experience.
   */
  lemma {:induction false} LevelUpUnique(level: int, exp: int, q: Progress)
    requires level >= 1 && exp >= 0
    requires q.level >= level && 0 <= q.exp < Threshold(q.level)
    requires q.exp + Consumed(level, q.level) == exp
    ensures q == LevelUp(level, exp)
  {
    var p := LevelUp(level, exp);
    if p.level < q.level {
      ConsumedStep(level, p.level);
      ConsumedMonotone(level, p.level + 1, q.level);
      assert false;
    } else if q.level < p.level {
      ConsumedStep(level, q.level);
      ConsumedMonotone(level, q.level + 1, p.level);
      assert false;
    }
  }

  /**
   * Levelling is insensitive to how experience arrives: handing `gain` to an
   * already levelled state gives what one pass over the whole amount gives.
   */
  lemma {:induction false} LevelUpCompose(level: int, exp: int, gain: int)
    requires level >= 1 && gain >= 0
    ensures LevelUp(LevelUp(level, exp).level, LevelUp(level, exp).exp + gain) == LevelUp(level, exp + gain)
    decreases exp
  {
    if exp >= Threshold(level) {
      LevelUpCompose(level + 1, exp - Threshold(level), gain);
    }
  }

  /** Weight after a meal: up by calories/2000 * 0.1, at most 0.1, never past the cap. */
  function WeightAfter(weight: real, t: Totals): (w: real)
    ensures Get(t, Calories) <= 0.0 ==> w == weight
    ensures Get(t, Calories) > 0.0 ==> w <= WeightCap && w <= weight + 0.1
    ensures weight <= WeightCap ==> weight <= w <= WeightCap
    ensures 0.0 < Get(t, Calories) <= 2000.0 && weight + Get(t, Calories) / 20000.0 <= WeightCap ==>
      w == weight + Get(t, Calories) / 20000.0
    ensures Get(t, Calories) >= 2000.0 ==> w == Min(weight + 0.1, WeightCap)
    ensures Get(t, Calories) > 0.0 && weight + Min(Get(t, Calories) / 20000.0, 0.1) >= WeightCap ==> w == WeightCap
  {
    if t.calories > 0.0 then Min(weight + Min(t.calories / 2000.0 * 0.1, 0.1), WeightCap)
    else weight
  }

  /** Strength after a meal: up by protein/30 * 0.1, at most 0.1, never past the cap. */
  function StrengthAfter(strength: real, t: Totals): (s: real)
    ensures Get(t, Protein) <= 0.0 ==> s == strength
    ensures Get(t, Protein) > 0.0 ==> s <= StrengthCap && s <= strength + 0.1
    ensures strength <= StrengthCap ==> strength <= s <= StrengthCap
    ensures 0.0 < Get(t, Protein) <= 30.0 && strength + Get(t, Protein) / 300.0 <= StrengthCap ==>
      s == strength + Get(t, Protein) / 300.0
    ensures Get(t, Protein) >= 30.0 ==> s == Min(strength + 0.1, StrengthCap)
    ensures Get(t, Protein) > 0.0 && strength + Min(Get(t, Protein) / 300.0, 0.1) >= StrengthCap ==> s == StrengthCap
  {
    if t.protein > 0.0 then Min(strength + Min(t.protein / 30.0 * 0.1, 0.1), StrengthCap)
    else strength
  }

  /** Height after a meal: up by 0.05 when calcium or vitamin D is positive, never past the cap. */
  function HeightAfter(height: real, t: Totals): (h: real)
    ensures !(Get(t, Calcium) > 0.0 || Get(t, VitaminD) > 0.0) ==> h == height
    ensures Get(t, Calcium) > 0.0 || Get(t, VitaminD) > 0.0 ==> h == Min(height + 0.05, HeightCap)
    ensures height <= HeightCap ==> height <= h <= HeightCap
  {
    if t.calcium > 0.0 || t.vitaminD > 0.0 then Min(height + 0.05, HeightCap)
    else height
  }

  /** IQ after a meal: up by 0.05 per vitamin with a positive total, never past the cap. */
  function IqAfter(iq: real, t: Totals): (q: real)
    ensures CountPositive(t, Vitamins) == 0 ==> q == iq
    ensures CountPositive(t, Vitamins) > 0 ==> q == Min(iq + CountPositive(t, Vitamins) as real * 0.05, IqCap)
    ensures iq <= IqCap ==> iq <= q <= IqCap
  {
    var count := CountPositive(t, Vitamins);
    if count > 0 then Min(iq + count as real * 0.05, IqCap) else iq
  }

  /** The experience percentage shown by the info page, which uses level * 100. */
  function ExpPercentage(level: int, exp: int): (p: real)
    requires level >= 1
    ensures p * (level * 100) as real == exp as real * 100.0
    ensures exp >= 0 <==> p >= 0.0
  {
    exp as real / (level * 100) as real * 100.0
  }

  /**
   * Under the progression invariant the displayed percentage lies in
   * [0, 200), because the display threshold is half the real one.
   */
  lemma ExpPercentageRange(level: int, exp: int)
    requires level >= 1 && 0 <= exp < Threshold(level)
    ensures 0.0 <= ExpPercentage(level, exp) < 200.0
  {
    var d := (level * 100) as real;
    var x := exp as real;
    assert 0.0 <= x < 2.0 * d;
    var q := x / d;
    assert q * d == x;
    if q >= 2.0 {
      assert false;
    }
    assert ExpPercentage(level, exp) == q * 100.0;
  }

  /** A reachable state whose displayed percentage is over 100%. */
  lemma ExpPercentageOver100()
    ensures 150 < Threshold(1) && ExpPercentage(1, 150) == 150.0
  {
  }

  /** A snapshot of a spirit's fields. */
  datatype SpiritState = SpiritState(userName: string, name: string, level: int, exp: int,
                                     height: real, weight: real, iq: real, strength: real,
                                     createdAt: int, updatedAt: int)
  {
    /** The progression invariant: level and experience in range, attributes within caps. */
    predicate InRange()
    {
      && level >= 1 && 0 <= exp < Threshold(level)
      && height <= HeightCap && weight <= WeightCap
      && iq <= IqCap && strength <= StrengthCap
    }
  }

  /**
   * The state after one meal event: the gain is added and levelled up, each
   * attribute grows by its rule and the update time is stamped; the names
   * and the creation time stay. The progression invariant is kept.
   */
  function AfterMeal(st: SpiritState, t: Totals, now: int): (r: SpiritState)
    requires st.level >= 1
    ensures r.level >= st.level
    ensures r.exp + Consumed(st.level, r.level) == st.exp + ExpGain(t)
    ensures r.userName == st.userName && r.name == st.name && r.createdAt == st.createdAt
    ensures st.InRange() ==> r.InRange()
  {
    var p := LevelUp(st.level, st.exp + ExpGain(t));
    st.(level := p.level, exp := p.exp,
        weight := WeightAfter(st.weight, t), strength := StrengthAfter(st.strength, t),
        height := HeightAfter(st.height, t), iq := IqAfter(st.iq, t), updatedAt := now)
  }

  /** A user's spirit, updated in place by meal events and renaming. */
  class Spirit {
    var userName: string
    var name: string
    var level: int
    var exp: int
    var height: real
    var weight: real
    var iq: real
    var strength: real
    var createdAt: int
    var updatedAt: int

    function State(): SpiritState
      reads this
    {
      SpiritState(userName, name, level, exp, height, weight, iq, strength, createdAt, updatedAt)
    }

    /** The progression invariant: every level and attribute in range. */
    ghost predicate Valid()
      reads this
    {
      State().InRange()
    }

    constructor (userName: string, name: string, level: int, exp: int,
                 height: real, weight: real, iq: real, strength: real, now: int)
      ensures this.userName == userName && this.name == name
      ensures this.level == level && this.exp == exp
      ensures this.height == height && this.weight == weight
      ensures this.iq == iq && this.strength == strength
      ensures createdAt == now && updatedAt == now
    {
      this.userName := userName;
      this.name := name;
      this.level := level;
      this.exp := exp;
      this.height := height;
      this.weight := weight;
      this.iq := iq;
      this.strength := strength;
      createdAt := now;
      updatedAt := now;
    }

    /**
     * Applies one meal's totals: adds the experience gain, levels up while
     * the experience reaches the threshold, then grows the attributes.
     * Returns the gain and the threshold of the level reached.
     */
    method ApplyMeal(t: Totals, now: int) returns (gain: int, nextLevelExp: int)
      requires level >= 1
      modifies this
      ensures gain == ExpGain(t)
      ensures nextLevelExp == Threshold(level)
      ensures State() == AfterMeal(old(State()), t, now)
    {
      gain := ExpGain(t);
      nextLevelExp := AddExperience(gain);
      GrowAttributes(t);
      updatedAt := now;
    }

    /** Adds `gain` and levels up while the experience reaches the threshold. */
    method AddExperience(gain: int) returns (nextLevelExp: int)
      requires level >= 1
      modifies this
      ensures Progress(level, exp) == LevelUp(old(level), old(exp) + gain)
      ensures nextLevelExp == Threshold(level)
      ensures height == old(height) && weight == old(weight)
      ensures iq == old(iq) && strength == old(strength)
      ensures userName == old(userName) && name == old(name)
      ensures createdAt == old(createdAt) && updatedAt == old(updatedAt)
    {
      exp := exp + gain;
      nextLevelExp := level * LevelStep;
      while exp >= nextLevelExp
        invariant level >= old(level)
        invariant nextLevelExp == Threshold(level)
        invariant LevelUp(level, exp) == LevelUp(old(level), old(exp) + gain)
        invariant height == old(height) && weight == old(weight)
        invariant iq == old(iq) && strength == old(strength)
        invariant userName == old(userName) && name == old(name)
        invariant createdAt == old(createdAt) && updatedAt == old(updatedAt)
        decreases exp
      {
        exp := exp - nextLevelExp;
        level := level + 1;
        nextLevelExp := level * LevelStep;
      }
    }

    /** Grows weight, strength, height and IQ from the meal's totals. */
    method GrowAttributes(t: Totals)
      modifies this
      ensures weight == WeightAfter(old(weight), t)
      ensures strength == StrengthAfter(old(strength), t)
      ensures height == HeightAfter(old(height), t)
      ensures iq == IqAfter(old(iq), t)
      ensures level == old(level) && exp == old(exp)
      ensures userName == old(userName) && name == old(name)
      ensures createdAt == old(createdAt) && updatedAt == old(updatedAt)
    {
      if t.calories > 0.0 {
        var weightGain := Min(t.calories / 2000.0 * 0.1, 0.1);
        weight := Min(weight + weightGain, WeightCap);
      }
      if t.protein > 0.0 {
        var strengthGain := Min(t.protein / 30.0 * 0.1, 0.1);
        strength := Min(strength + strengthGain, StrengthCap);
      }
      if t.calcium > 0.0 || t.vitaminD > 0.0 {
        height := Min(height + 0.05, HeightCap);
      }
      var vitaminsCount := CountPositive(t, Vitamins);
      if vitaminsCount > 0 {
        iq := Min(iq + vitaminsCount as real * 0.05, IqCap);
      }
    }

    /** Replaces the name and stamps the update time; nothing else changes. */
    method Rename(newName: string, now: int)
      modifies this
      ensures name == newName && updatedAt == now
      ensures userName == old(userName) && level == old(level) && exp == old(exp)
      ensures height == old(height) && weight == old(weight)
      ensures iq == old(iq) && strength == old(strength) && createdAt == old(createdAt)
    {
      name := newName;
      updatedAt := now;
    }
  }
}
