/**
 * Per-food scaling by portion count and the summation of per-food nutrition
 * into a totals record.
 */
module Aggregation {
  import opened Wrappers
  import opened Nutrients

  /** Python truthiness of a nullable number: absent and zero are both false. */
  predicate Truthy(v: Option<real>)
  {
    v.Some? && v.value != 0.0
  }

  function ScaleMicro(v: Option<real>, amount: real): Option<real>
  {
    if Truthy(v) then Some(v.value * amount) else None
  }

  /**
   * The nutrition entry recorded for one food eaten `amount` times
   * (nutrition.py:136-148).
   */
  function Scale(p: Profile, amount: real): (r: Profile)
    ensures forall n :: Value(r, n).Some? <==> IsMacro(n) || Truthy(Value(p, n))
  {
    Profile(p.calories * amount, p.protein * amount, p.fat * amount,
            ScaleMicro(p.calcium, amount), ScaleMicro(p.iron, amount),
            ScaleMicro(p.zinc, amount), ScaleMicro(p.magnesium, amount),
            ScaleMicro(p.vitaminA, amount), ScaleMicro(p.vitaminB1, amount),
            ScaleMicro(p.vitaminB2, amount), ScaleMicro(p.vitaminC, amount),
            ScaleMicro(p.vitaminD, amount), ScaleMicro(p.vitaminE, amount))
  }

  /** A micronutrient is multiplied only when truthy, and is absent otherwise. */
  lemma ScaleMicroValue(v: Option<real>, amount: real)
    ensures ScaleMicro(v, amount).Some? <==> Truthy(v)
    ensures ScaleMicro(v, amount).Some? ==> ScaleMicro(v, amount).value == v.value * amount
  {
  }

  /** Calories, protein and fat are always multiplied by the amount. */
  lemma ScaleMacroValue(p: Profile, amount: real, n: Nutrient)
    requires IsMacro(n)
    ensures Value(Scale(p, amount), n).Some?
    ensures Value(Scale(p, amount), n).value == Value(p, n).value * amount
  {
    match n
    case Calories =>
    case Protein =>
    case Fat =>
  }

  /** A micronutrient is scaled as a nullable value. */
  lemma ScaleMicroEntry(p: Profile, amount: real, n: Nutrient)
    requires !IsMacro(n)
    ensures Value(Scale(p, amount), n) == ScaleMicro(Value(p, n), amount)
  {
    match n
    case Calcium =>
    case Iron =>
    case Zinc =>
    case Magnesium =>
    case VitaminA =>
    case VitaminB1 =>
    case VitaminB2 =>
    case VitaminC =>
    case VitaminD =>
    case VitaminE =>
  }

  /**
   * Every macronutrient is multiplied by the amount; a micronutrient is
   * multiplied only when the food's value is truthy, and is absent otherwise.
   */
  lemma ScaleValue(p: Profile, amount: real, n: Nutrient)
    ensures Value(Scale(p, amount), n).Some? <==> IsMacro(n) || Truthy(Value(p, n))
    ensures Value(Scale(p, amount), n).Some? ==>
      Value(Scale(p, amount), n).value == Value(p, n).value * amount
  {
    if IsMacro(n) {
      ScaleMacroValue(p, amount, n);
    } else {
      ScaleMicroEntry(p, amount, n);
      ScaleMicroValue(Value(p, n), amount);
    }
  }

  /** A scaled entry contributes the raw contribution times the amount. */
  lemma EntryContribution(v: Option<real>, w: Option<real>, amount: real, macro: bool)
    requires macro ==> v.Some?
    requires w.Some? <==> macro || Truthy(v)
    requires w.Some? ==> w.value == v.value * amount
    ensures Contribution(w) == Contribution(v) * amount
  {
    if w.None? {
      assert Contribution(v) == 0.0 by {
        if v.Some? { assert v.value == 0.0; }
      }
      assert 0.0 * amount == 0.0;
    }
  }

  /**
   * Scaling and then summing agrees with summing the raw value times the
   * amount: a stored zero or an absent value contributes nothing either way.
   */
  lemma ScaledContribution(p: Profile, amount: real, n: Nutrient)
    ensures Contribution(Value(Scale(p, amount), n)) == Contribution(Value(p, n)) * amount
  {
    ScaleValue(p, amount, n);
    EntryContribution(Value(p, n), Value(Scale(p, amount), n), amount, IsMacro(n));
  }

  /** The sum, over the foods in order, of their present values for `n`. */
  function NutrientSum(ps: seq<Profile>, n: Nutrient): real
  {
    if ps == [] then 0.0
    else NutrientSum(ps[..|ps| - 1], n) + Contribution(Value(ps[|ps| - 1], n))
  }

  lemma {:induction false} NutrientSumConcat(a: seq<Profile>, b: seq<Profile>, n: Nutrient)
    ensures NutrientSum(a + b, n) == NutrientSum(a, n) + NutrientSum(b, n)
  {
    if b == [] {
      assert a + b == a;
    } else {
      assert (a + b)[..|a + b| - 1] == a + b[..|b| - 1];
      NutrientSumConcat(a, b[..|b| - 1], n);
    }
  }

  lemma MultisetRemoveAt<T>(b: seq<T>, j: nat)
    requires j < |b|
    ensures multiset(b[..j] + b[j + 1..]) == multiset(b) - multiset{b[j]}
  {
    assert b == b[..j] + [b[j]] + b[j + 1..];
  }

  lemma {:induction false} NutrientSumRemoveAt(b: seq<Profile>, j: nat, n: Nutrient)
    requires j < |b|
    ensures NutrientSum(b, n) == NutrientSum(b[..j] + b[j + 1..], n) + Contribution(Value(b[j], n))
  {
    assert b == b[..j] + ([b[j]] + b[j + 1..]);
    NutrientSumConcat(b[..j], [b[j]] + b[j + 1..], n);
    NutrientSumConcat([b[j]], b[j + 1..], n);
    NutrientSumConcat(b[..j], b[j + 1..], n);
    assert [b[j]][..0] == [];
  }

  /** Reordering the foods does not change any sum. */
  lemma {:induction false} NutrientSumPermutation(a: seq<Profile>, b: seq<Profile>, n: Nutrient)
    requires multiset(a) == multiset(b)
    ensures NutrientSum(a, n) == NutrientSum(b, n)
    decreases |a|
  {
    if a == [] {
      assert |b| == |multiset(b)| == 0;
    } else {
      var x := a[|a| - 1];
      var a' := a[..|a| - 1];
      assert a == a' + [x];
      assert multiset(a') == multiset(a) - multiset{x};
      assert x in multiset(b);
      var j :| 0 <= j < |b| && b[j] == x;
      var b' := b[..j] + b[j + 1..];
      MultisetRemoveAt(b, j);
      NutrientSumPermutation(a', b', n);
      NutrientSumRemoveAt(b, j, n);
      var c := Contribution(Value(x, n));
      assert NutrientSum(a, n) == NutrientSum(a', n) + c;
      assert NutrientSum(b, n) == NutrientSum(b', n) + c;
    }
  }

  /** Adds one food's present values into the totals, key by key. */
  method AccumulateProfile(total: Totals, p: Profile) returns (r: Totals)
    ensures forall n :: Get(r, n) == Get(total, n) + Contribution(Value(p, n))
  {
    r := total;
    var j := 0;
    while j < |AllNutrients|
      invariant 0 <= j <= |AllNutrients|
      invariant forall n :: Index(n) < j ==> Get(r, n) == Get(total, n) + Contribution(Value(p, n))
      invariant forall n :: Index(n) >= j ==> Get(r, n) == Get(total, n)
    {
      var key := AllNutrients[j];
      AllNutrientsDistinct(j);
      var v := Value(p, key);
      if v.Some? {
        r := Set(r, key, Get(r, key) + v.value);
      }
      j := j + 1;
    }
  }

  /**
   * The totals of a meal's nutrition entries: each nutrient's total is the
   * sum of the entries' present values; an empty meal totals zero.
   */
  method CalculateTotalNutrition(foods: seq<Profile>) returns (total: Totals)
    ensures forall n :: Get(total, n) == NutrientSum(foods, n)
  {
    total := Zero;
    var i := 0;
    while i < |foods|
      invariant 0 <= i <= |foods|
      invariant forall n :: Get(total, n) == NutrientSum(foods[..i], n)
    {
      assert foods[..i + 1][..i] == foods[..i];
      total := AccumulateProfile(total, foods[i]);
      i := i + 1;
    }
    assert foods[..i] == foods;
  }

  /** A meal with no foods totals zero on every nutrient. */
  lemma EmptyMealTotalsZero(n: Nutrient)
    ensures NutrientSum([], n) == 0.0
  {
  }

  /** The totals of a reordered meal are the same record. */
  method TotalsIgnoreOrder(a: seq<Profile>, b: seq<Profile>) returns (ta: Totals, tb: Totals)
    requires multiset(a) == multiset(b)
    ensures ta == tb
  {
    ta := CalculateTotalNutrition(a);
    tb := CalculateTotalNutrition(b);
    forall n ensures Get(ta, n) == Get(tb, n) {
      NutrientSumPermutation(a, b, n);
    }
    TotalsEq(ta, tb);
  }
}
