/**
 * Recording a meal: the request checks, the replacement of a user's records
 * for one (date, slot), the per-food nutrition entries and the spirit
 * update that follows.
 */
module MealRoutes {
  import opened Wrappers
  import opened Nutrients
  import opened MealSlot
  import opened Aggregation
  import opened Progression
  import opened Database

  /** One requested food; an absent amount means one portion. */
  datatype FoodItem = FoodItem(foodId: int, amount: Option<real>)

  /**
   * A date argument: absent, a parsed day number, or unparsable text. The
   * routes differ on an empty value: the statistics route treats an empty
   * query value as absent, while the day view and meal recording pass it to
   * the parser and so refuse it as malformed.
   */
  datatype DateArg = NoDate | Date(day: int) | Malformed

  /**
   * A meal request. `foods` is None when the field is missing, is not a
   * list or is falsy; `mealType` is the field passed through `str`, with ""
   * standing for an absent field.
   */
  datatype MealRequest = MealRequest(foods: Option<seq<FoodItem>>, mealType: string, date: DateArg)

  datatype MealError = NoFoods | BadMealType | BadDate | UnknownFood | BadAmount(foodId: int)

  /** Where a meal is filed. */
  datatype Target = Target(slot: Slot, date: int)

  /** A food as the response lists it, with its scaled nutrition. */
  datatype RecordedFood = RecordedFood(foodId: int, foodName: string, amount: real, nutrition: Profile)

  /** The spirit part of the response. */
  datatype SpiritReport = SpiritReport(name: string, level: int, exp: int, nextLevelExp: int,
                                       expGained: int, height: real, weight: real,
                                       iq: real, strength: real)

  datatype MealOutcome = MealOutcome(date: int, slot: Slot, foods: seq<RecordedFood>,
                                     total: Totals, spirit: Option<SpiritReport>)

  function AmountOf(item: FoodItem): real
  {
    if item.amount.Some? then item.amount.value else 1.0
  }

  function FoodIds(items: seq<FoodItem>): (ids: seq<int>)
    ensures |ids| == |items|
    ensures forall i :: 0 <= i < |items| ==> ids[i] == items[i].foodId
  {
    seq(|items|, i requires 0 <= i < |items| => items[i].foodId)
  }

  function Elements(s: seq<int>): set<int>
  {
    set x | x in s
  }

  predicate Distinct(s: seq<int>)
  {
    forall i, j :: 0 <= i < j < |s| ==> s[i] != s[j]
  }

  /** The catalog rows an id list selects: each found id once. */
  function Found(ids: seq<int>, catalog: map<int, Food>): set<int>
  {
    set x | x in ids && x in catalog
  }

  /** A list has as many different elements as entries exactly when no entry repeats. */
  lemma {:induction false} ElementsCard(s: seq<int>)
    ensures |Elements(s)| <= |s|
    ensures |Elements(s)| == |s| <==> Distinct(s)
  {
    if s != [] {
      var p := s[..|s| - 1];
      var x := s[|s| - 1];
      ElementsCard(p);
      assert s == p + [x];
      assert Elements(s) == Elements(p) + {x};
      if x in p {
        var k :| 0 <= k < |p| && p[k] == x;
        assert s[k] == s[|s| - 1];
        assert Elements(s) == Elements(p);
      } else {
        assert |Elements(s)| == |Elements(p)| + 1;
        if Distinct(p) {
          forall i, j | 0 <= i < j < |s| ensures s[i] != s[j] {
            if j < |s| - 1 {
              assert s[i] == p[i] && s[j] == p[j];
            } else {
              assert s[i] == p[i];
            }
          }
        } else {
          var i, j :| 0 <= i < j < |p| && p[i] == p[j];
          assert s[i] == s[j];
        }
      }
    }
  }

  /**
   * The number of catalog rows found equals the number of requested ids
   * exactly when every id is in the catalog and no id repeats.
   */
  lemma FoundAll(ids: seq<int>, catalog: map<int, Food>)
    ensures |Found(ids, catalog)| == |ids| <==>
      (forall i :: 0 <= i < |ids| ==> ids[i] in catalog) && Distinct(ids)
  {
    ElementsCard(ids);
    var f := Found(ids, catalog);
    var e := Elements(ids);
    assert f <= e;
    assert e == f + (e - f);
    assert |e| == |f| + |e - f|;
    if exists i :: 0 <= i < |ids| && ids[i] !in catalog {
      var i :| 0 <= i < |ids| && ids[i] !in catalog;
      assert ids[i] in e - f;
    } else {
      assert e == f;
    }
  }

  /** The id of the first food, in request order, whose amount is not positive. */
  function FirstBadAmount(items: seq<FoodItem>): (r: Option<int>)
    ensures r.None? <==> forall i :: 0 <= i < |items| ==> AmountOf(items[i]) > 0.0
    ensures r.Some? ==> exists i :: 0 <= i < |items| && items[i].foodId == r.value &&
                                  AmountOf(items[i]) <= 0.0 &&
                                  forall j :: 0 <= j < i ==> AmountOf(items[j]) > 0.0
  {
    if items == [] then None
    else if AmountOf(items[0]) <= 0.0 then Some(items[0].foodId)
    else
      var rest := FirstBadAmount(items[1..]);
      assert forall i :: 1 <= i < |items| ==> items[i] == items[1..][i - 1];
      rest
  }

  /** The slot of the request: the classifier's when absent, else the parsed code. */
  function ResolveSlot(code: string, hour: int): (r: Option<Slot>)
    requires 0 <= hour < 24
    ensures code == "" ==> r == Some(MealTypeByHour(hour))
    ensures code != "" ==> (r.Some? <==> code in ["1", "2", "3"])
    ensures code != "" && r.Some? ==> Code(r.value) == code
  {
    if code == "" then Some(MealTypeByHour(hour)) else ParseMealType(code)
  }

  /** The date of the request: today when absent. */
  function ResolveDate(d: DateArg, today: int): (r: Option<int>)
    ensures r.None? <==> d.Malformed?
    ensures d.NoDate? ==> r == Some(today)
    ensures d.Date? ==> r == Some(d.day)
  {
    match d
    case NoDate => Some(today)
    case Date(day) => Some(day)
    case Malformed => None
  }

  /** The request checks of `record_meal`, in the order it makes them. */
  function CheckMeal(req: MealRequest, catalog: map<int, Food>, hour: int, today: int): (r: Result<Target, MealError>)
    requires 0 <= hour < 24
    ensures r == Err(NoFoods) <==> req.foods.None? || req.foods.value == []
    ensures r == Err(BadMealType) <==>
      req.foods.Some? && req.foods.value != [] && req.mealType != "" && req.mealType !in ["1", "2", "3"]
    ensures r == Err(BadDate) <==>
      req.foods.Some? && req.foods.value != [] && (req.mealType == "" || req.mealType in ["1", "2", "3"])
      && req.date.Malformed?
    ensures r == Err(UnknownFood) <==>
      req.foods.Some? && req.foods.value != [] && ResolveSlot(req.mealType, hour).Some? && !req.date.Malformed?
      && |Found(FoodIds(req.foods.value), catalog)| != |req.foods.value|
    ensures r.Err? && r.error.BadAmount? ==>
      && AllKnown(req.foods.value, catalog) && Distinct(FoodIds(req.foods.value))
      && FirstBadAmount(req.foods.value) == Some(r.error.foodId)
    ensures r.Ok? ==> if req.mealType == "" then r.value.slot == MealTypeByHour(hour) else Code(r.value.slot) == req.mealType
    ensures r.Ok? ==> r.value.date == (if req.date.Date? then req.date.day else today)
  {
    if req.foods.None? || |req.foods.value| == 0 then Err(NoFoods)
    else if ResolveSlot(req.mealType, hour).None? then Err(BadMealType)
    else if ResolveDate(req.date, today).None? then Err(BadDate)
    else if |Found(FoodIds(req.foods.value), catalog)| != |req.foods.value| then Err(UnknownFood)
    else if FirstBadAmount(req.foods.value).Some? then
      FoundAll(FoodIds(req.foods.value), catalog);
      Err(BadAmount(FirstBadAmount(req.foods.value).value))
    else Ok(Target(ResolveSlot(req.mealType, hour).value, ResolveDate(req.date, today).value))
  }

  /**
   * A meal is accepted exactly when it lists at least one food, its meal
   * type is absent or one of the three codes, its date parses, every food
   * is in the catalog and listed once, and every amount is positive.
   */
  lemma MealAccepted(req: MealRequest, catalog: map<int, Food>, hour: int, today: int)
    requires 0 <= hour < 24
    ensures CheckMeal(req, catalog, hour, today).Ok? <==>
      && req.foods.Some? && |req.foods.value| > 0
      && (req.mealType == "" || req.mealType in ["1", "2", "3"])
      && !req.date.Malformed?
      && (forall i :: 0 <= i < |req.foods.value| ==> req.foods.value[i].foodId in catalog)
      && Distinct(FoodIds(req.foods.value))
      && (forall i :: 0 <= i < |req.foods.value| ==> AmountOf(req.foods.value[i]) > 0.0)
  {
    if req.foods.Some? {
      var ids := FoodIds(req.foods.value);
      FoundAll(ids, catalog);
      assert (forall i :: 0 <= i < |ids| ==> ids[i] in catalog) <==>
        (forall i :: 0 <= i < |req.foods.value| ==> req.foods.value[i].foodId in catalog);
    }
  }

  /** A food listed twice is refused even when it is in the catalog. */
  lemma RepeatedFoodRejected(req: MealRequest, catalog: map<int, Food>, hour: int, today: int, i: nat, j: nat)
    requires 0 <= hour < 24
    requires req.foods.Some? && i < j < |req.foods.value|
    requires req.foods.value[i].foodId == req.foods.value[j].foodId
    ensures CheckMeal(req, catalog, hour, today).Err?
  {
    MealAccepted(req, catalog, hour, today);
    assert FoodIds(req.foods.value)[i] == FoodIds(req.foods.value)[j];
  }

  /** The (user, date, slot) group a record belongs to. */
  datatype SlotKey = SlotKey(userId: int, date: int, slot: Slot)

  function KeyOf(r: MealRecord): SlotKey
  {
    SlotKey(r.userId, r.date, r.slot)
  }

  /** The records of one group, in store order. */
  function InSlot(s: seq<MealRecord>, k: SlotKey): (r: seq<MealRecord>)
    ensures forall i :: 0 <= i < |r| ==> r[i] in s && KeyOf(r[i]) == k
  {
    if s == [] then []
    else (if KeyOf(s[0]) == k then [s[0]] else []) + InSlot(s[1..], k)
  }

  /** The records outside one group, in store order. */
  function OutsideSlot(s: seq<MealRecord>, k: SlotKey): (r: seq<MealRecord>)
    ensures forall i :: 0 <= i < |r| ==> r[i] in s && KeyOf(r[i]) != k
    ensures forall x :: x in s && KeyOf(x) != k ==> x in r
  {
    if s == [] then []
    else (if KeyOf(s[0]) != k then [s[0]] else []) + OutsideSlot(s[1..], k)
  }

  /** Deletes a group's records and appends the new ones. */
  function ReplaceSlot(s: seq<MealRecord>, k: SlotKey, added: seq<MealRecord>): (r: seq<MealRecord>)
    ensures forall x :: x in r <==> (x in s && KeyOf(x) != k) || x in added
  {
    OutsideSlot(s, k) + added
  }

  lemma {:induction false} InSlotConcat(a: seq<MealRecord>, b: seq<MealRecord>, k: SlotKey)
    ensures InSlot(a + b, k) == InSlot(a, k) + InSlot(b, k)
  {
    if a != [] {
      assert (a + b)[1..] == a[1..] + b;
      InSlotConcat(a[1..], b, k);
    } else {
      assert a + b == b;
    }
  }

  lemma {:induction false} OutsideSlotConcat(a: seq<MealRecord>, b: seq<MealRecord>, k: SlotKey)
    ensures OutsideSlot(a + b, k) == OutsideSlot(a, k) + OutsideSlot(b, k)
  {
    if a != [] {
      var head := if KeyOf(a[0]) != k then [a[0]] else [];
      assert (a + b)[0] == a[0];
      assert (a + b)[1..] == a[1..] + b;
      assert OutsideSlot(a + b, k) == head + OutsideSlot(a[1..] + b, k);
      OutsideSlotConcat(a[1..], b, k);
      assert OutsideSlot(a, k) == head + OutsideSlot(a[1..], k);
    } else {
      assert a + b == b;
    }
  }

  /** Records all of one group: selecting returns them all, excluding returns none. */
  lemma {:induction false} UniformSlot(s: seq<MealRecord>, k: SlotKey, k': SlotKey)
    requires forall i :: 0 <= i < |s| ==> KeyOf(s[i]) == k
    ensures InSlot(s, k) == s && OutsideSlot(s, k) == []
    ensures k' != k ==> InSlot(s, k') == []
  {
    if s != [] {
      UniformSlot(s[1..], k, k');
    }
  }

  /** Selecting a group among the records outside another group. */
  lemma {:induction false} InSlotOutside(s: seq<MealRecord>, k: SlotKey, k': SlotKey)
    ensures InSlot(OutsideSlot(s, k), k) == []
    ensures k' != k ==> InSlot(OutsideSlot(s, k), k') == InSlot(s, k')
  {
    if s != [] {
      InSlotOutside(s[1..], k, k');
      var head := if KeyOf(s[0]) != k then [s[0]] else [];
      InSlotConcat(head, OutsideSlot(s[1..], k), k);
      InSlotConcat(head, OutsideSlot(s[1..], k), k');
    }
  }

  /**
   * After a replacement the group holds exactly the new records, and every
   * other group holds what it held before.
   */
  lemma ReplaceSlotContents(s: seq<MealRecord>, k: SlotKey, added: seq<MealRecord>, k': SlotKey)
    requires forall i :: 0 <= i < |added| ==> KeyOf(added[i]) == k
    ensures InSlot(ReplaceSlot(s, k, added), k) == added
    ensures k' != k ==> InSlot(ReplaceSlot(s, k, added), k') == InSlot(s, k')
  {
    InSlotConcat(OutsideSlot(s, k), added, k);
    InSlotConcat(OutsideSlot(s, k), added, k');
    InSlotOutside(s, k, k');
    UniformSlot(added, k, k');
  }

  /** Recording the same meal twice leaves the store as recording it once. */
  lemma ReplaceSlotIdempotent(s: seq<MealRecord>, k: SlotKey, added: seq<MealRecord>)
    requires forall i :: 0 <= i < |added| ==> KeyOf(added[i]) == k
    ensures ReplaceSlot(ReplaceSlot(s, k, added), k, added) == ReplaceSlot(s, k, added)
  {
    var kept := OutsideSlot(s, k);
    OutsideSlotConcat(kept, added, k);
    OutsideIdempotent(s, k);
    UniformSlot(added, k, k);
    assert OutsideSlot(kept + added, k) == kept + [];
    assert kept + [] == kept;
  }

  lemma {:induction false} OutsideIdempotent(s: seq<MealRecord>, k: SlotKey)
    ensures OutsideSlot(OutsideSlot(s, k), k) == OutsideSlot(s, k)
  {
    if s != [] {
      OutsideIdempotent(s[1..], k);
      var head := if KeyOf(s[0]) != k then [s[0]] else [];
      OutsideSlotConcat(head, OutsideSlot(s[1..], k), k);
    }
  }

  /** The first bad amount is the one before which every amount is positive. */
  lemma {:induction false} FirstBadAt(items: seq<FoodItem>, i: nat)
    requires i < |items| && AmountOf(items[i]) <= 0.0
    requires forall j :: 0 <= j < i ==> AmountOf(items[j]) > 0.0
    ensures FirstBadAmount(items) == Some(items[i].foodId)
  {
    if i > 0 {
      assert AmountOf(items[0]) > 0.0;
      FirstBadAt(items[1..], i - 1);
    }
  }

  /** The record one requested food becomes. */
  function RecordOf(userId: int, t: Target, item: FoodItem): MealRecord
  {
    MealRecord(userId, item.foodId, t.slot, t.date, AmountOf(item))
  }

  /** The records a request creates, one per food, in request order. */
  function NewRecords(userId: int, t: Target, items: seq<FoodItem>): (r: seq<MealRecord>)
    ensures |r| == |items|
    ensures forall i :: 0 <= i < |r| ==> KeyOf(r[i]) == SlotKey(userId, t.date, t.slot)
  {
    seq(|items|, i requires 0 <= i < |items| => RecordOf(userId, t, items[i]))
  }

  predicate AllKnown(items: seq<FoodItem>, catalog: map<int, Food>)
  {
    forall i :: 0 <= i < |items| ==> items[i].foodId in catalog
  }

  function RecordedOne(item: FoodItem, catalog: map<int, Food>): RecordedFood
    requires item.foodId in catalog
  {
    var food := catalog[item.foodId];
    RecordedFood(item.foodId, food.name, AmountOf(item), Scale(food.profile, AmountOf(item)))
  }

  /** The response's food list: each food's catalog nutrition scaled by its amount. */
  function Recorded(items: seq<FoodItem>, catalog: map<int, Food>): (r: seq<RecordedFood>)
    requires AllKnown(items, catalog)
    ensures |r| == |items|
  {
    seq(|items|, i requires 0 <= i < |items| => RecordedOne(items[i], catalog))
  }

  function Nutritions(fs: seq<RecordedFood>): (ps: seq<Profile>)
    ensures |ps| == |fs|
  {
    seq(|fs|, i requires 0 <= i < |fs| => fs[i].nutrition)
  }

  /**
   * Each nutrient of a meal's total is the sum, over the requested foods,
   * of the catalog value times the amount (absent and zero values count
   * as nothing).
   */
  lemma {:induction false} RecordedTotal(items: seq<FoodItem>, catalog: map<int, Food>, n: Nutrient)
    requires AllKnown(items, catalog)
    ensures NutrientSum(Nutritions(Recorded(items, catalog)), n) == RawScaledSum(items, catalog, n)
  {
    if items != [] {
      var p := items[..|items| - 1];
      var last := items[|items| - 1];
      var ps := Nutritions(Recorded(items, catalog));
      var qs := Nutritions(Recorded(p, catalog));
      assert AllKnown(p, catalog);
      assert ps[..|ps| - 1] == qs by {
        forall i | 0 <= i < |qs| ensures ps[i] == qs[i] {
          assert p[i] == items[i];
        }
      }
      assert ps[|ps| - 1] == RecordedOne(last, catalog).nutrition;
      RecordedTotal(p, catalog, n);
      RecordedOneValue(last, catalog, n);
    }
  }

  /** A recorded food contributes its catalog value times its amount. */
  lemma RecordedOneValue(item: FoodItem, catalog: map<int, Food>, n: Nutrient)
    requires item.foodId in catalog
    ensures Contribution(Value(RecordedOne(item, catalog).nutrition, n)) == ScaledValue(item, catalog, n)
  {
    var food := catalog[item.foodId].profile;
    var amount := AmountOf(item);
    assert ScaledValue(item, catalog, n) == Contribution(Value(food, n)) * amount;
    assert RecordedOne(item, catalog).nutrition == Scale(food, amount);
    ScaledContribution(food, amount, n);
  }

  /** The sum over the foods of the catalog value times the amount. */
  function RawScaledSum(items: seq<FoodItem>, catalog: map<int, Food>, n: Nutrient): real
    requires AllKnown(items, catalog)
  {
    if items == [] then 0.0
    else RawScaledSum(items[..|items| - 1], catalog, n) + ScaledValue(items[|items| - 1], catalog, n)
  }

  /** One food's catalog value for a nutrient times its amount. */
  function ScaledValue(item: FoodItem, catalog: map<int, Food>, n: Nutrient): real
    requires item.foodId in catalog
  {
    Contribution(Value(catalog[item.foodId].profile, n)) * AmountOf(item)
  }

  function ReportOf(s: Spirit, gain: int): SpiritReport
    reads s
  {
    SpiritReport(s.name, s.level, s.exp, Threshold(s.level), gain, s.height, s.weight, s.iq, s.strength)
  }

  /**
   * Applies a meal's totals to the user's spirit. A user without a spirit
   * gets None and nothing changes.
   */
  method UpdateSpiritAttributes(db: Db, userId: int, t: Totals, now: int) returns (r: Option<SpiritReport>)
    requires db.Valid()
    modifies db.SpiritOf(userId)
    ensures db.Valid()
    ensures r.Some? <==> userId in db.spirits
    ensures userId in db.spirits ==>
      && old(db.spirits[userId].level) >= 1
      && db.spirits[userId].State() == AfterMeal(old(db.spirits[userId].State()), t, now)
      && r.value == ReportOf(db.spirits[userId], ExpGain(t))
  {
    if userId !in db.spirits {
      return None;
    }
    var spirit := db.spirits[userId];
    var gain, nextLevelExp := spirit.ApplyMeal(t, now);
    r := Some(SpiritReport(spirit.name, spirit.level, spirit.exp, nextLevelExp, gain,
                           spirit.height, spirit.weight, spirit.iq, spirit.strength));
  }

  /** A checked request: where it is filed, its records and its response list. */
  datatype Prepared = Prepared(target: Target, added: seq<MealRecord>, foods: seq<RecordedFood>)

  /**
   * The checks of `record_meal` and the records and response entries it
   * builds, without touching the store: a refused request names the first
   * failed check; an accepted one gets one record and one scaled entry per
   * food, in request order.
   */
  method PrepareMeal(db: Db, userId: int, req: MealRequest, hour: int, today: int)
    returns (r: Result<Prepared, MealError>)
    requires 0 <= hour < 24
    ensures r.Err? <==> CheckMeal(req, db.foods, hour, today).Err?
    ensures r.Err? ==> r.error == CheckMeal(req, db.foods, hour, today).error
    ensures r.Ok? ==>
      && r.value.target == CheckMeal(req, db.foods, hour, today).value
      && AllKnown(req.foods.value, db.foods)
      && r.value.added == NewRecords(userId, r.value.target, req.foods.value)
      && r.value.foods == Recorded(req.foods.value, db.foods)
  {
    if req.foods.None? || |req.foods.value| == 0 {
      return Err(NoFoods);
    }
    var items := req.foods.value;
    var slot: Slot;
    if req.mealType == "" {
      slot := MealTypeByHour(hour);
    } else {
      var parsed := ParseMealType(req.mealType);
      if parsed.None? {
        return Err(BadMealType);
      }
      slot := parsed.value;
    }
    var date: int;
    match req.date {
      case NoDate => date := today;
      case Date(day) => date := day;
      case Malformed => return Err(BadDate);
    }
    var ids := FoodIds(items);
    if |Found(ids, db.foods)| != |ids| {
      return Err(UnknownFood);
    }
    FoundAll(ids, db.foods);
    var target := Target(slot, date);
    var built := BuildRecords(userId, target, items, db.foods);
    if built.Err? {
      return Err(BadAmount(built.error));
    }
    r := Ok(built.value);
  }

  /**
   * The loop of `record_meal` over the requested foods: stops at the first
   * food whose amount is not positive, else builds one record and one
   * scaled entry per food.
   */
  method BuildRecords(userId: int, target: Target, items: seq<FoodItem>, catalog: map<int, Food>)
    returns (r: Result<Prepared, int>)
    requires AllKnown(items, catalog)
    ensures r.Err? <==> FirstBadAmount(items).Some?
    ensures r.Err? ==> r.error == FirstBadAmount(items).value
    ensures r.Ok? ==> r.value == Prepared(target, NewRecords(userId, target, items), Recorded(items, catalog))
  {
    var added: seq<MealRecord> := [];
    var recorded: seq<RecordedFood> := [];
    var i := 0;
    while i < |items|
      invariant 0 <= i <= |items|
      invariant forall j :: 0 <= j < i ==> AmountOf(items[j]) > 0.0
      invariant |added| == i && forall j :: 0 <= j < i ==> added[j] == RecordOf(userId, target, items[j])
      invariant |recorded| == i && forall j :: 0 <= j < i ==> recorded[j] == RecordedOne(items[j], catalog)
    {
      var item := items[i];
      if AmountOf(item) <= 0.0 {
        FirstBadAt(items, i);
        return Err(item.foodId);
      }
      added := added + [RecordOf(userId, target, item)];
      recorded := recorded + [RecordedOne(item, catalog)];
      i := i + 1;
    }
    assert added == NewRecords(userId, target, items);
    assert recorded == Recorded(items, catalog);
    r := Ok(Prepared(target, added, recorded));
  }

  /**
   * The total of a meal's response list: per nutrient, the sum over the
   * requested foods of the catalog value times the amount.
   */
  method MealTotal(foods: seq<RecordedFood>, items: seq<FoodItem>, catalog: map<int, Food>)
    returns (total: Totals)
    requires AllKnown(items, catalog) && foods == Recorded(items, catalog)
    ensures forall n :: Get(total, n) == RawScaledSum(items, catalog, n)
  {
    total := CalculateTotalNutrition(Nutritions(foods));
    forall n ensures Get(total, n) == RawScaledSum(items, catalog, n) {
      RecordedTotal(items, catalog, n);
    }
  }

  /**
   * Records a meal for a user. A refused request changes nothing and names
   * the first failed check. An accepted one replaces the user's records for
   * the meal's date and slot with one record per food, totals the scaled
   * nutrition and applies it to the user's spirit.
   */
  method RecordMeal(db: Db, userId: int, req: MealRequest, hour: int, today: int, now: int)
    returns (r: Result<MealOutcome, MealError>)
    requires db.Valid() && 0 <= hour < 24
    modifies db, db.SpiritOf(userId)
    ensures db.Valid()
    ensures db.users == old(db.users) && db.nextUserId == old(db.nextUserId)
    ensures db.spirits == old(db.spirits) && db.foods == old(db.foods)
    ensures r.Err? <==> CheckMeal(req, db.foods, hour, today).Err?
    ensures r.Err? ==> r.error == CheckMeal(req, db.foods, hour, today).error
    ensures r.Err? ==> db.meals == old(db.meals)
    ensures r.Err? && userId in db.spirits ==> unchanged(db.spirits[userId])
    ensures r.Ok? ==>
      var target := CheckMeal(req, db.foods, hour, today).value;
      var items := req.foods.value;
      && r.value.slot == target.slot && r.value.date == target.date
      && AllKnown(items, db.foods)
      && r.value.foods == Recorded(items, db.foods)
      && db.meals == ReplaceSlot(old(db.meals), SlotKey(userId, target.date, target.slot),
                                 NewRecords(userId, target, items))
      && (forall n :: Get(r.value.total, n) == RawScaledSum(items, db.foods, n))
      && (r.value.spirit.Some? <==> userId in db.spirits)
    ensures r.Ok? && userId in db.spirits ==>
      && old(db.spirits[userId].level) >= 1
      && db.spirits[userId].State() == AfterMeal(old(db.spirits[userId].State()), r.value.total, now)
      && r.value.spirit.value == ReportOf(db.spirits[userId], ExpGain(r.value.total))
  {
    var prepared := PrepareMeal(db, userId, req, hour, today);
    if prepared.Err? {
      return Err(prepared.error);
    }
    var p := prepared.value;
    var items := req.foods.value;
    var total := MealTotal(p.foods, items, db.foods);
    assert forall i :: 0 <= i < |p.added| ==> p.added[i].foodId == items[i].foodId;
    var spirit := CommitMeal(db, userId, SlotKey(userId, p.target.date, p.target.slot), p.added, total, now);
    r := Ok(MealOutcome(p.target.date, p.target.slot, p.foods, total, spirit));
  }

  /**
   * The store side of an accepted meal: the slot's records are replaced by
   * the new ones, the meal's total is applied to the user's spirit, and
   * nothing else in the store changes.
   */
  method CommitMeal(db: Db, userId: int, key: SlotKey, added: seq<MealRecord>, total: Totals, now: int)
    returns (spirit: Option<SpiritReport>)
    requires db.Valid()
    requires forall i :: 0 <= i < |added| ==> added[i].foodId in db.foods
    modifies db, db.SpiritOf(userId)
    ensures db.Valid()
    ensures db.users == old(db.users) && db.nextUserId == old(db.nextUserId)
    ensures db.spirits == old(db.spirits) && db.foods == old(db.foods)
    ensures db.meals == ReplaceSlot(old(db.meals), key, added)
    ensures spirit.Some? <==> userId in db.spirits
    ensures userId in db.spirits ==>
      && old(db.spirits[userId].level) >= 1
      && db.spirits[userId].State() == AfterMeal(old(db.spirits[userId].State()), total, now)
      && spirit.value == ReportOf(db.spirits[userId], ExpGain(total))
  {
    KeptRecordsKnown(db.meals, key, db.foods);
    var kept := OutsideSlot(db.meals, key);
    assert forall i :: 0 <= i < |kept + added| ==> (kept + added)[i].foodId in db.foods by {
      forall i | 0 <= i < |kept + added| ensures (kept + added)[i].foodId in db.foods {
        if i >= |kept| {
          assert (kept + added)[i] == added[i - |kept|];
        }
      }
    }
    db.SetMeals(kept + added);
    spirit := UpdateSpiritAttributes(db, userId, total, now);
  }

  /** The records kept by a replacement still name catalog foods. */
  lemma KeptRecordsKnown(s: seq<MealRecord>, k: SlotKey, catalog: map<int, Food>)
    requires forall i :: 0 <= i < |s| ==> s[i].foodId in catalog
    ensures forall i :: 0 <= i < |OutsideSlot(s, k)| ==> OutsideSlot(s, k)[i].foodId in catalog
  {
    var o := OutsideSlot(s, k);
    forall i | 0 <= i < |o| ensures o[i].foodId in catalog {
      var j :| 0 <= j < |s| && s[j] == o[i];
    }
  }
}
