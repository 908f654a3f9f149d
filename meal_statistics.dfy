/**
 * The two read-only views of the meal records: one day's meals grouped by
 * slot, and the statistics over a date range. Both sum the catalog values
 * of the foods eaten and ignore the stored amounts.
 */
module MealStatistics {
  import opened Wrappers
  import opened Nutrients
  import opened MealSlot
  import opened Aggregation
  import opened Grading
  import opened Database
  import opened MealRoutes

  datatype ViewError = InvalidDate | StartAfterEnd | NoRecords | UnknownUser

  /** Every record names a catalog food. */
  predicate Known(s: seq<MealRecord>, catalog: map<int, Food>)
  {
    forall i :: 0 <= i < |s| ==> s[i].foodId in catalog
  }

  /** What a record adds to a view's total: its food's raw value, absent counting as zero. */
  function RecordValue(r: MealRecord, catalog: map<int, Food>, n: Nutrient): real
    requires r.foodId in catalog
  {
    Contribution(Value(catalog[r.foodId].profile, n))
  }

  /** The sum of the raw values over one (user, date, slot) group. */
  function SlotSum(s: seq<MealRecord>, catalog: map<int, Food>, k: SlotKey, n: Nutrient): real
    requires Known(s, catalog)
  {
    if s == [] then 0.0
    else
      var r := s[|s| - 1];
      SlotSum(s[..|s| - 1], catalog, k, n) + (if KeyOf(r) == k then RecordValue(r, catalog, n) else 0.0)
  }

  predicate OnDay(r: MealRecord, userId: int, date: int)
  {
    r.userId == userId && r.date == date
  }

  /** The sum of the raw values over a user's records of one date. */
  function DaySum(s: seq<MealRecord>, catalog: map<int, Food>, userId: int, date: int, n: Nutrient): real
    requires Known(s, catalog)
  {
    if s == [] then 0.0
    else
      var r := s[|s| - 1];
      DaySum(s[..|s| - 1], catalog, userId, date, n) + (if OnDay(r, userId, date) then RecordValue(r, catalog, n) else 0.0)
  }

  /**
   * The views read the food's raw values and never the stored amount:
   * records that differ only in their amounts give the same day sums.
   */
  lemma {:induction false} DaySumIgnoresAmount(s: seq<MealRecord>, t: seq<MealRecord>, catalog: map<int, Food>,
                                               userId: int, date: int, n: Nutrient)
    requires Known(s, catalog) && |s| == |t|
    requires forall i :: 0 <= i < |s| ==> t[i] == s[i].(amount := t[i].amount)
    ensures Known(t, catalog)
    ensures DaySum(t, catalog, userId, date, n) == DaySum(s, catalog, userId, date, n)
  {
    assert Known(t, catalog) by {
      forall i | 0 <= i < |t| ensures t[i].foodId in catalog {
        assert t[i].foodId == s[i].foodId;
      }
    }
    if s != [] {
      var k := |s| - 1;
      DaySumIgnoresAmount(s[..k], t[..k], catalog, userId, date, n);
      assert t[k].foodId == s[k].foodId && t[k].userId == s[k].userId && t[k].date == s[k].date;
    }
  }

  /** The number of a user's records of one date. */
  function DayCount(s: seq<MealRecord>, userId: int, date: int): nat
  {
    if s == [] then 0
    else DayCount(s[..|s| - 1], userId, date) + (if OnDay(s[|s| - 1], userId, date) then 1 else 0)
  }

  /** A date has records exactly when some record of the user is on it. */
  lemma {:induction false} DayCountPositive(s: seq<MealRecord>, userId: int, date: int)
    ensures DayCount(s, userId, date) > 0 <==> exists i :: 0 <= i < |s| && OnDay(s[i], userId, date)
  {
    if s != [] {
      var p := s[..|s| - 1];
      DayCountPositive(p, userId, date);
      if exists i :: 0 <= i < |p| && OnDay(p[i], userId, date) {
        var i :| 0 <= i < |p| && OnDay(p[i], userId, date);
        assert s[i] == p[i];
      }
      if exists i :: 0 <= i < |s| && OnDay(s[i], userId, date) {
        var i :| 0 <= i < |s| && OnDay(s[i], userId, date);
        if i < |p| {
          assert p[i] == s[i];
        }
      }
    }
  }

  /** A date without records sums to zero. */
  lemma {:induction false} DaySumNoRecords(s: seq<MealRecord>, catalog: map<int, Food>, userId: int, date: int, n: Nutrient)
    requires Known(s, catalog) && DayCount(s, userId, date) == 0
    ensures DaySum(s, catalog, userId, date, n) == 0.0
  {
    if s != [] {
      DaySumNoRecords(s[..|s| - 1], catalog, userId, date, n);
    }
  }

  /** A day's total is the sum of its three slot totals. */
  lemma {:induction false} DaySplitsIntoSlots(s: seq<MealRecord>, catalog: map<int, Food>, userId: int, date: int, n: Nutrient)
    requires Known(s, catalog)
    ensures DaySum(s, catalog, userId, date, n) ==
      SlotSum(s, catalog, SlotKey(userId, date, Breakfast), n)
      + SlotSum(s, catalog, SlotKey(userId, date, Lunch), n)
      + SlotSum(s, catalog, SlotKey(userId, date, Dinner), n)
  {
    if s != [] {
      var r, p := s[|s| - 1], s[..|s| - 1];
      DaySplitsIntoSlots(p, catalog, userId, date, n);
      var v := if OnDay(r, userId, date) then RecordValue(r, catalog, n) else 0.0;
      assert DaySum(s, catalog, userId, date, n) == DaySum(p, catalog, userId, date, n) + v;
      var kb, kl, kd := SlotKey(userId, date, Breakfast), SlotKey(userId, date, Lunch), SlotKey(userId, date, Dinner);
      assert KeyOf(r) == kb <==> OnDay(r, userId, date) && r.slot == Breakfast;
      assert KeyOf(r) == kl <==> OnDay(r, userId, date) && r.slot == Lunch;
      assert KeyOf(r) == kd <==> OnDay(r, userId, date) && r.slot == Dinner;
      assert (if KeyOf(r) == kb then v else 0.0) + (if KeyOf(r) == kl then v else 0.0) + (if KeyOf(r) == kd then v else 0.0) == v;
    }
  }

  /** A food as a day's view lists it: the catalog's raw nutrition. */
  datatype FoodView = FoodView(foodId: int, foodName: string, nutrition: Profile)

  function View(r: MealRecord, catalog: map<int, Food>): FoodView
    requires r.foodId in catalog
  {
    FoodView(r.foodId, catalog[r.foodId].name, catalog[r.foodId].profile)
  }

  function Views(rs: seq<MealRecord>, catalog: map<int, Food>): (vs: seq<FoodView>)
    requires Known(rs, catalog)
    ensures |vs| == |rs|
  {
    seq(|rs|, i requires 0 <= i < |rs| => View(rs[i], catalog))
  }

  /** The records of a group all come from the store, so they name catalog foods. */
  lemma InSlotKnown(s: seq<MealRecord>, catalog: map<int, Food>, k: SlotKey)
    requires Known(s, catalog)
    ensures Known(InSlot(s, k), catalog)
  {
    var g := InSlot(s, k);
    forall i | 0 <= i < |g| ensures g[i].foodId in catalog {
      var j :| 0 <= j < |s| && s[j] == g[i];
    }
  }

  /** One slot of a day's view: its foods in store order and their total. */
  datatype SlotMeals = SlotMeals(foods: seq<FoodView>, total: Totals)

  /** A slot's part of the view lists the group's foods and totals their raw values. */
  predicate SlotMealsOf(sm: SlotMeals, s: seq<MealRecord>, catalog: map<int, Food>, k: SlotKey)
    requires Known(s, catalog)
  {
    InSlotKnown(s, catalog, k);
    && sm.foods == Views(InSlot(s, k), catalog)
    && forall n :: Get(sm.total, n) == SlotSum(s, catalog, k, n)
  }

  /** Extending the store by one record extends a group by that record or not at all. */
  lemma InSlotPrefix(s: seq<MealRecord>, i: nat, k: SlotKey)
    requires i < |s|
    ensures InSlot(s[..i + 1], k) == InSlot(s[..i], k) + (if KeyOf(s[i]) == k then [s[i]] else [])
  {
    assert s[..i + 1] == s[..i] + [s[i]];
    InSlotConcat(s[..i], [s[i]], k);
    assert [s[i]][1..] == [];
  }

  lemma ViewsAppend(rs: seq<MealRecord>, r: MealRecord, catalog: map<int, Food>)
    requires Known(rs, catalog) && r.foodId in catalog
    ensures Known(rs + [r], catalog)
    ensures Views(rs + [r], catalog) == Views(rs, catalog) + [View(r, catalog)]
  {
    assert Known(rs + [r], catalog);
  }

  /** A day's view: the three slots, the day's total and its analysis. */
  datatype DayMeals = DayMeals(date: int, breakfast: SlotMeals, lunch: SlotMeals, dinner: SlotMeals,
                               total: Totals, analysis: seq<Analysis>)

  function EmptySlot(): SlotMeals
  {
    SlotMeals([], Zero)
  }

  /** Before any record, every slot is empty. */
  lemma EmptySlotOf(catalog: map<int, Food>, k: SlotKey)
    ensures SlotMealsOf(EmptySlot(), [], catalog, k)
  {
    forall n ensures Get(Zero, n) == 0.0 {
      ZeroIsZero(n);
    }
  }

  /** One more record of the store outside a group leaves its part of the view as it was. */
  lemma SlotUnchanged(sm: SlotMeals, s: seq<MealRecord>, i: nat, catalog: map<int, Food>, k: SlotKey)
    requires Known(s, catalog) && i < |s| && KeyOf(s[i]) != k
    requires SlotMealsOf(sm, s[..i], catalog, k)
    ensures SlotMealsOf(sm, s[..i + 1], catalog, k)
  {
    InSlotPrefix(s, i, k);
    assert s[..i + 1][..i] == s[..i];
  }

  /** One more record of a group appends its food and adds its raw values. */
  lemma SlotExtended(sm: SlotMeals, s: seq<MealRecord>, i: nat, catalog: map<int, Food>, total: Totals)
    requires Known(s, catalog) && i < |s|
    requires SlotMealsOf(sm, s[..i], catalog, KeyOf(s[i]))
    requires forall n :: Get(total, n) == Get(sm.total, n) + RecordValue(s[i], catalog, n)
    ensures SlotMealsOf(SlotMeals(sm.foods + [View(s[i], catalog)], total), s[..i + 1], catalog, KeyOf(s[i]))
  {
    var k := KeyOf(s[i]);
    InSlotPrefix(s, i, k);
    InSlotKnown(s[..i], catalog, k);
    ViewsAppend(InSlot(s[..i], k), s[i], catalog);
    assert s[..i + 1][..i] == s[..i];
  }

  /** One more record of the store adds its raw values to its own day only. */
  lemma DayStep(s: seq<MealRecord>, i: nat, catalog: map<int, Food>, userId: int, date: int)
    requires Known(s, catalog) && i < |s|
    ensures Known(s[..i], catalog) && Known(s[..i + 1], catalog)
    ensures DayCount(s[..i + 1], userId, date) == DayCount(s[..i], userId, date) + (if OnDay(s[i], userId, date) then 1 else 0)
    ensures forall n :: DaySum(s[..i + 1], catalog, userId, date, n) == DaySum(s[..i], catalog, userId, date, n)
                         + (if OnDay(s[i], userId, date) then RecordValue(s[i], catalog, n) else 0.0)
  {
    assert s[..i + 1][..i] == s[..i];
  }

  /** What the pass over the store has collected so far. */
  datatype DayAcc = DayAcc(byType: map<Slot, SlotMeals>, total: Totals, count: nat)

  /** The collection agrees with the records of the store read so far. */
  predicate Collected(acc: DayAcc, s: seq<MealRecord>, catalog: map<int, Food>, userId: int, date: int)
    requires Known(s, catalog)
  {
    && acc.count == DayCount(s, userId, date)
    && Breakfast in acc.byType && Lunch in acc.byType && Dinner in acc.byType
    && (forall sl :: sl in acc.byType ==> SlotMealsOf(acc.byType[sl], s, catalog, SlotKey(userId, date, sl)))
    && (forall n :: Get(acc.total, n) == DaySum(s, catalog, userId, date, n))
  }

  /** One turn of the loop: a record of the user and date joins its slot and the day's total. */
  method CollectRecord(acc: DayAcc, s: seq<MealRecord>, i: nat, catalog: map<int, Food>, userId: int, date: int)
    returns (acc': DayAcc)
    requires Known(s, catalog) && i < |s|
    requires Known(s[..i], catalog) && Collected(acc, s[..i], catalog, userId, date)
    ensures Known(s[..i + 1], catalog) && Collected(acc', s[..i + 1], catalog, userId, date)
  {
    var rec := s[i];
    if rec.userId == userId && rec.date == date {
      var food := catalog[rec.foodId];
      assert rec.slot == Breakfast || rec.slot == Lunch || rec.slot == Dinner;
      var sm := acc.byType[rec.slot];
      var slotTotal := AccumulateProfile(sm.total, food.profile);
      var total := AccumulateProfile(acc.total, food.profile);
      var sm' := SlotMeals(sm.foods + [FoodView(rec.foodId, food.name, food.profile)], slotTotal);
      assert sm' == SlotMeals(sm.foods + [View(rec, catalog)], slotTotal);
      acc' := DayAcc(acc.byType[rec.slot := sm'], total, acc.count + 1);
      CollectedAdd(acc, s, i, catalog, userId, date, slotTotal, total);
    } else {
      acc' := acc;
      CollectedSkip(acc, s, i, catalog, userId, date);
    }
  }

  /** A record of the user and date joins its slot's view and adds to the day's total. */
  lemma CollectedAdd(acc: DayAcc, s: seq<MealRecord>, i: nat, catalog: map<int, Food>, userId: int, date: int,
                     slotTotal: Totals, total: Totals)
    requires Known(s, catalog) && i < |s| && s[i].userId == userId && s[i].date == date
    requires Known(s[..i], catalog) && Collected(acc, s[..i], catalog, userId, date)
    requires s[i].slot in acc.byType
    requires forall n :: Get(slotTotal, n) == Get(acc.byType[s[i].slot].total, n) + RecordValue(s[i], catalog, n)
    requires forall n :: Get(total, n) == Get(acc.total, n) + RecordValue(s[i], catalog, n)
    ensures Known(s[..i + 1], catalog)
    ensures var sm := acc.byType[s[i].slot];
      Collected(DayAcc(acc.byType[s[i].slot := SlotMeals(sm.foods + [View(s[i], catalog)], slotTotal)], total, acc.count + 1),
                s[..i + 1], catalog, userId, date)
  {
    var rec := s[i];
    DayStep(s, i, catalog, userId, date);
    OtherSlotsKept(acc, s, i, catalog, userId, date);
    var sm := acc.byType[rec.slot];
    SlotExtended(sm, s, i, catalog, slotTotal);
    var byType' := acc.byType[rec.slot := SlotMeals(sm.foods + [View(rec, catalog)], slotTotal)];
    forall sl | sl in byType' ensures SlotMealsOf(byType'[sl], s[..i + 1], catalog, SlotKey(userId, date, sl)) {
      if sl != rec.slot {
        assert KeyOf(rec) != SlotKey(userId, date, sl);
      }
    }
  }

  /** The slots a record does not belong to keep their part of the view. */
  lemma OtherSlotsKept(acc: DayAcc, s: seq<MealRecord>, i: nat, catalog: map<int, Food>, userId: int, date: int)
    requires Known(s, catalog) && i < |s|
    requires Known(s[..i], catalog) && Collected(acc, s[..i], catalog, userId, date)
    ensures Known(s[..i + 1], catalog)
    ensures forall sl :: sl in acc.byType && KeyOf(s[i]) != SlotKey(userId, date, sl) ==>
              SlotMealsOf(acc.byType[sl], s[..i + 1], catalog, SlotKey(userId, date, sl))
  {
    DayStep(s, i, catalog, userId, date);
    forall sl | sl in acc.byType && KeyOf(s[i]) != SlotKey(userId, date, sl)
      ensures SlotMealsOf(acc.byType[sl], s[..i + 1], catalog, SlotKey(userId, date, sl)) {
      SlotUnchanged(acc.byType[sl], s, i, catalog, SlotKey(userId, date, sl));
    }
  }

  /** A record of another user or date leaves the collection as it is. */
  lemma CollectedSkip(acc: DayAcc, s: seq<MealRecord>, i: nat, catalog: map<int, Food>, userId: int, date: int)
    requires Known(s, catalog) && i < |s| && !(s[i].userId == userId && s[i].date == date)
    requires Known(s[..i], catalog) && Collected(acc, s[..i], catalog, userId, date)
    ensures Known(s[..i + 1], catalog) && Collected(acc, s[..i + 1], catalog, userId, date)
  {
    DayStep(s, i, catalog, userId, date);
    OtherSlotsKept(acc, s, i, catalog, userId, date);
    assert forall sl :: KeyOf(s[i]) != SlotKey(userId, date, sl);
  }

  /**
   * One pass over the store collecting a user's records of one date into
   * the three slots and the day's total, as the route's loop does.
   */
  method CollectDay(s: seq<MealRecord>, catalog: map<int, Food>, userId: int, date: int)
    returns (b: SlotMeals, l: SlotMeals, d: SlotMeals, total: Totals, count: nat)
    requires Known(s, catalog)
    ensures count == DayCount(s, userId, date)
    ensures SlotMealsOf(b, s, catalog, SlotKey(userId, date, Breakfast))
    ensures SlotMealsOf(l, s, catalog, SlotKey(userId, date, Lunch))
    ensures SlotMealsOf(d, s, catalog, SlotKey(userId, date, Dinner))
    ensures forall n :: Get(total, n) == DaySum(s, catalog, userId, date, n)
  {
    var acc := DayAcc(map[Breakfast := EmptySlot(), Lunch := EmptySlot(), Dinner := EmptySlot()], Zero, 0);
    assert s[..0] == [];
    assert DayCount(s[..0], userId, date) == 0;
    forall sl ensures SlotMealsOf(EmptySlot(), s[..0], catalog, SlotKey(userId, date, sl)) {
      EmptySlotOf(catalog, SlotKey(userId, date, sl));
    }
    forall n ensures Get(Zero, n) == 0.0 {
      ZeroIsZero(n);
    }
    var i := 0;
    while i < |s|
      invariant 0 <= i <= |s|
      invariant Known(s[..i], catalog) && Collected(acc, s[..i], catalog, userId, date)
    {
      acc := CollectRecord(acc, s, i, catalog, userId, date);
      i := i + 1;
    }
    assert s[..i] == s;
    b, l, d := acc.byType[Breakfast], acc.byType[Lunch], acc.byType[Dinner];
    total, count := acc.total, acc.count;
  }

  /**
   * The meals of one day: an unparsable date is refused, a day without
   * records is reported as not found; otherwise each slot lists its foods
   * with their raw nutrition and totals, the day's total is the sum of the
   * three slot totals, and each nutrient of the total is analysed against
   * the user's standard.
   */
  method GetMeals(db: Db, userId: int, dateArg: DateArg, today: int) returns (r: Result<DayMeals, ViewError>)
    requires db.Valid()
    ensures dateArg.Malformed? <==> r == Err(InvalidDate)
    ensures !dateArg.Malformed? ==>
      var date := ResolveDate(dateArg, today).value;
      && (r == Err(NoRecords) <==> forall i :: 0 <= i < |db.meals| ==> !OnDay(db.meals[i], userId, date))
      && (r == Err(UnknownUser) <==> DayCount(db.meals, userId, date) > 0 && userId !in db.users)
      && (r.Ok? <==> DayCount(db.meals, userId, date) > 0 && userId in db.users)
    ensures r.Ok? ==>
      var date := r.value.date;
      && date == ResolveDate(dateArg, today).value
      && Known(db.meals, db.foods)
      && userId in db.users
      && SlotMealsOf(r.value.breakfast, db.meals, db.foods, SlotKey(userId, date, Breakfast))
      && SlotMealsOf(r.value.lunch, db.meals, db.foods, SlotKey(userId, date, Lunch))
      && SlotMealsOf(r.value.dinner, db.meals, db.foods, SlotKey(userId, date, Dinner))
      && (forall n :: Get(r.value.total, n) == DaySum(db.meals, db.foods, userId, date, n))
      && r.value.total == Add(Add(r.value.breakfast.total, r.value.lunch.total), r.value.dinner.total)
      && r.value.analysis == AnalyzeAll(r.value.total, db.users[userId].gender, db.users[userId].age)
  {
    var date: int;
    match dateArg {
      case NoDate => date := today;
      case Date(day) => date := day;
      case Malformed => return Err(InvalidDate);
    }
    var s := db.meals;
    var b, l, d, total, count := CollectDay(s, db.foods, userId, date);
    DayCountPositive(s, userId, date);
    if count == 0 {
      return Err(NoRecords);
    }
    if userId !in db.users {
      return Err(UnknownUser);
    }
    var user := db.users[userId];
    forall n ensures Get(total, n) == Get(Add(Add(b.total, l.total), d.total), n) {
      DaySplitsIntoSlots(s, db.foods, userId, date, n);
    }
    TotalsEq(total, Add(Add(b.total, l.total), d.total));
    r := Ok(DayMeals(date, b, l, d, total, AnalyzeAll(total, user.gender, user.age)));
  }

  /** A record the range query selects: the user's, dated inside [lo, hi]. */
  predicate InWindow(r: MealRecord, userId: int, lo: int, hi: int)
  {
    r.userId == userId && lo <= r.date <= hi
  }

  /** The sum of the raw values over the records the range query selects. */
  function RangeSum(s: seq<MealRecord>, catalog: map<int, Food>, userId: int, lo: int, hi: int, n: Nutrient): real
    requires Known(s, catalog)
  {
    if s == [] then 0.0
    else
      var r := s[|s| - 1];
      RangeSum(s[..|s| - 1], catalog, userId, lo, hi, n) + (if InWindow(r, userId, lo, hi) then RecordValue(r, catalog, n) else 0.0)
  }

  /** The dates that have at least one selected record. */
  function RecordDates(s: seq<MealRecord>, userId: int, lo: int, hi: int): set<int>
  {
    set i | 0 <= i < |s| && InWindow(s[i], userId, lo, hi) :: s[i].date
  }

  /** The sum of day totals over a list of dates. */
  function DaysTotal(days: seq<int>, s: seq<MealRecord>, catalog: map<int, Food>, userId: int, n: Nutrient): real
    requires Known(s, catalog)
  {
    if days == [] then 0.0
    else DaysTotal(days[..|days| - 1], s, catalog, userId, n) + DaySum(s, catalog, userId, days[|days| - 1], n)
  }

  /** Over an empty store every day total is zero. */
  lemma {:induction false} DaysTotalEmpty(days: seq<int>, catalog: map<int, Food>, userId: int, n: Nutrient)
    ensures DaysTotal(days, [], catalog, userId, n) == 0.0
  {
    if days != [] {
      DaysTotalEmpty(days[..|days| - 1], catalog, userId, n);
    }
  }

  /** One more record adds its value to the day total of its own date, counted once since the dates are distinct. */
  lemma {:induction false} DaysTotalStep(days: seq<int>, s: seq<MealRecord>, r: MealRecord, catalog: map<int, Food>, userId: int, n: Nutrient)
    requires Known(s, catalog) && r.foodId in catalog && Distinct(days)
    ensures Known(s + [r], catalog)
    ensures DaysTotal(days, s + [r], catalog, userId, n) ==
      DaysTotal(days, s, catalog, userId, n) + (if r.userId == userId && r.date in days then RecordValue(r, catalog, n) else 0.0)
  {
    assert Known(s + [r], catalog);
    if days != [] {
      var p, x := days[..|days| - 1], days[|days| - 1];
      assert Distinct(p);
      DaysTotalStep(p, s, r, catalog, userId, n);
      assert (s + [r])[..|s|] == s;
      assert days == p + [x];
      assert r.date in days <==> r.date in p || r.date == x;
      assert x !in p;
    }
  }

  /**
   * Summing the day totals over distinct dates of the window that cover
   * every selected record gives the sum over the selected records.
   */
  lemma {:induction false} DaysTotalIsRangeSum(days: seq<int>, s: seq<MealRecord>, catalog: map<int, Food>, userId: int, lo: int, hi: int, n: Nutrient)
    requires Known(s, catalog) && Distinct(days)
    requires forall j :: 0 <= j < |days| ==> lo <= days[j] <= hi
    requires forall i :: 0 <= i < |s| && InWindow(s[i], userId, lo, hi) ==> s[i].date in days
    ensures DaysTotal(days, s, catalog, userId, n) == RangeSum(s, catalog, userId, lo, hi, n)
  {
    if s == [] {
      DaysTotalEmpty(days, catalog, userId, n);
    } else {
      var p, r := s[..|s| - 1], s[|s| - 1];
      assert s == p + [r];
      assert forall i :: 0 <= i < |p| ==> p[i] == s[i];
      DaysTotalIsRangeSum(days, p, catalog, userId, lo, hi, n);
      DaysTotalStep(days, p, r, catalog, userId, n);
      assert r.userId == userId && r.date in days <==> InWindow(r, userId, lo, hi);
    }
  }

  /** The integers of [lo, hi]. */
  function IntRange(lo: int, hi: int): (r: set<int>)
    ensures forall x :: x in r <==> lo <= x <= hi
    decreases hi - lo
  {
    if lo > hi then {} else IntRange(lo, hi - 1) + {hi}
  }

  lemma {:induction false} IntRangeCard(lo: int, hi: int)
    requires lo <= hi + 1
    ensures |IntRange(lo, hi)| == hi - lo + 1
    decreases hi - lo
  {
    if lo <= hi {
      IntRangeCard(lo, hi - 1);
      assert IntRange(lo, hi) == IntRange(lo, hi - 1) + {hi};
    } else {
      assert IntRange(lo, hi) == {};
    }
  }

  lemma SubsetCard(a: set<int>, b: set<int>)
    requires a <= b
    ensures |a| <= |b|
  {
    assert b == a + (b - a);
  }

  /** Distinct dates inside [lo, hi] number at most the days of the range. */
  lemma DaysBound(days: seq<int>, lo: int, hi: int)
    requires lo <= hi && Distinct(days)
    requires forall j :: 0 <= j < |days| ==> lo <= days[j] <= hi
    ensures |days| <= hi - lo + 1
  {
    ElementsCard(days);
    IntRangeCard(lo, hi);
    SubsetCard(Elements(days), IntRange(lo, hi));
  }

  /** The per-day entry of the grouping: meal count and raw totals. */
  datatype DayStats = DayStats(mealsCount: nat, totals: Totals)

  /**
   * The grouping agrees with the selected records of the store read so far:
   * one entry per date that has records, listed once each in first-seen order.
   */
  ghost predicate Grouped(days: seq<int>, daily: map<int, DayStats>, s: seq<MealRecord>, catalog: map<int, Food>,
                    userId: int, lo: int, hi: int)
    requires Known(s, catalog)
  {
    && Distinct(days)
    && (forall d :: d in daily <==> d in days)
    && (forall d :: d in days <==> lo <= d <= hi && DayCount(s, userId, d) > 0)
    && (forall d :: d in daily ==> DayMatches(daily[d], s, catalog, userId, d))
  }

  /** A per-day entry agrees with the selected records of its date. */
  ghost predicate DayMatches(st: DayStats, s: seq<MealRecord>, catalog: map<int, Food>, userId: int, d: int)
    requires Known(s, catalog)
  {
    && st.mealsCount == DayCount(s, userId, d)
    && (forall n :: Get(st.totals, n) == DaySum(s, catalog, userId, d, n))
  }

  /** One more record of the store changes the counts and sums of its own date only. */
  lemma DaysStep(s: seq<MealRecord>, i: nat, catalog: map<int, Food>, userId: int)
    requires Known(s, catalog) && i < |s|
    ensures Known(s[..i], catalog) && Known(s[..i + 1], catalog)
    ensures forall d :: DayCount(s[..i + 1], userId, d) == DayCount(s[..i], userId, d) + (if OnDay(s[i], userId, d) then 1 else 0)
    ensures forall d, n :: DaySum(s[..i + 1], catalog, userId, d, n) == DaySum(s[..i], catalog, userId, d, n)
                           + (if OnDay(s[i], userId, d) then RecordValue(s[i], catalog, n) else 0.0)
  {
    assert s[..i + 1][..i] == s[..i];
  }

  /** One turn of the grouping loop. */
  method GroupRecord(days: seq<int>, daily: map<int, DayStats>, s: seq<MealRecord>, i: nat, catalog: map<int, Food>,
                     userId: int, lo: int, hi: int)
    returns (days': seq<int>, daily': map<int, DayStats>)
    requires Known(s, catalog) && i < |s|
    requires Known(s[..i], catalog) && Grouped(days, daily, s[..i], catalog, userId, lo, hi)
    ensures Known(s[..i + 1], catalog) && Grouped(days', daily', s[..i + 1], catalog, userId, lo, hi)
  {
    var rec := s[i];
    DaysStep(s, i, catalog, userId);
    if InWindow(rec, userId, lo, hi) {
      var date := rec.date;
      var st: DayStats;
      if date in daily {
        days', st := days, daily[date];
      } else {
        days', st := days + [date], DayStats(0, Zero);
        OpenDay(days, daily, s[..i], catalog, userId, lo, hi, date);
      }
      var totals := AccumulateProfile(st.totals, catalog[rec.foodId].profile);
      daily' := daily[date := DayStats(st.mealsCount + 1, totals)];
      OtherDaysKept(days, daily, s, i, catalog, userId, lo, hi);
      assert forall d :: d in days' <==> d in days || d == date;
      assert forall d :: d in daily' <==> d in days';
      assert DayMatches(daily'[date], s[..i + 1], catalog, userId, date);
    } else {
      days', daily' := days, daily;
      GroupedSkip(days, daily, s, i, catalog, userId, lo, hi);
    }
  }

  /** A date not yet grouped has no selected records so far: it starts from zero. */
  lemma OpenDay(days: seq<int>, daily: map<int, DayStats>, s: seq<MealRecord>, catalog: map<int, Food>,
                userId: int, lo: int, hi: int, date: int)
    requires Known(s, catalog) && Grouped(days, daily, s, catalog, userId, lo, hi)
    requires lo <= date <= hi && date !in daily
    ensures date !in days && Distinct(days + [date])
    ensures DayMatches(DayStats(0, Zero), s, catalog, userId, date)
  {
    assert DayCount(s, userId, date) == 0;
    forall n ensures Get(Zero, n) == DaySum(s, catalog, userId, date, n) {
      ZeroIsZero(n);
      DaySumNoRecords(s, catalog, userId, date, n);
    }
    assert forall j :: 0 <= j < |days| ==> days[j] != date;
  }

  /** The entries of other dates still agree once a record of one date is added. */
  lemma OtherDaysKept(days: seq<int>, daily: map<int, DayStats>, s: seq<MealRecord>, i: nat, catalog: map<int, Food>,
                      userId: int, lo: int, hi: int)
    requires Known(s, catalog) && i < |s|
    requires Known(s[..i], catalog) && Grouped(days, daily, s[..i], catalog, userId, lo, hi)
    ensures Known(s[..i + 1], catalog)
    ensures forall d :: d in daily && d != s[i].date ==> DayMatches(daily[d], s[..i + 1], catalog, userId, d)
  {
    DaysStep(s, i, catalog, userId);
  }

  /** A record outside the window or of another user leaves the grouping as it is. */
  lemma GroupedSkip(days: seq<int>, daily: map<int, DayStats>, s: seq<MealRecord>, i: nat, catalog: map<int, Food>,
                    userId: int, lo: int, hi: int)
    requires Known(s, catalog) && i < |s| && !InWindow(s[i], userId, lo, hi)
    requires Known(s[..i], catalog) && Grouped(days, daily, s[..i], catalog, userId, lo, hi)
    ensures Known(s[..i + 1], catalog) && Grouped(days, daily, s[..i + 1], catalog, userId, lo, hi)
  {
    DaysStep(s, i, catalog, userId);
    assert forall d :: d in days ==> !OnDay(s[i], userId, d);
    assert forall d :: d in days <==> lo <= d <= hi && DayCount(s[..i + 1], userId, d) > 0;
    assert forall d :: d in daily ==> DayMatches(daily[d], s[..i + 1], catalog, userId, d);
  }

  /**
   * Groups the records of one user dated inside [lo, hi] by date, as the
   * statistics route builds its per-day table.
   */
  method GroupByDay(s: seq<MealRecord>, catalog: map<int, Food>, userId: int, lo: int, hi: int)
    returns (days: seq<int>, daily: map<int, DayStats>)
    requires Known(s, catalog)
    ensures Grouped(days, daily, s, catalog, userId, lo, hi)
  {
    days, daily := [], map[];
    assert s[..0] == [];
    var i := 0;
    while i < |s|
      invariant 0 <= i <= |s|
      invariant Known(s[..i], catalog) && Grouped(days, daily, s[..i], catalog, userId, lo, hi)
    {
      days, daily := GroupRecord(days, daily, s, i, catalog, userId, lo, hi);
      i := i + 1;
    }
    assert s[..i] == s;
  }

  /** The totals over the whole range: the sum of the per-day totals. */
  method SumDays(days: seq<int>, daily: map<int, DayStats>, s: seq<MealRecord>, catalog: map<int, Food>, userId: int)
    returns (total: Totals)
    requires Known(s, catalog)
    requires forall j :: 0 <= j < |days| ==> days[j] in daily
    requires forall d :: d in daily ==> DayMatches(daily[d], s, catalog, userId, d)
    ensures forall n :: Get(total, n) == DaysTotal(days, s, catalog, userId, n)
  {
    total := Zero;
    forall n ensures Get(Zero, n) == 0.0 {
      ZeroIsZero(n);
    }
    assert days[..0] == [];
    var j := 0;
    while j < |days|
      invariant 0 <= j <= |days|
      invariant forall n :: Get(total, n) == DaysTotal(days[..j], s, catalog, userId, n)
    {
      assert days[..j + 1][..j] == days[..j];
      total := Add(total, daily[days[j]].totals);
      j := j + 1;
    }
    assert days[..j] == days;
  }

  /** The share of the range's days that have records, in percent, lies in (0, 100]. */
  lemma RateBounds(withRecords: int, daysCount: int)
    requires 1 <= withRecords <= daysCount
    ensures 0.0 < Percentage(withRecords as real, daysCount as real) <= 100.0
  {
    var p := Percentage(withRecords as real, daysCount as real);
    DivideComparison(p, daysCount as real, 0.0, 100.0);
  }

  /** The start of the range: the given date, or six days before its end. */
  function StartOf(arg: DateArg, end: int): (start: Option<int>)
    ensures start.None? <==> arg.Malformed?
    ensures arg.NoDate? ==> start == Some(end - 6)
    ensures arg.Date? ==> start == Some(arg.day)
  {
    match arg
    case NoDate => Some(end - 6)
    case Date(d) => Some(d)
    case Malformed => None
  }

  /** The statistics of a date range, as the route reports them. */
  datatype Statistics = Statistics(
    user: User, start: int, end: int, total: Totals, daysCount: int, daysWithRecords: int,
    complianceRate: real, averages: Totals, analysis: seq<Analysis>)

  /** What the route reports about a range that has records. */
  ghost predicate StatisticsOf(st: Statistics, s: seq<MealRecord>, catalog: map<int, Food>, user: User, start: int, end: int)
    requires Known(s, catalog)
  {
    && st.start == start && st.end == end && st.user == user
    && st.daysCount == end - start + 1
    && st.daysWithRecords == |RecordDates(s, user.id, start, end)|
    && 1 <= st.daysWithRecords <= st.daysCount
    && (forall n :: Get(st.total, n) == RangeSum(s, catalog, user.id, start, end, n))
    && st.averages == DivideBy(st.total, st.daysCount as real)
    && st.complianceRate == Percentage(st.daysWithRecords as real, st.daysCount as real)
    && 0.0 < st.complianceRate <= 100.0
    && st.analysis == AnalyzeAll(st.averages, user.gender, user.age)
  }

  /** The report over a grouped range with at least one day of records. */
  method Summarize(days: seq<int>, daily: map<int, DayStats>, s: seq<MealRecord>, catalog: map<int, Food>,
                   user: User, start: int, end: int)
    returns (st: Statistics)
    requires Known(s, catalog) && start <= end && days != []
    requires Grouped(days, daily, s, catalog, user.id, start, end)
    ensures StatisticsOf(st, s, catalog, user, start, end)
  {
    var userId := user.id;
    ghost var dates := RecordDates(s, userId, start, end);
    forall d ensures d in days <==> d in dates {
      DayCountPositive(s, userId, d);
    }
    assert forall j :: 0 <= j < |days| ==> days[j] in days;
    var total := SumDays(days, daily, s, catalog, userId);
    forall n ensures Get(total, n) == RangeSum(s, catalog, userId, start, end, n) {
      DaysTotalIsRangeSum(days, s, catalog, userId, start, end, n);
    }
    var daysCount := end - start + 1;
    var withRecords := |days|;
    assert Elements(days) == dates;
    ElementsCard(days);
    DaysBound(days, start, end);
    var rate := Percentage(withRecords as real, daysCount as real);
    RateBounds(withRecords, daysCount);
    var averages := DivideBy(total, daysCount as real);
    st := Statistics(user, start, end, total, daysCount, withRecords, rate, averages,
                     AnalyzeAll(averages, user.gender, user.age));
  }

  /**
   * The statistics over [start, end] (the end defaults to today, the start
   * to six days before the end): unparsable dates, a start after the end and
   * a range without records are refused; otherwise the totals sum the raw
   * values of the selected records, the days with records are the distinct
   * dates among them, the averages divide by the days of the range, and
   * each average is analysed against the user's standard.
   */
  method GetStatistics(db: Db, userId: int, startArg: DateArg, endArg: DateArg, today: int)
    returns (r: Result<Statistics, ViewError>)
    requires db.Valid()
    ensures r == Err(InvalidDate) <==> endArg.Malformed? || startArg.Malformed?
    ensures !endArg.Malformed? && !startArg.Malformed? ==>
      var end := ResolveDate(endArg, today).value;
      var start := StartOf(startArg, end).value;
      && (r == Err(StartAfterEnd) <==> start > end)
      && (r == Err(NoRecords) <==> start <= end && RecordDates(db.meals, userId, start, end) == {})
      && (r == Err(UnknownUser) <==> start <= end && RecordDates(db.meals, userId, start, end) != {} && userId !in db.users)
      && (r.Ok? ==> userId in db.users && Known(db.meals, db.foods)
                    && StatisticsOf(r.value, db.meals, db.foods, db.users[userId], start, end))
  {
    var end: int;
    match endArg {
      case NoDate => end := today;
      case Date(d) => end := d;
      case Malformed => return Err(InvalidDate);
    }
    var start: int;
    match startArg {
      case NoDate => start := end - 6;
      case Date(d) => start := d;
      case Malformed => return Err(InvalidDate);
    }
    if start > end {
      return Err(StartAfterEnd);
    }
    var s, catalog := db.meals, db.foods;
    var days, daily := GroupByDay(s, catalog, userId, start, end);
    ghost var dates := RecordDates(s, userId, start, end);
    forall d ensures d in days <==> d in dates {
      DayCountPositive(s, userId, d);
    }
    if |days| == 0 {
      assert dates == {};
      return Err(NoRecords);
    }
    assert days[0] in dates;
    if userId !in db.users {
      return Err(UnknownUser);
    }
    var user := db.users[userId];
    var st := Summarize(days, daily, s, catalog, user, start, end);
    r := Ok(st);
  }
}
