/**
 * Meal slots and the hour-of-day classifier used when a meal is recorded
 * without an explicit meal type.
 */
module MealSlot {
  import opened Wrappers

  /** The three meal types, stored as the strings "1", "2" and "3". */
  datatype Slot = Breakfast | Lunch | Dinner

  function Code(s: Slot): string
  {
    match s
    case Breakfast => "1"
    case Lunch => "2"
    case Dinner => "3"
  }

  /** Accepts exactly the three meal-type codes. */
  function ParseMealType(code: string): (r: Option<Slot>)
    ensures r.Some? <==> code in ["1", "2", "3"]
    ensures r.Some? ==> Code(r.value) == code
  {
    if code == "1" then Some(Breakfast)
    else if code == "2" then Some(Lunch)
    else if code == "3" then Some(Dinner)
    else None
  }

  /** Parsing a slot's own code gives the slot back. */
  lemma ParseCode(s: Slot)
    ensures ParseMealType(Code(s)) == Some(s)
  {
  }

  /**
   * The slot for an hour of the clock: [5,10) breakfast, [10,15) lunch,
   * [15,23) dinner; the hours 23 and 0 to 4 count as the next breakfast.
   */
  function MealTypeByHour(hour: int): (s: Slot)
    requires 0 <= hour < 24
    ensures s == Lunch <==> 10 <= hour < 15
    ensures s == Dinner <==> 15 <= hour < 23
    ensures s == Breakfast <==> hour < 10 || hour == 23
  {
    if 5 <= hour < 10 then Breakfast
    else if 10 <= hour < 15 then Lunch
    else if 15 <= hour < 23 then Dinner
    else Breakfast
  }
}
