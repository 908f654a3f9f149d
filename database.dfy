/**
 * The persistent state the routes read and write: the user table, one
 * spirit per user, the meal records and the food catalog.
 */
module Database {
  import opened Nutrients
  import opened MealSlot
  import opened Grading
  import opened Progression

  /** A row of the food catalog: raw nutrition per portion. */
  datatype Food = Food(id: int, name: string, profile: Profile)

  /** A registered user; the password hash is not modelled. */
  datatype User = User(id: int, username: string, name: string, gender: Gender,
                       height: real, weight: real, age: int, education: string)

  /** One eaten food: the portion count is stored, the nutrition is not. */
  datatype MealRecord = MealRecord(userId: int, foodId: int, slot: Slot, date: int, amount: real)

  class Db {
    var users: map<int, User>
    var nextUserId: int
    var spirits: map<int, Spirit>
    var meals: seq<MealRecord>
    /** Filled by the seeding scripts; no route changes it. */
    var foods: map<int, Food>

    function SpiritObjects(): set<Spirit>
      reads this
    {
      set u | u in spirits :: spirits[u]
    }

    /** What one user's meal event may change: that user's spirit, if any. */
    function SpiritOf(userId: int): set<Spirit>
      reads this
    {
      if userId in spirits then {spirits[userId]} else {}
    }

    /**
     * Keys agree with the rows, users are numbered below the next id, every
     * spirit belongs to a registered user, no two users share a spirit,
     * every spirit is in range, and every meal record names a catalog food.
     */
    ghost predicate Valid()
      reads this, SpiritObjects()
    {
      && (forall id :: id in users ==> users[id].id == id && id < nextUserId)
      && (forall id :: id in foods ==> foods[id].id == id)
      && (forall u :: u in spirits ==> u in users)
      && (forall u, v :: u in spirits && v in spirits && u != v ==> spirits[u] != spirits[v])
      && (forall u :: u in spirits ==> spirits[u].Valid())
      && (forall i :: 0 <= i < |meals| ==> meals[i].foodId in foods)
    }

    /** An empty store over a given catalog. */
    constructor (catalog: map<int, Food>)
      requires forall id :: id in catalog ==> catalog[id].id == id
      ensures Valid()
      ensures users == map[] && nextUserId == 1 && spirits == map[]
      ensures meals == [] && foods == catalog
    {
      users := map[];
      nextUserId := 1;
      spirits := map[];
      meals := [];
      foods := catalog;
    }

    /** Replaces the meal records; records must name catalog foods. */
    method SetMeals(s: seq<MealRecord>)
      requires Valid()
      requires forall i :: 0 <= i < |s| ==> s[i].foodId in foods
      modifies this
      ensures Valid()
      ensures meals == s
      ensures users == old(users) && nextUserId == old(nextUserId)
      ensures spirits == old(spirits) && foods == old(foods)
    {
      meals := s;
    }
  }
}
