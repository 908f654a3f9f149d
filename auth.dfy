/**
 * Registration: the required-field check, the value checks in their fixed
 * order, the unique user name, and the spirit every new user starts with.
 */
module Auth {
  import opened Wrappers
  import opened Grading
  import opened Progression
  import opened Database

  /**
   * A registration body. Each field is None when the key is missing; the
   * password is kept only for its presence, since hashing is not modelled.
   */
  datatype RegisterRequest = RegisterRequest(
    username: Option<string>, name: Option<string>, password: Option<string>,
    gender: Option<string>, height: Option<real>, weight: Option<real>,
    age: Option<int>, education: Option<string>)

  datatype RegisterError =
    | MissingField(field: string)
    | BadGender | BadHeight | BadWeight | BadAge
    | UsernameTaken

  /** The required keys, in the order they are checked. */
  const RequiredFields: seq<string> :=
    ["username", "name", "password", "gender", "height", "weight", "age", "education"]

  /** Which required keys the body has, in the order of `RequiredFields`. */
  function Presence(req: RegisterRequest): (p: seq<bool>)
    ensures |p| == |RequiredFields|
  {
    [req.username.Some?, req.name.Some?, req.password.Some?, req.gender.Some?,
     req.height.Some?, req.weight.Some?, req.age.Some?, req.education.Some?]
  }

  /** The position of the first absent field. */
  function FirstAbsent(present: seq<bool>): (r: Option<nat>)
    ensures r.None? <==> forall i :: 0 <= i < |present| ==> present[i]
    ensures r.Some? ==> r.value < |present| && !present[r.value]
                        && forall j :: 0 <= j < r.value ==> present[j]
  {
    if present == [] then None
    else if !present[0] then Some(0)
    else match FirstAbsent(present[1..])
      case None => None
      case Some(i) => Some(i + 1)
  }

  /** The gender strings a user can register with. */
  function ParseGender(s: string): (g: Option<Gender>)
    ensures g.Some? <==> s == "男" || s == "女"
    ensures g == Some(Male) <==> s == "男"
  {
    if s == "男" then Some(Male) else if s == "女" then Some(Female) else None
  }

  /** Every key present when none is absent. */
  lemma NoneAbsent(req: RegisterRequest)
    requires FirstAbsent(Presence(req)).None?
    ensures req.username.Some? && req.name.Some? && req.password.Some? && req.gender.Some?
    ensures req.height.Some? && req.weight.Some? && req.age.Some? && req.education.Some?
  {
    var p := Presence(req);
    assert p[0] && p[1] && p[2] && p[3] && p[4] && p[5] && p[6] && p[7];
  }

  predicate NameTaken(users: map<int, User>, username: string)
  {
    exists id :: id in users && users[id].username == username
  }

  /** Every required key is present. */
  predicate Complete(req: RegisterRequest)
  {
    FirstAbsent(Presence(req)).None?
  }

  predicate GenderOk(req: RegisterRequest)
  {
    req.gender.Some? && ParseGender(req.gender.value).Some?
  }

  predicate HeightOk(req: RegisterRequest)
  {
    req.height.Some? && 0.0 < req.height.value <= 300.0
  }

  predicate WeightOk(req: RegisterRequest)
  {
    req.weight.Some? && 0.0 < req.weight.value <= 500.0
  }

  predicate AgeOk(req: RegisterRequest)
  {
    req.age.Some? && 0 < req.age.value <= 150
  }

  /** The data of an accepted registration. */
  datatype Registration = Registration(
    username: string, name: string, gender: Gender, height: real, weight: real, age: int, education: string)

  /**
   * The checks of a registration, in order: the first missing key, then
   * the gender, the height in (0, 300], the weight in (0, 500], the age in
   * (0, 150], and last a user name nobody has.
   */
  function CheckRegistration(req: RegisterRequest, users: map<int, User>): (r: Result<Registration, RegisterError>)
    ensures (r.Err? && r.error.MissingField?) <==> FirstAbsent(Presence(req)).Some?
    ensures r == Err(BadGender) <==> Complete(req) && !GenderOk(req)
    ensures r == Err(BadHeight) <==> Complete(req) && GenderOk(req) && !HeightOk(req)
    ensures r == Err(BadWeight) <==> Complete(req) && GenderOk(req) && HeightOk(req) && !WeightOk(req)
    ensures r == Err(BadAge) <==> Complete(req) && GenderOk(req) && HeightOk(req) && WeightOk(req) && !AgeOk(req)
    ensures r == Err(UsernameTaken) <==>
      Complete(req) && GenderOk(req) && HeightOk(req) && WeightOk(req) && AgeOk(req)
      && req.username.Some? && NameTaken(users, req.username.value)
    ensures r.Ok? ==>
      && req.username.Some? && r.value.username == req.username.value && !NameTaken(users, r.value.username)
      && req.name.Some? && r.value.name == req.name.value
      && req.gender.Some? && (r.value.gender == Male <==> req.gender.value == "男")
      && 0.0 < r.value.height <= 300.0 && 0.0 < r.value.weight <= 500.0 && 0 < r.value.age <= 150
  {
    var missing := FirstAbsent(Presence(req));
    if missing.Some? then Err(MissingField(RequiredFields[missing.value]))
    else
      NoneAbsent(req);
      if ParseGender(req.gender.value).None? then Err(BadGender)
      else if !(0.0 < req.height.value <= 300.0) then Err(BadHeight)
      else if !(0.0 < req.weight.value <= 500.0) then Err(BadWeight)
      else if !(0 < req.age.value <= 150) then Err(BadAge)
      else if NameTaken(users, req.username.value) then Err(UsernameTaken)
      else Ok(Registration(req.username.value, req.name.value, ParseGender(req.gender.value).value,
                           req.height.value, req.weight.value, req.age.value, req.education.value))
  }

  /** A registration is accepted exactly when every check passes. */
  lemma RegistrationAccepted(req: RegisterRequest, users: map<int, User>)
    ensures CheckRegistration(req, users).Ok? <==>
      && req.username.Some? && req.name.Some? && req.password.Some? && req.gender.Some?
      && req.height.Some? && req.weight.Some? && req.age.Some? && req.education.Some?
      && (req.gender.value == "男" || req.gender.value == "女")
      && 0.0 < req.height.value <= 300.0
      && 0.0 < req.weight.value <= 500.0
      && 0 < req.age.value <= 150
      && !NameTaken(users, req.username.value)
  {
    var p := Presence(req);
    if FirstAbsent(p).None? {
      NoneAbsent(req);
    }
  }

  /** A missing key is reported before any value is looked at, naming the first one missing. */
  lemma MissingFieldFirst(req: RegisterRequest, users: map<int, User>, i: nat)
    requires i < |RequiredFields| && !Presence(req)[i]
    ensures CheckRegistration(req, users).Err?
    ensures CheckRegistration(req, users).error.MissingField?
    ensures exists j :: 0 <= j <= i && CheckRegistration(req, users).error == MissingField(RequiredFields[j])
  {
    var m := FirstAbsent(Presence(req));
    assert m.Some? && m.value <= i;
  }

  /** The spirit a new user starts with: a knight for "男", a fairy otherwise. */
  function SeedState(userName: string, g: Gender, now: int): (st: SpiritState)
    ensures st.InRange() && st.level == 1 && st.exp == 0
    ensures st.userName == userName && st.createdAt == now && st.updatedAt == now
    ensures g == Male ==> st.name == userName + "的小勇士"
    ensures g == Female ==> st.name == userName + "的小仙女"
  {
    match g
    case Male => SpiritState(userName, userName + "的小勇士", 1, 0, 100.0, 20.0, 40.0, 40.0, now, now)
    case Female => SpiritState(userName, userName + "的小仙女", 1, 0, 95.0, 18.0, 45.0, 35.0, now, now)
  }

  /** The two seeds differ in every attribute. */
  lemma SeedsDiffer(userName: string, now: int)
    ensures var m, f := SeedState(userName, Male, now), SeedState(userName, Female, now);
      m.height > f.height && m.weight > f.weight && m.iq < f.iq && m.strength > f.strength
  {
  }

  /** The first absent position is the one before which every field is present. */
  lemma {:induction false} FirstAbsentAt(present: seq<bool>, i: nat)
    requires i < |present| && !present[i]
    requires forall j :: 0 <= j < i ==> present[j]
    ensures FirstAbsent(present) == Some(i)
  {
    if i > 0 {
      FirstAbsentAt(present[1..], i - 1);
    }
  }

  /** The route's loop over the required keys, stopping at the first missing one. */
  method FindMissing(req: RegisterRequest) returns (m: Option<nat>)
    ensures m == FirstAbsent(Presence(req))
  {
    var present := Presence(req);
    var i := 0;
    while i < |RequiredFields|
      invariant 0 <= i <= |RequiredFields|
      invariant forall j :: 0 <= j < i ==> present[j]
    {
      if !present[i] {
        FirstAbsentAt(present, i);
        return Some(i);
      }
      i := i + 1;
    }
    m := None;
  }

  /**
   * The checks of a registration as the route runs them: the missing-key
   * loop, then the value checks and the user-name lookup.
   */
  method ValidateRegistration(users: map<int, User>, req: RegisterRequest)
    returns (r: Result<Registration, RegisterError>)
    ensures r == CheckRegistration(req, users)
  {
    var missing := FindMissing(req);
    if missing.Some? {
      return Err(MissingField(RequiredFields[missing.value]));
    }
    NoneAbsent(req);
    var gender := ParseGender(req.gender.value);
    if gender.None? {
      return Err(BadGender);
    }
    if !(0.0 < req.height.value <= 300.0) {
      return Err(BadHeight);
    }
    if !(0.0 < req.weight.value <= 500.0) {
      return Err(BadWeight);
    }
    if !(0 < req.age.value <= 150) {
      return Err(BadAge);
    }
    if NameTaken(users, req.username.value) {
      return Err(UsernameTaken);
    }
    r := Ok(Registration(req.username.value, req.name.value, gender.value, req.height.value,
                         req.weight.value, req.age.value, req.education.value));
  }

  /**
   * Registers a user. A refused request changes nothing. An accepted one
   * adds the user under the next id and a fresh spirit seeded by gender,
   * and leaves the other spirits, the meals and the catalog alone.
   */
  method Register(db: Db, req: RegisterRequest, now: int) returns (r: Result<int, RegisterError>)
    requires db.Valid()
    modifies db
    ensures db.Valid()
    ensures r.Err? <==> CheckRegistration(req, old(db.users)).Err?
    ensures r.Err? ==> r.error == CheckRegistration(req, old(db.users)).error
    ensures r.Err? ==> db.users == old(db.users) && db.nextUserId == old(db.nextUserId) && db.spirits == old(db.spirits)
    ensures db.meals == old(db.meals) && db.foods == old(db.foods)
    ensures r.Ok? ==>
      var reg := CheckRegistration(req, old(db.users)).value;
      var id := r.value;
      && id == old(db.nextUserId) && db.nextUserId == id + 1
      && id !in old(db.users) && id !in old(db.spirits)
      && db.users == old(db.users)[id := User(id, reg.username, reg.name, reg.gender, reg.height, reg.weight, reg.age, reg.education)]
      && id in db.spirits && db.spirits == old(db.spirits)[id := db.spirits[id]]
      && fresh(db.spirits[id])
      && db.spirits[id].State() == SeedState(reg.name, reg.gender, now)
  {
    var checked := ValidateRegistration(db.users, req);
    if checked.Err? {
      return Err(checked.error);
    }
    var reg := checked.value;
    var id := db.nextUserId;
    var seed := SeedState(reg.name, reg.gender, now);
    var spirit := new Spirit(seed.userName, seed.name, seed.level, seed.exp,
                             seed.height, seed.weight, seed.iq, seed.strength, now);
    assert spirit.State() == seed;
    db.users := db.users[id := User(id, reg.username, reg.name, reg.gender, reg.height, reg.weight, reg.age, reg.education)];
    db.nextUserId := id + 1;
    db.spirits := db.spirits[id := spirit];
    r := Ok(id);
  }
}
