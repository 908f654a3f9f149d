/**
 * The spirit routes: the info page with its experience percentage, and
 * renaming with its whitespace stripping and length limit.
 */
module SpiritRoutes {
  import opened Wrappers
  import opened Progression
  import opened Database

  datatype SpiritError = EmptyName | NameTooLong | NoSpirit

  /** What the info page shows of a spirit. */
  datatype SpiritInfo = SpiritInfo(
    name: string, level: int, exp: int, nextLevelExp: int, expPercentage: real,
    height: real, weight: real, iq: real, strength: real, createdAt: int, updatedAt: int)

  /**
   * The info page: refused when the user has no spirit; otherwise the
   * spirit's fields, the display threshold level * 100 and the experience as
   * a percentage of it, which under the progression invariant lies in [0, 200).
   */
  method GetSpiritInfo(db: Db, userId: int) returns (r: Result<SpiritInfo, SpiritError>)
    requires db.Valid()
    ensures r.Err? <==> userId !in db.spirits
    ensures r.Err? ==> r.error == NoSpirit
    ensures r.Ok? ==>
      var st := db.spirits[userId].State();
      && r.value == SpiritInfo(st.name, st.level, st.exp, st.level * 100, ExpPercentage(st.level, st.exp),
                               st.height, st.weight, st.iq, st.strength, st.createdAt, st.updatedAt)
      && 0.0 <= r.value.expPercentage < 200.0
  {
    if userId !in db.spirits {
      return Err(NoSpirit);
    }
    var spirit := db.spirits[userId];
    var nextLevelExp := spirit.level * 100;
    var percentage := ExpPercentage(spirit.level, spirit.exp);
    ExpPercentageRange(spirit.level, spirit.exp);
    r := Ok(SpiritInfo(spirit.name, spirit.level, spirit.exp, nextLevelExp, percentage,
                       spirit.height, spirit.weight, spirit.iq, spirit.strength,
                       spirit.createdAt, spirit.updatedAt));
  }

  /** The characters Python's `str.strip()` removes by default. */
  predicate IsSpace(c: char)
  {
    || ('\U{0009}' <= c <= '\U{000D}')
    || ('\U{001C}' <= c <= '\U{0020}')
    || c == '\U{0085}' || c == '\U{00A0}' || c == '\U{1680}'
    || ('\U{2000}' <= c <= '\U{200A}')
    || c == '\U{2028}' || c == '\U{2029}' || c == '\U{202F}' || c == '\U{205F}' || c == '\U{3000}'
  }

  /** The number of leading whitespace characters. */
  function Leading(s: string): (k: nat)
    ensures k <= |s|
    ensures forall i :: 0 <= i < k ==> IsSpace(s[i])
    ensures k < |s| ==> !IsSpace(s[k])
  {
    if s != [] && IsSpace(s[0]) then 1 + Leading(s[1..]) else 0
  }

  /** The length that remains once trailing whitespace is dropped. */
  function KeptEnd(s: string): (n: nat)
    ensures n <= |s|
    ensures forall i :: n <= i < |s| ==> IsSpace(s[i])
    ensures n > 0 ==> !IsSpace(s[n - 1])
  {
    if s != [] && IsSpace(s[|s| - 1]) then KeptEnd(s[..|s| - 1]) else |s|
  }

  /**
   * Drops whitespace at both ends: the result is a piece of the input, only
   * whitespace lies outside it, and it neither starts nor ends with whitespace.
   */
  function Strip(s: string): (r: string)
    ensures var k := Leading(s);
      && k <= |s| - |r| && r == s[k..k + |r|]
      && (forall i :: 0 <= i < k ==> IsSpace(s[i]))
      && (forall i :: k + |r| <= i < |s| ==> IsSpace(s[i]))
    ensures r != [] ==> !IsSpace(r[0]) && !IsSpace(r[|r| - 1])
  {
    var k := Leading(s);
    var a := s[k..];
    var n := KeptEnd(a);
    assert forall i :: k + n <= i < |s| ==> IsSpace(s[i]) by {
      forall i | k + n <= i < |s| ensures IsSpace(s[i]) {
        assert s[i] == a[i - k];
      }
    }
    s[k..k + n]
  }

  /** A name strips to nothing exactly when it is all whitespace. */
  lemma StripEmpty(s: string)
    ensures Strip(s) == [] <==> forall i :: 0 <= i < |s| ==> IsSpace(s[i])
  {
    var r := Strip(s);
    var k := Leading(s);
    if r != [] {
      assert s[k] == r[0];
    }
  }

  /** Stripping twice is stripping once. */
  lemma StripIdempotent(s: string)
    ensures Strip(Strip(s)) == Strip(s)
  {
    var r := Strip(s);
    if r != [] {
      assert Leading(r) == 0;
      assert KeptEnd(r[0..]) == |r|;
      assert r[0..0 + |r|] == r;
    }
  }

  /** A renamed spirit as the route reports it. */
  datatype RenamedSpirit = RenamedSpirit(
    name: string, level: int, exp: int, height: real, weight: real, iq: real, strength: real, updatedAt: int)

  function RenamedOf(st: SpiritState): RenamedSpirit
  {
    RenamedSpirit(st.name, st.level, st.exp, st.height, st.weight, st.iq, st.strength, st.updatedAt)
  }

  const MaxNameLength: int := 50

  /**
   * Renames the user's spirit. The given name, or "" when absent, is
   * stripped; an empty result and one longer than 50 characters are refused
   * before the spirit is looked up; a user without a spirit is refused;
   * otherwise the spirit takes the stripped name and the update time, and
   * nothing else about it changes.
   */
  method UpdateSpiritName(db: Db, userId: int, nameArg: Option<string>, now: int)
    returns (r: Result<RenamedSpirit, SpiritError>)
    requires db.Valid()
    modifies db.SpiritOf(userId)
    ensures db.Valid()
    ensures var name := Strip(if nameArg.Some? then nameArg.value else "");
      && (r == Err(EmptyName) <==> name == [])
      && (r == Err(NameTooLong) <==> name != [] && |name| > MaxNameLength)
      && (r == Err(NoSpirit) <==> name != [] && |name| <= MaxNameLength && userId !in db.spirits)
      && (r.Err? && userId in db.spirits ==> db.spirits[userId].State() == old(db.spirits[userId].State()))
      && (r.Ok? ==>
            && userId in db.spirits
            && db.spirits[userId].State() == old(db.spirits[userId].State()).(name := name, updatedAt := now)
            && r.value == RenamedOf(db.spirits[userId].State()))
  {
    var raw := if nameArg.Some? then nameArg.value else "";
    var name := Strip(raw);
    if name == [] {
      return Err(EmptyName);
    }
    if |name| > MaxNameLength {
      return Err(NameTooLong);
    }
    if userId !in db.spirits {
      return Err(NoSpirit);
    }
    var spirit := db.spirits[userId];
    ghost var before := spirit.State();
    spirit.Rename(name, now);
    assert spirit.State() == before.(name := name, updatedAt := now);
    assert spirit.Valid();
    r := Ok(RenamedOf(spirit.State()));
  }
}
