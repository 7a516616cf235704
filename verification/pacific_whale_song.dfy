/**
 The deorbiting Starlink sprite: a record of mass, drag coefficient, drag
 area, attitude mode and ballistic coefficient, and the attitude setter
 that switches between three modes (belly, edge, sail), rejects any other
 mode name with an error, and keeps the ballistic coefficient in step with
 the drag area.
 */
module PacificWhaleSong {

  datatype Option<T> = None | Some(value: T)

  /** The three attitude modes and the drag area each one presents, m^2. */
  datatype Attitude = Belly | Edge | Sail {
    function Name(): string
    {
      match this
      case Belly => "belly"
      case Edge => "edge"
      case Sail => "sail"
    }

    function Area(): real
    {
      match this
      case Belly => 13.5
      case Edge => 1.8
      case Sail => 22.0
    }
  }

  /** The mode whose name is `mode`, if any. */
  function ParseAttitude(mode: string): (a: Option<Attitude>)
    ensures a.Some? ==> a.value.Name() == mode
    ensures a.None? ==> forall att: Attitude :: att.Name() != mode
  {
    if mode == "belly" then Some(Belly)
    else if mode == "edge" then Some(Edge)
    else if mode == "sail" then Some(Sail)
    else None
  }

  /** Parsing a mode's own name gives back that mode. */
  lemma ParseAttitudeName(a: Attitude)
    ensures ParseAttitude(a.Name()) == Some(a)
  {
  }

  datatype Sprite = Sprite(
    name: string,
    mass: real,
    cd: real,
    areaDrag: real,
    attitudeMode: Attitude,
    ballisticCoeff: real)

  /** The ballistic coefficient agrees with mass, Cd and drag area. */
  ghost predicate Consistent(s: Sprite)
  {
    s.cd * s.areaDrag != 0.0 && s.ballisticCoeff * (s.cd * s.areaDrag) == s.mass
  }

  /** A consistent sprite whose drag area is the one its mode prescribes. */
  ghost predicate Valid(s: Sprite)
  {
    Consistent(s) && s.areaDrag == s.attitudeMode.Area()
  }

  /** Recompute `mass / (cd * area_drag)`; nothing else changes. */
  function UpdateBallisticCoeff(s: Sprite): (r: Sprite)
    requires s.cd * s.areaDrag != 0.0
    ensures Consistent(r)
    ensures r.name == s.name && r.mass == s.mass && r.cd == s.cd
    ensures r.areaDrag == s.areaDrag && r.attitudeMode == s.attitudeMode
  {
    s.(ballisticCoeff := s.mass / (s.cd * s.areaDrag))
  }

  /** The sprite at birth: 260 kg, Cd 2.2, broadside belly mode. */
  function Init(): (s: Sprite)
    ensures s.name == "PacificWhaleSong"
    ensures s.mass == 260.0 && s.cd == 2.2
    ensures s.areaDrag == 13.5 && s.attitudeMode == Belly
    ensures s.ballisticCoeff == 260.0 / (2.2 * 13.5)
    ensures Valid(s)
  {
    UpdateBallisticCoeff(Sprite("PacificWhaleSong", 260.0, 2.2, 13.5, Belly, 0.0))
  }

  const AttitudeError: string := "Attitude mode must be 'belly', 'edge', or 'sail'"

  /** What Python raises when `_update_ballistic_coeff` divides by a zero `cd * area_drag`. */
  const ZeroDivision: string := "float division by zero"

  /**
   The object after a call, and the error the call raised, if any.
   */
  datatype Outcome = Outcome(after: Sprite, raised: Option<string>)

  /**
   Switch attitude. A known mode sets the mode and its drag area and
   recomputes the ballistic coefficient, leaving name, mass and Cd alone;
   any other name raises the attitude error and changes nothing. With a
   zero Cd a known mode has already set mode and area when the
   recomputation raises, and the old ballistic coefficient stays.
   */
  function SetDeorbitAttitude(s: Sprite, mode: string := "belly"): (r: Outcome)
    ensures mode !in {"belly", "edge", "sail"} ==> r == Outcome(s, Some(AttitudeError))
    ensures mode in {"belly", "edge", "sail"} ==>
      && r.after.attitudeMode.Name() == mode
      && r.after.areaDrag == r.after.attitudeMode.Area()
      && r.after.name == s.name && r.after.mass == s.mass && r.after.cd == s.cd
    ensures mode in {"belly", "edge", "sail"} && s.cd != 0.0 ==> r.raised.None? && Valid(r.after)
    ensures mode in {"belly", "edge", "sail"} && s.cd == 0.0 ==>
      r.raised == Some(ZeroDivision) && r.after.ballisticCoeff == s.ballisticCoeff
  {
    match ParseAttitude(mode)
    case Some(a) =>
      var turned := s.(areaDrag := a.Area(), attitudeMode := a);
      if turned.cd * turned.areaDrag != 0.0 then
        Outcome(UpdateBallisticCoeff(turned), None)
      else
        Outcome(turned, Some(ZeroDivision))
    case None =>
      Outcome(s, Some(AttitudeError))
  }

  /** Validity is kept by every call, successful or not. */
  lemma SetDeorbitAttitudePreservesValid(s: Sprite, mode: string)
    requires Valid(s)
    ensures Valid(SetDeorbitAttitude(s, mode).after)
  {
  }

  /** Setting the same mode twice is the same as setting it once. */
  lemma SetDeorbitAttitudeIdempotent(s: Sprite, mode: string)
    ensures SetDeorbitAttitude(SetDeorbitAttitude(s, mode).after, mode) == SetDeorbitAttitude(s, mode)
  {
  }

  /**
   For a positive mass and Cd the modes order the ballistic coefficient:
   knife-edge highest, broadside belly next, sail lowest.
   */
  lemma BallisticCoeffOrdering(s: Sprite)
    requires s.mass > 0.0 && s.cd > 0.0
    ensures SetDeorbitAttitude(s, "edge").after.ballisticCoeff
          > SetDeorbitAttitude(s, "belly").after.ballisticCoeff
          > SetDeorbitAttitude(s, "sail").after.ballisticCoeff
  {
    var edge := SetDeorbitAttitude(s, "edge").after.ballisticCoeff;
    var belly := SetDeorbitAttitude(s, "belly").after.ballisticCoeff;
    var sail := SetDeorbitAttitude(s, "sail").after.ballisticCoeff;
    assert edge == s.mass / (s.cd * 1.8);
    assert belly == s.mass / (s.cd * 13.5);
    assert sail == s.mass / (s.cd * 22.0);
    DivisionAntitone(s.mass, s.cd * 1.8, s.cd * 13.5);
    DivisionAntitone(s.mass, s.cd * 13.5, s.cd * 22.0);
  }

  lemma DivisionAntitone(m: real, d1: real, d2: real)
    requires m > 0.0 && 0.0 < d1 < d2
    ensures m / d1 > m / d2
  {
    assert m / d1 * d1 == m == m / d2 * d2;
    assert m / d2 * d1 < m / d2 * d2;
  }
}
