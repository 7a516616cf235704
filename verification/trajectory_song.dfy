/**
 The re-entry-only right-hand side: Starship falls from orbit, picks its
 attitude by altitude band, feels drag computed from a floored descent
 speed, and lights a throttled landing burn at 1500 m.

 The state's second component is the downward speed `v_down`; the altitude
 rate is `-|v_down|` (floored at 1e-3 m/s). `Derivatives` returns, as the
 rate of that component, the UPWARD-positive net acceleration, which has the
 wrong sign for a downward speed; `CorrectedDerivatives` returns its
 negation. Both are modelled and compared below.
 */
module TrajectorySong {
  import opened Physics

  const MDry: real := 120000.0
  const MPropStart: real := 35000.0
  /** Mass at the start of the fall. */
  const MStart: real := MDry + MPropStart
  const Isp: real := 380.0
  const ThrustMax: real := 3.0 * 2300000.0

  const ABelly: real := 550.0
  const AEdge: real := 150.0
  const AVertical: real := 64.0

  /** Landing-burn trigger altitude, m (inclusive). */
  const HBurn: real := 1500.0
  /** Smallest descent speed used, m/s. */
  const SpeedFloor: real := 0.001
  /** Upward acceleration beyond gravity the landing burn aims for, m/s^2. */
  const LandingMargin: real := 0.05

  /**
   Attitude bands keyed on altitude (m): belly-flop above 70 km, on edge
   above 800 m, vertical below; exactly one band applies.
   */
  function GetAttitude(alt: real): (a: Aero)
    ensures alt > 70000.0 ==> a == Aero(1.8, ABelly)
    ensures 800.0 < alt <= 70000.0 ==> a == Aero(0.9, AEdge)
    ensures alt <= 800.0 ==> a == Aero(0.4, AVertical)
  {
    if alt > 70000.0 then Aero(1.8, ABelly)
    else if alt > 800.0 then Aero(0.9, AEdge)
    else Aero(0.4, AVertical)
  }

  /**
   The descent speed used by the model: the magnitude of the state's speed,
   never below 1e-3 m/s, so the craft always moves down.
   */
  function DescentSpeed(v: real): (vd: real)
    ensures vd >= SpeedFloor
    ensures vd >= Abs(v)
    ensures Abs(v) >= SpeedFloor ==> vd == Abs(v)
    ensures Abs(v) < SpeedFloor ==> vd == SpeedFloor
  {
    var vd := Abs(v);
    if vd < SpeedFloor then SpeedFloor else vd
  }

  /**
   Quadratic drag of the banded attitude at the floored descent speed, over
   the mass (no density ceiling here); it pushes upward.
   */
  function DragAcceleration(s: State, rho: Density): (a: real)
    requires s.m != 0.0
    ensures a * s.m == QuadraticDrag(rho(s.alt / 1000.0), DescentSpeed(s.v),
                                     GetAttitude(s.alt).cd, GetAttitude(s.alt).area)
    ensures rho(s.alt / 1000.0) >= 0.0 && s.m > 0.0 ==> a >= 0.0
  {
    var att := GetAttitude(s.alt);
    QuadraticDrag(rho(s.alt / 1000.0), DescentSpeed(s.v), att.cd, att.area) / s.m
  }

  /**
   Landing-burn thrust: none above 1500 m; at or below it, the thrust for
   an upward acceleration 0.05 m/s^2 beyond gravity, clamped to
   `[0.4 T, T]` whatever the mass.
   */
  function Thrust(alt: real, m: real): (thrust: real)
    requires alt <= HBurn ==> GravityDefined(alt / 1000.0)
    ensures alt > HBurn ==> thrust == 0.0
    ensures alt <= HBurn ==>
      IsClamp((Gravity(alt / 1000.0) + LandingMargin) * m, 0.4 * ThrustMax, ThrustMax, thrust)
    ensures alt <= HBurn ==> 0.4 * ThrustMax <= thrust <= ThrustMax
  {
    if alt <= HBurn then
      var requiredAcc := Gravity(alt / 1000.0) + LandingMargin;
      CapThenFloor(requiredAcc * m, 0.4 * ThrustMax, ThrustMax)
    else
      0.0
  }

  /** Thrust acceleration: cut entirely once the mass is down to dry mass. */
  function ThrustAcceleration(thrust: real, m: real): (a: real)
    ensures m <= MDry ==> a == 0.0
    ensures m > MDry ==> a * m == thrust
  {
    if m > MDry then thrust / m else 0.0
  }

  /**
   Mass flow: only while thrusting and with no dry-mass guard; it is zero
   exactly when the thrust is zero.
   */
  function MassFlow(thrust: real): (dm: real)
    requires thrust >= 0.0
    ensures dm <= 0.0
    ensures dm == 0.0 <==> thrust == 0.0
    ensures -dm * (Isp * G0) == thrust
  {
    if thrust > 0.0 then -thrust / (Isp * G0) else 0.0
  }

  /** Net upward acceleration: thrust and drag up, gravity down. */
  function NetUpwardAcceleration(s: State, rho: Density): (a: real)
    requires s.m != 0.0 && GravityDefined(s.alt / 1000.0)
    ensures s.alt > HBurn ==> a == DragAcceleration(s, rho) - Gravity(s.alt / 1000.0)
    ensures s.m <= MDry ==> a == DragAcceleration(s, rho) - Gravity(s.alt / 1000.0)
    ensures s.alt <= HBurn && s.m > MDry ==>
      a == Thrust(s.alt, s.m) / s.m + DragAcceleration(s, rho) - Gravity(s.alt / 1000.0)
  {
    var thrust := Thrust(s.alt, s.m);
    ThrustAcceleration(thrust, s.m) - Gravity(s.alt / 1000.0) + DragAcceleration(s, rho)
  }

  /**
   The right-hand side as written. The altitude always falls at least
   1e-3 m/s; mass flows exactly while the burn is lit; the second rate is
   the net UPWARD acceleration.
   */
  function Derivatives(t: real, s: State, rho: Density): (r: Rates)
    requires s.m != 0.0 && GravityDefined(s.alt / 1000.0)
    ensures r.dAlt <= -SpeedFloor
    ensures r.dAlt == -DescentSpeed(s.v)
    ensures r.dM <= 0.0
    ensures r.dM == 0.0 <==> s.alt > HBurn
    ensures -r.dM * (Isp * G0) == Thrust(s.alt, s.m)
    ensures r.dV == NetUpwardAcceleration(s, rho)
  {
    var vDown := DescentSpeed(s.v);
    var thrust := Thrust(s.alt, s.m);
    var aNet := NetUpwardAcceleration(s, rho);
    Rates(-vDown, aNet, MassFlow(thrust))
  }

  /**
   As written, whenever drag is weaker than gravity above the burn
   altitude, the downward speed of a falling craft DEcreases: gravity
   slows the fall.
   */
  lemma AsWrittenGravitySlowsFall(t: real, s: State, rho: Density)
    requires s.m != 0.0 && GravityDefined(s.alt / 1000.0)
    requires s.alt > HBurn && s.v > 0.0
    requires DragAcceleration(s, rho) < Gravity(s.alt / 1000.0)
    ensures Derivatives(t, s, rho).dV < 0.0
  {
  }

  /**
   A concrete instance: 100 km up, falling at 7.8 km/s with the start mass
   in vacuum, the as-written rate of the downward speed is negative.
   */
  lemma AsWrittenFreeFallCounterexample()
    ensures Derivatives(0.0, State(100000.0, 7800.0, MStart), h => 0.0).dV < 0.0
  {
    var s := State(100000.0, 7800.0, MStart);
    assert DragAcceleration(s, h => 0.0) == 0.0;
  }

  /**
   The corrected right-hand side: the rate of the downward speed is
   gravity minus the upward accelerations. Everything else is unchanged.
   */
  function CorrectedDerivatives(t: real, s: State, rho: Density): (r: Rates)
    requires s.m != 0.0 && GravityDefined(s.alt / 1000.0)
    ensures r.dAlt <= -SpeedFloor
    ensures r.dAlt == Derivatives(t, s, rho).dAlt && r.dM == Derivatives(t, s, rho).dM
    ensures r.dV == -NetUpwardAcceleration(s, rho)
  {
    var vDown := DescentSpeed(s.v);
    var thrust := Thrust(s.alt, s.m);
    Rates(-vDown, -NetUpwardAcceleration(s, rho), MassFlow(thrust))
  }

  /**
   With the correction a craft falling above the burn altitude speeds up
   exactly when gravity beats drag, and slows down exactly when drag beats
   gravity.
   */
  lemma CorrectedFallAcceleratesUnderGravity(t: real, s: State, rho: Density)
    requires s.m != 0.0 && GravityDefined(s.alt / 1000.0)
    requires s.alt > HBurn
    ensures CorrectedDerivatives(t, s, rho).dV > 0.0 <==>
            DragAcceleration(s, rho) < Gravity(s.alt / 1000.0)
    ensures CorrectedDerivatives(t, s, rho).dV < 0.0 <==>
            DragAcceleration(s, rho) > Gravity(s.alt / 1000.0)
  {
  }
}
