/**
 The round-trip right-hand side: ascent under booster then ship thrust,
 a coast, a fixed-window deorbit burn and a re-entry with altitude-banded
 attitudes and a throttled landing burn, selected by a time-based phase
 schedule, with a hard-coded forced-fall override late in re-entry.

 Units: altitude in m (converted to km for gravity and density), velocity
 positive upward in m/s, mass in kg.
 */
module FullRoundTripSong {
  import opened Physics
  import opened AscentLaws

  const MDryShip: real := 120000.0
  const MDryBooster: real := 85000.0
  const MPropShip: real := 1200000.0
  const MPropBooster: real := 3800000.0
  /** Lift-off mass of the stacked vehicle. */
  const MLiftoff: real := MDryShip + MDryBooster + MPropShip + MPropBooster

  const ThrustBooster: real := 33.0 * 2300000.0
  const ThrustShipAscent: real := 9.0 * 2630000.0
  const ThrustShipLanding: real := 3.0 * 2300000.0
  const IspBooster: real := 327.0
  const IspShip: real := 378.0

  const AStack: real := 9.0 * 70.0
  const CdBase: real := 0.25
  const ABelly: real := 550.0
  const AVertical: real := 64.0

  /** Booster/ship separation time, s. */
  const Separation: real := 162.0

  /** Ascent mass flow stops at or below this mass. */
  const AscentMassFloor: real := MDryShip + 10000.0
  /** Landing-burn thrust and mass flow stop at or below this mass. */
  const LandingMassFloor: real := MDryShip + 5000.0
  /** The landing burn is lit strictly below this altitude, m. */
  const LandingBurnAltitude: real := 3000.0

  // ---------------------------------------------------------------------
  // Phase schedule

  datatype Phase = Ascent | Coast | DeorbitBurn | Reentry {
    /** Position of the phase in flight order. */
    function Index(): nat
    {
      match this
      case Ascent => 0
      case Coast => 1
      case DeorbitBurn => 2
      case Reentry => 3
    }
  }

  /** Start times of coast, deorbit burn and re-entry, in flight order. */
  const PhaseBoundaries: seq<real> := [380.0, 5400.0, 5460.0]

  /** How many of the boundaries `bs` the time `t` has reached (boundaries are inclusive). */
  function Reached(t: real, bs: seq<real>): (n: nat)
    ensures n <= |bs|
  {
    if |bs| == 0 then 0 else (if bs[0] <= t then 1 else 0) + Reached(t, bs[1..])
  }

  /** A later time has reached at least as many boundaries. */
  lemma {:induction false} ReachedMonotone(bs: seq<real>, t1: real, t2: real)
    requires t1 <= t2
    ensures Reached(t1, bs) <= Reached(t2, bs)
  {
    if |bs| > 0 {
      ReachedMonotone(bs[1..], t1, t2);
    }
  }

  /**
   The phase schedule. Its index (ascent 0 ... re-entry 3) is the number of
   phase boundaries the clock has reached.
   */
  function GetPhase(t: real): (p: Phase)
    ensures p.Index() == Reached(t, PhaseBoundaries)
  {
    var bs := PhaseBoundaries;
    assert bs[1..] == [5400.0, 5460.0];
    assert bs[1..][1..] == [5460.0];
    assert bs[1..][1..][1..] == [];
    assert Reached(t, bs[1..][1..]) == (if 5460.0 <= t then 1 else 0);
    assert Reached(t, bs[1..]) == (if 5400.0 <= t then 1 else 0) + Reached(t, bs[1..][1..]);
    assert Reached(t, bs) == (if 380.0 <= t then 1 else 0) + Reached(t, bs[1..]);
    if t < 380.0 then Ascent
    else if t < 5400.0 then Coast
    else if t < 5460.0 then DeorbitBurn
    else Reentry
  }

  /** The schedule never returns to an earlier phase. */
  lemma GetPhaseMonotone(t1: real, t2: real)
    requires t1 <= t2
    ensures GetPhase(t1).Index() <= GetPhase(t2).Index()
  {
    ReachedMonotone(PhaseBoundaries, t1, t2);
  }

  /**
   Boundaries are inclusive on the lower side: at the `i`-th boundary the
   next phase is already active, and just before it the previous one is.
   */
  lemma PhaseBoundaryInclusive(i: nat, t: real)
    requires i < |PhaseBoundaries|
    requires t < PhaseBoundaries[i]
    ensures GetPhase(PhaseBoundaries[i]).Index() == i + 1
    ensures GetPhase(t).Index() <= i
  {
  }

  // ---------------------------------------------------------------------
  // Ascent

  function AscentEngine(t: real): (e: Engine)
    ensures e.thrust > 0.0 && e.isp > 0.0
    ensures t < Separation ==> e == Engine(ThrustBooster, IspBooster)
    ensures t >= Separation ==> e == Engine(ThrustShipAscent, IspShip)
  {
    Staged(t, Separation, Engine(ThrustBooster, IspBooster), Engine(ThrustShipAscent, IspShip))
  }

  /**
   Ascent drag: only below 120 km and above 50 m/s of vertical speed, with
   the speed-dependent coefficient, and always against the velocity. Its
   size lies between the drag at the base coefficient and the drag at the
   capped one.
   */
  function AscentDrag(s: State, rho: Density): (a: real)
    requires s.m != 0.0
    ensures !(s.alt / 1000.0 < 120.0 && Abs(s.v) > 50.0) ==> a == 0.0
    ensures s.alt / 1000.0 < 120.0 && Abs(s.v) > 50.0 ==>
      a * s.m == -Sign(s.v) * QuadraticDrag(rho(s.alt / 1000.0), s.v, DragCoefficient(CdBase, Abs(s.v)), AStack)
    ensures NonNegative(rho) && s.m > 0.0 ==> a * s.v <= 0.0
    ensures NonNegative(rho) && s.m > 0.0 ==>
      Abs(a) <= QuadraticDrag(rho(s.alt / 1000.0), s.v, 1.8 * CdBase, AStack) / s.m
    ensures NonNegative(rho) && s.m > 0.0 && s.alt / 1000.0 < 120.0 && Abs(s.v) > 50.0 ==>
      QuadraticDrag(rho(s.alt / 1000.0), s.v, CdBase, AStack) / s.m <= Abs(a)
  {
    var altKm := s.alt / 1000.0;
    if altKm < 120.0 && Abs(s.v) > 50.0 then
      var rhoHere := GatedDensity(rho, altKm);
      assert rhoHere == rho(altKm);
      AscentDragBounds(rhoHere, s.v, s.m);
      -QuadraticDrag(rhoHere, s.v, DragCoefficient(CdBase, Abs(s.v)), AStack) / s.m * Sign(s.v)
    else
      0.0
  }

  /** The active ascent drag at density `density`, speed `v` and mass `m`. */
  lemma AscentDragBounds(density: real, v: real, m: real)
    requires m != 0.0
    ensures var a := -QuadraticDrag(density, v, DragCoefficient(CdBase, Abs(v)), AStack) / m * Sign(v);
      && a * m == -Sign(v) * QuadraticDrag(density, v, DragCoefficient(CdBase, Abs(v)), AStack)
      && (density >= 0.0 && m > 0.0 ==>
          && a * v <= 0.0
          && Abs(a) <= QuadraticDrag(density, v, 1.8 * CdBase, AStack) / m
          && (v != 0.0 ==> QuadraticDrag(density, v, CdBase, AStack) / m <= Abs(a)))
  {
    var cd := DragCoefficient(CdBase, Abs(v));
    var force := QuadraticDrag(density, v, cd, AStack);
    if density >= 0.0 && m > 0.0 {
      QuadraticDragMonotoneInCd(density, v, CdBase, cd, AStack);
      QuadraticDragMonotoneInCd(density, v, cd, 1.8 * CdBase, AStack);
      OpposingAcceleration(QuadraticDrag(density, v, CdBase, AStack), force,
                           QuadraticDrag(density, v, 1.8 * CdBase, AStack), m, v);
    }
  }

  /** A force of size `floor <= force <= cap` applied against `v` to mass `m`. */
  lemma OpposingAcceleration(floor: real, force: real, cap: real, m: real, v: real)
    requires 0.0 <= floor <= force <= cap && m > 0.0
    ensures (-force / m * Sign(v)) * v <= 0.0
    ensures Abs(-force / m * Sign(v)) <= cap / m
    ensures v != 0.0 ==> floor / m <= Abs(-force / m * Sign(v))
  {
    var k := force / m;
    var acc := -force / m * Sign(v);
    DivMonotone(0.0, force, m);
    DivMonotone(force, cap, m);
    DivMonotone(floor, force, m);
    assert -force / m == -k;
    if v > 0.0 {
      assert acc == -k;
      assert Abs(acc) == k;
      ProductNonNegative(k, v);
      assert acc * v == -(k * v);
    } else if v < 0.0 {
      assert acc == k;
      assert Abs(acc) == k;
      ProductNonNegative(k, -v);
      assert acc * v == -(k * -v);
    } else {
      assert acc == 0.0;
    }
  }

  /**
   Ascent right-hand side: the altitude rate is the velocity; the
   acceleration adds the vertical thrust component, gravity and drag; mass
   flows at the staged engine's rate until the mass floor is reached.
   */
  function AscentRates(t: real, s: State, rho: Density, sinDeg: real -> real): (r: Rates)
    requires s.m != 0.0 && GravityDefined(s.alt / 1000.0)
    ensures r.dAlt == s.v
    ensures r.dV == AscentEngine(t).thrust * sinDeg(GravityTurnPitch(t)) / s.m
                    - Gravity(s.alt / 1000.0) + AscentDrag(s, rho)
    ensures r.dM <= 0.0
    ensures r.dM == 0.0 <==> s.m <= AscentMassFloor
    ensures r.dM != 0.0 ==> r.dM == MassFlow(AscentEngine(t))
  {
    var e := AscentEngine(t);
    var pitch := GravityTurnPitch(t);
    var aThrust := (e.thrust * sinDeg(pitch)) / s.m;
    var aGravity := -Gravity(s.alt / 1000.0);
    var aNet := aThrust + aGravity + AscentDrag(s, rho);
    var dm := if e.thrust > 0.0 && s.m > AscentMassFloor then MassFlow(e) else 0.0;
    Rates(s.v, aNet, dm)
  }

  // ---------------------------------------------------------------------
  // Coast and deorbit burn

  /** Coast: no thrust, no drag, constant mass; only gravity pulls down. */
  function CoastRates(s: State): (r: Rates)
    requires GravityDefined(s.alt / 1000.0)
    ensures r.dAlt == s.v && r.dM == 0.0
    ensures r.dV == -Gravity(s.alt / 1000.0) && r.dV < 0.0
  {
    Rates(s.v, -Gravity(s.alt / 1000.0), 0.0)
  }

  /**
   Deorbit burn: retrograde ship thrust with no mass guard, so the craft
   always loses mass and (for positive mass) always decelerates.
   */
  function DeorbitRates(s: State): (r: Rates)
    requires s.m != 0.0
    ensures r.dAlt == s.v
    ensures r.dV * s.m == -ThrustShipAscent
    ensures s.m > 0.0 ==> r.dV < 0.0
    ensures r.dM < 0.0 && -r.dM * (IspShip * G0) == ThrustShipAscent
  {
    var thrust := ThrustShipAscent;
    Rates(s.v, -thrust / s.m, -thrust / (IspShip * G0))
  }

  // ---------------------------------------------------------------------
  // Re-entry

  /**
   Attitude bands keyed on altitude (km): belly-flop above 70 km, the flip
   posture above 0.8 km, vertical below. Exactly one band applies.
   */
  function ReentryAttitude(altKm: real): (a: Aero)
    ensures altKm > 70.0 ==> a == Aero(1.8, ABelly)
    ensures 0.8 < altKm <= 70.0 ==> a == Aero(0.9, 150.0)
    ensures altKm <= 0.8 ==> a == Aero(0.4, AVertical)
  {
    if altKm > 70.0 then Aero(1.8, ABelly)
    else if altKm > 0.8 then Aero(0.9, 150.0)
    else Aero(0.4, AVertical)
  }

  /** Descending through the bands never increases the drag area `Cd A`. */
  lemma ReentryAttitudeMonotone(h1: real, h2: real)
    requires h1 <= h2
    ensures ReentryAttitude(h1).cd <= ReentryAttitude(h2).cd
    ensures ReentryAttitude(h1).area <= ReentryAttitude(h2).area
  {
  }

  /**
   Re-entry drag: the banded attitude's quadratic drag at the descent speed
   `max(-v, 0.1)` and the gated density, over the mass. It always pushes
   upward and vanishes in vacuum above 150 km.
   */
  function ReentryDrag(s: State, rho: Density): (a: real)
    requires s.m != 0.0
    ensures a * s.m == QuadraticDrag(GatedDensity(rho, s.alt / 1000.0), Max(-s.v, 0.1),
                                     ReentryAttitude(s.alt / 1000.0).cd, ReentryAttitude(s.alt / 1000.0).area)
    ensures rho(s.alt / 1000.0) >= 0.0 && s.m > 0.0 ==> a >= 0.0
    ensures s.alt / 1000.0 > DensityCeilingKm ==> a == 0.0
  {
    var altKm := s.alt / 1000.0;
    var vDown := Max(-s.v, 0.1);
    var att := ReentryAttitude(altKm);
    QuadraticDrag(GatedDensity(rho, altKm), vDown, att.cd, att.area) / s.m
  }

  /**
   At the same density and descent speed, a lower attitude band never
   produces more drag force than a higher one.
   */
  lemma ReentryDragForceNeverGrowsDownward(density: real, vDown: real, h1: real, h2: real)
    requires density >= 0.0 && h1 <= h2
    ensures QuadraticDrag(density, vDown, ReentryAttitude(h1).cd, ReentryAttitude(h1).area)
         <= QuadraticDrag(density, vDown, ReentryAttitude(h2).cd, ReentryAttitude(h2).area)
  {
    ReentryAttitudeMonotone(h1, h2);
    QuadraticDragMonotoneInCdArea(density, vDown, ReentryAttitude(h1).cd, ReentryAttitude(h2).cd,
                                  ReentryAttitude(h1).area, ReentryAttitude(h2).area);
  }

  /**
   Landing-burn thrust: off from 3000 m up; below it, the thrust for a net
   upward acceleration of 0.4 m/s^2 beyond gravity, clamped to the engine's
   throttle range `[0.4 T, T]`.
   */
  function LandingThrust(alt: real, m: real): (thrust: real)
    requires alt < LandingBurnAltitude ==> GravityDefined(alt / 1000.0)
    ensures alt >= LandingBurnAltitude ==> thrust == 0.0
    ensures alt < LandingBurnAltitude ==>
      IsClamp(LandingDemand(alt, m), 0.4 * ThrustShipLanding, ThrustShipLanding, thrust)
    ensures alt < LandingBurnAltitude ==> 0.4 * ThrustShipLanding <= thrust <= ThrustShipLanding
  {
    if alt < LandingBurnAltitude then
      FloorThenCap(LandingDemand(alt, m), 0.4 * ThrustShipLanding, ThrustShipLanding)
    else
      0.0
  }

  /** Thrust giving mass `m` an upward acceleration 0.4 m/s^2 beyond gravity. */
  function LandingDemand(alt: real, m: real): (d: real)
    requires GravityDefined(alt / 1000.0)
    ensures m != 0.0 ==> d / m - Gravity(alt / 1000.0) == 0.4
    ensures m > 0.0 ==> d > 0.4 * m
  {
    var desired := Gravity(alt / 1000.0) + 0.4;
    desired * m
  }

  /**
   Re-entry right-hand side: drag, gravity and (below 3000 m) the landing
   burn; thrust acceleration and mass flow are both cut at the landing
   mass floor, and mass flows exactly while the burn is lit above it.
   */
  function ReentryRates(s: State, rho: Density): (r: Rates)
    requires s.m != 0.0 && GravityDefined(s.alt / 1000.0)
    ensures r.dAlt == s.v
    ensures r.dM <= 0.0
    ensures r.dM < 0.0 <==> s.alt < LandingBurnAltitude && s.m > LandingMassFloor
    ensures r.dM < 0.0 ==> -r.dM * (IspShip * G0) == LandingThrust(s.alt, s.m)
    ensures s.m > LandingMassFloor ==>
      r.dV == LandingThrust(s.alt, s.m) / s.m + ReentryDrag(s, rho) - Gravity(s.alt / 1000.0)
    ensures s.m <= LandingMassFloor ==> r.dV == ReentryDrag(s, rho) - Gravity(s.alt / 1000.0)
  {
    var altKm := s.alt / 1000.0;
    var aDrag := ReentryDrag(s, rho);
    var aGravity := -Gravity(altKm);
    var thrust := LandingThrust(s.alt, s.m);
    var aThrust := if s.m > LandingMassFloor then thrust / s.m else 0.0;
    var dm := if thrust > 0.0 && s.m > LandingMassFloor then -thrust / (IspShip * G0) else 0.0;
    Rates(s.v, aThrust + aDrag + aGravity, dm)
  }

  // ---------------------------------------------------------------------
  // Dispatch

  /**
   The hard-coded override: late in re-entry and still above 100 km. The
   phase test is implied by the clock test, so only time and altitude decide.
   */
  predicate ForcedFall(t: real, s: State): (b: bool)
    ensures b <==> t > 5470.0 && s.alt > 100000.0
  {
    t > 5470.0 && s.alt > 100000.0 && GetPhase(t) == Reentry
  }

  /** The rates returned by the override, whatever the state. */
  const ForcedFallRates: Rates := Rates(-7800.0, -10.0, 0.0)

  /** Inputs on which the branch taken divides only by non-zero quantities. */
  predicate Evaluable(t: real, s: State)
  {
    ForcedFall(t, s) ||
    match GetPhase(t)
    case Ascent => s.m != 0.0 && GravityDefined(s.alt / 1000.0)
    case Coast => GravityDefined(s.alt / 1000.0)
    case DeorbitBurn => s.m != 0.0
    case Reentry => s.m != 0.0 && GravityDefined(s.alt / 1000.0)
  }

  /**
   The full right-hand side. The forced fall takes precedence over the
   phase laws; otherwise the altitude rate is the velocity. Mass never
   grows, and it only shrinks during the deorbit burn or above the landing
   mass floor.
   */
  function Derivatives(t: real, s: State, rho: Density, sinDeg: real -> real): (r: Rates)
    requires Evaluable(t, s)
    ensures ForcedFall(t, s) ==> r == ForcedFallRates
    ensures !ForcedFall(t, s) ==> r.dAlt == s.v
    ensures r.dM <= 0.0
    ensures r.dM < 0.0 ==> GetPhase(t) == DeorbitBurn || s.m > LandingMassFloor
    ensures !ForcedFall(t, s) && GetPhase(t) == Coast ==> r == CoastRates(s)
    ensures GetPhase(t) == Ascent ==> r == AscentRates(t, s, rho, sinDeg)
    ensures GetPhase(t) == DeorbitBurn ==> r == DeorbitRates(s)
    ensures !ForcedFall(t, s) && GetPhase(t) == Reentry ==> r == ReentryRates(s, rho)
  {
    var phase := GetPhase(t);
    if ForcedFall(t, s) then
      ForcedFallRates
    else
      match phase
      case Ascent => AscentRates(t, s, rho, sinDeg)
      case Coast => CoastRates(s)
      case DeorbitBurn => DeorbitRates(s)
      case Reentry => ReentryRates(s, rho)
  }
}
