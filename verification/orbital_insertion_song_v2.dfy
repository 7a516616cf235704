/**
 Ascent-to-orbit right-hand side, second version: staging at 162 s, the
 clamped gravity turn, drag only while climbing fast below 120 km, and an
 unguarded mass flow.
 */
module OrbitalInsertionV2 {
  import opened Physics
  import opened AscentLaws

  const MDryShip: real := 120000.0
  const MDryBooster: real := 85000.0
  const MPropShip: real := 1200000.0
  const MPropBooster: real := 3800000.0
  /** Lift-off mass of the stacked vehicle. */
  const MTotal: real := MDryShip + MDryBooster + MPropShip + MPropBooster

  const ThrustBooster: real := 33.0 * 2300000.0
  const ThrustShip: real := 9.0 * 2630000.0
  const IspBooster: real := 327.0
  const IspShip: real := 378.0
  const AStack: real := 9.0 * 70.0
  const CdBase: real := 0.25

  /** Booster/ship separation time, s. */
  const Separation: real := 162.0

  function StageEngine(t: real): (e: Engine)
    ensures e.thrust > 0.0 && e.isp > 0.0
    ensures t < Separation ==> e == Engine(ThrustBooster, IspBooster)
    ensures t >= Separation ==> e == Engine(ThrustShip, IspShip)
  {
    Staged(t, Separation, Engine(ThrustBooster, IspBooster), Engine(ThrustShip, IspShip))
  }

  /** Drag is active only below 120 km while climbing faster than 50 m/s. */
  predicate DragActive(s: State)
  {
    s.alt / 1000.0 < 120.0 && s.v > 50.0
  }

  /**
   Drag acceleration: zero unless active; when active it points down
   (against the climb), uses a coefficient in `[Cd_base, 1.8 Cd_base]`, and
   is the quadratic drag of the stack over the mass.
   */
  function Drag(s: State, rho: Density): (a: real)
    requires s.m != 0.0
    ensures !DragActive(s) ==> a == 0.0
    ensures DragActive(s) && rho(s.alt / 1000.0) >= 0.0 && s.m > 0.0 ==> a <= 0.0
    ensures DragActive(s) ==> CdBase <= DragCoefficient(CdBase, s.v) <= 1.8 * CdBase
    ensures DragActive(s) ==>
      -a * s.m == QuadraticDrag(rho(s.alt / 1000.0), s.v, DragCoefficient(CdBase, s.v), AStack)
  {
    var altKm := s.alt / 1000.0;
    if altKm < 120.0 && s.v > 50.0 then
      var rhoHere := GatedDensity(rho, altKm);
      var cd := DragCoefficient(CdBase, s.v);
      var dragForce := QuadraticDrag(rhoHere, s.v, cd, AStack);
      -dragForce / s.m
    else
      0.0
  }

  /**
   The ascent right-hand side: altitude rate is the vertical velocity,
   acceleration sums thrust, gravity and drag, and mass always flows at the
   staged engine's rate.
   */
  function Derivatives(t: real, s: State, rho: Density, sinDeg: real -> real): (r: Rates)
    requires s.m != 0.0 && GravityDefined(s.alt / 1000.0)
    ensures r.dAlt == s.v
    ensures r.dM < 0.0 && r.dM == MassFlow(StageEngine(t))
    ensures r.dV == StageEngine(t).thrust * sinDeg(GravityTurnPitch(t)) / s.m
                    - Gravity(s.alt / 1000.0) + Drag(s, rho)
  {
    var e := StageEngine(t);
    var pitch := GravityTurnPitch(t);
    var aThrust := (e.thrust * sinDeg(pitch)) / s.m;
    var aGravity := -Gravity(s.alt / 1000.0);
    var aNet := aThrust + aGravity + Drag(s, rho);
    var dm := if e.thrust > 0.0 then MassFlow(e) else 0.0;
    Rates(s.v, aNet, dm)
  }
}
