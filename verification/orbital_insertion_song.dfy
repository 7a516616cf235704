/**
 Ascent-to-orbit right-hand side, first version: staging at 160 s, a
 linear pitch schedule floored at 10 degrees, no drag and an unconditional
 mass flow.
 */
module OrbitalInsertionV1 {
  import opened Physics
  import opened AscentLaws

  const MDryShip: real := 120000.0
  const MDryBooster: real := 85000.0
  const MPropShip: real := 1200000.0
  const MPropBooster: real := 3800000.0
  /** Lift-off mass of the stacked vehicle. */
  const MTotal: real := MDryShip + MDryBooster + MPropShip + MPropBooster

  const ThrustBooster: real := 33.0 * 2300000.0
  const ThrustShip: real := 9.0 * 2600000.0
  const IspBooster: real := 330.0
  const IspShip: real := 380.0

  /** Booster/ship separation time, s. */
  const Separation: real := 160.0
  /** Floor of the pitch schedule, degrees. */
  const MinPitch: real := 10.0

  function StageEngine(t: real): (e: Engine)
    ensures e.thrust > 0.0 && e.isp > 0.0
    ensures t < Separation ==> e == Engine(ThrustBooster, IspBooster)
    ensures t >= Separation ==> e == Engine(ThrustShip, IspShip)
  {
    Staged(t, Separation, Engine(ThrustBooster, IspBooster), Engine(ThrustShip, IspShip))
  }

  /**
   Pitch `max(90 - t/3, 10)` degrees: never below 10, at most 90 from
   lift-off on, and held at 10 from 240 s on.
   */
  function Pitch(t: real): (p: real)
    ensures p >= MinPitch
    ensures t >= 0.0 ==> p <= 90.0
    ensures t >= 240.0 ==> p == MinPitch
    ensures t <= 240.0 ==> p == 90.0 - t / 3.0
  {
    Max(90.0 - t / 3.0, MinPitch)
  }

  /** The pitch never rises again as time goes on. */
  lemma PitchMonotone(t1: real, t2: real)
    requires t1 <= t2
    ensures Pitch(t2) <= Pitch(t1)
  {
  }

  /**
   The ascent right-hand side: thrust's vertical component over mass minus
   gravity at `alt/1000` km, with no drag term, and a mass flow that is the
   staged engine's rate in both stages.
   */
  function DerivativesAscent(t: real, s: State, sinDeg: real -> real): (r: Rates)
    requires s.m != 0.0 && GravityDefined(s.alt / 1000.0)
    ensures r.dAlt == s.v
    ensures r.dM < 0.0 && r.dM == MassFlow(StageEngine(t))
    ensures r.dV + Gravity(s.alt / 1000.0) == StageEngine(t).thrust * sinDeg(Pitch(t)) / s.m
  {
    var e := StageEngine(t);
    var pitch := Pitch(t);
    var thrustVector := e.thrust * sinDeg(pitch);
    var aGravity := -Gravity(s.alt / 1000.0);
    var aThrust := thrustVector / s.m;
    var dm := MassFlow(e);
    Rates(s.v, aThrust + aGravity, dm)
  }
}
