/**
 The Falcon 9 first stage on its way down: landing mass bookkeeping,
 grid-fin drag in km/s^2 gated to altitudes between 0 and 100 km, and the
 net acceleration of a single-Merlin hoverslam.
 */
module Falcon9Song {
  import opened Physics

  const DryMass: real := 25600.0
  const PropMassLanding: real := 3000.0
  const ThrustMerlinSl: real := 934000.0
  const GridFinArea: real := 4.0 * 3.5
  const BodyDiameter: real := 3.7

  /** Effective area with grid fins deployed, m^2, and its drag coefficient. */
  const FinsArea: real := 40.0
  const FinsCd: real := 1.2

  /** Surface gravity used by the hoverslam, km/s^2. */
  const HoverslamGravity: real := 9.81 / 1000.0

  datatype Stage = Stage(
    name: string,
    dryMass: real,
    propMassLanding: real,
    totalMass: real,
    thrustMerlinSl: real,
    gridFinArea: real,
    bodyDiameter: real)

  /** The stage at the start of descent: landing mass is dry mass plus residual propellant. */
  function Init(): (f: Stage)
    ensures f.totalMass == f.dryMass + f.propMassLanding
    ensures f.dryMass == 25600.0 && f.propMassLanding == 3000.0 && f.totalMass == 28600.0
    ensures f.thrustMerlinSl == 934000.0 && f.gridFinArea == 14.0 && f.bodyDiameter == 3.7
  {
    Stage("Falcon 9 First Stage", DryMass, PropMassLanding, DryMass + PropMassLanding,
          ThrustMerlinSl, GridFinArea, BodyDiameter)
  }

  /** Mass the descent functions divide by. */
  const TotalMass: real := Init().totalMass

  /** Grid-fin drag is computed only between the surface and 100 km. */
  predicate InDragBand(altKm: real)
  {
    0.0 <= altKm <= 100.0
  }

  /**
   Grid-fin drag acceleration in km/s^2 for a speed in km/s: zero outside
   `[0, 100]` km; inside, the SI quadratic drag at the speed converted to
   m/s, over the landing mass, converted back to km/s^2. Never negative
   for a non-negative density.
   */
  function DragAcceleration(rho: Density, altKm: real, vKmS: real): (a: real)
    ensures !InDragBand(altKm) ==> a == 0.0
    ensures InDragBand(altKm) ==>
      a * 1000.0 * TotalMass == QuadraticDrag(rho(altKm), vKmS * 1000.0, FinsCd, FinsArea)
    ensures rho(altKm) >= 0.0 ==> a >= 0.0
  {
    if altKm > 100.0 || altKm < 0.0 then
      0.0
    else
      var vMs := vKmS * 1000.0;
      var dragForce := QuadraticDrag(rho(altKm), vMs, FinsCd, FinsArea);
      dragForce / TotalMass / 1000.0
  }

  /** Drag does not depend on the direction of motion. */
  lemma DragAccelerationEven(rho: Density, altKm: real, vKmS: real)
    ensures DragAcceleration(rho, altKm, -vKmS) == DragAcceleration(rho, altKm, vKmS)
  {
    assert -vKmS * 1000.0 == -(vKmS * 1000.0);
    QuadraticDragEven(rho(altKm), vKmS * 1000.0, FinsCd, FinsArea);
  }

  /** Drag grows with the square of the speed: scaling speed by `k` scales drag by `k^2`. */
  lemma DragAccelerationQuadratic(rho: Density, altKm: real, vKmS: real, k: real)
    ensures DragAcceleration(rho, altKm, k * vKmS) == k * k * DragAcceleration(rho, altKm, vKmS)
  {
    if InDragBand(altKm) {
      var v := vKmS * 1000.0;
      var r := rho(altKm);
      assert (k * vKmS) * 1000.0 == k * v;
      assert (k * v) * (k * v) == (k * k) * (v * v);
      assert QuadraticDrag(r, k * v, FinsCd, FinsArea) == (k * k) * QuadraticDrag(r, v, FinsCd, FinsArea);
    }
  }

  /**
   Net hoverslam acceleration in km/s^2: Merlin thrust over landing mass,
   converted from m/s^2, minus 9.81 m/s^2 likewise converted. With these
   constants the stage decelerates.
   */
  function LandingBurnAcceleration(): (a: real)
    ensures (a + HoverslamGravity) * 1000.0 * TotalMass == ThrustMerlinSl
    ensures a > 0.0
  {
    var g0 := HoverslamGravity;
    ThrustMerlinSl / TotalMass / 1000.0 - g0
  }
}
