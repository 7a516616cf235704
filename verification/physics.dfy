/**
 Shared physics of the trajectory scripts: the state and derivative triple
 handed to the integrator, the inverse-square gravity law, quadratic drag,
 the 150 km density gate, and the small real-valued helpers (`abs`, `max`,
 `min`, `np.sign`, throttle clamps) the right-hand sides are built from.

 All arithmetic is exact real arithmetic. Atmospheric density is an opaque
 function of altitude in km (`Density`); which date, place and model
 version produced it is fixed by whoever supplies the function.
 */
module Physics {

  /** Standard gravity, m/s^2, as every script sets `g0`. */
  const G0: real := 9.80665

  /** Reference planetary radius of the gravity law, km. */
  const EarthRadiusKm: real := 6371.0

  /** Altitude in km above which the gated density lookup returns 0. */
  const DensityCeilingKm: real := 150.0

  /**
   Integrator state: altitude (m), speed (m/s), mass (kg). What `v` means
   depends on the script: most store the upward-positive vertical velocity,
   but the re-entry-only descent stores the downward speed.
   */
  datatype State = State(alt: real, v: real, m: real)

  /** Right-hand side: (d alt/dt, d v/dt, d m/dt). */
  datatype Rates = Rates(dAlt: real, dV: real, dM: real)

  /** Drag parameters selected by an attitude or altitude band. */
  datatype Aero = Aero(cd: real, area: real)

  /** Atmospheric mass density (kg/m^3) as a function of altitude in km. */
  type Density = real -> real

  ghost predicate NonNegative(rho: Density)
  {
    forall h :: rho(h) >= 0.0
  }

  function Abs(x: real): real
  {
    if x < 0.0 then -x else x
  }

  function Max(a: real, b: real): real
  {
    if b > a then b else a
  }

  function Min(a: real, b: real): real
  {
    if b < a then b else a
  }

  /** Non-linear step the solver does not always take unaided. */
  lemma ProductNonNegative(a: real, b: real)
    requires a >= 0.0 && b >= 0.0
    ensures a * b >= 0.0
  {
  }

  /** Dividing by a positive number keeps the order. */
  lemma DivMonotone(a: real, b: real, m: real)
    requires a <= b && m > 0.0
    ensures a / m <= b / m
  {
    assert a / m * m == a;
    assert b / m * m == b;
  }

  lemma SquareNonNegative(x: real)
    ensures x * x >= 0.0
  {
    if x < 0.0 {
      ProductNonNegative(-x, -x);
    } else {
      ProductNonNegative(x, x);
    }
  }

  /** `np.sign`: -1, 0 or 1. */
  function Sign(x: real): (r: real)
    ensures r * x == Abs(x)
    ensures x == 0.0 ==> r == 0.0
  {
    if x > 0.0 then 1.0 else if x < 0.0 then -1.0 else 0.0
  }

  /** The gravity law divides by `6371 + alt_km`. */
  predicate GravityDefined(altKm: real)
  {
    EarthRadiusKm + altKm != 0.0
  }

  /**
   Inverse-square gravity `g0 * (6371 / (6371 + alt_km))^2`: positive
   wherever it is defined, exactly `g0` at the surface and no more than
   `g0` at or above it.
   */
  function Gravity(altKm: real): (g: real)
    requires GravityDefined(altKm)
    ensures g > 0.0
    ensures altKm == 0.0 ==> g == G0
    ensures altKm >= 0.0 ==> g <= G0
  {
    var q := EarthRadiusKm / (EarthRadiusKm + altKm);
    assert altKm >= 0.0 ==> 0.0 < q <= 1.0;
    assert altKm >= 0.0 ==> q * q <= q;
    G0 * (q * q)
  }

  /** Gravity strictly weakens with altitude anywhere above the planet's centre. */
  lemma GravityStrictlyDecreasing(h1: real, h2: real)
    requires -EarthRadiusKm < h1 < h2
    ensures Gravity(h2) < Gravity(h1)
  {
    var q1 := EarthRadiusKm / (EarthRadiusKm + h1);
    var q2 := EarthRadiusKm / (EarthRadiusKm + h2);
    assert 0.0 < q2 < q1 by {
      assert q2 * (EarthRadiusKm + h2) == EarthRadiusKm;
      assert q1 * (EarthRadiusKm + h1) == EarthRadiusKm;
      assert q2 * (EarthRadiusKm + h1) < q2 * (EarthRadiusKm + h2);
    }
    assert q2 * q2 < q1 * q2 < q1 * q1;
    assert Gravity(h2) == G0 * (q2 * q2) < G0 * (q1 * q1) == Gravity(h1);
  }

  /**
   Standard quadratic drag force `1/2 rho v^2 Cd A`. It never pushes the
   wrong way for physical inputs, and it grows with the drag coefficient.
   */
  function QuadraticDrag(rho: real, v: real, cd: real, area: real): (f: real)
    ensures rho >= 0.0 && cd >= 0.0 && area >= 0.0 ==> f >= 0.0
  {
    var k := 0.5 * rho * (v * v);
    assert rho >= 0.0 ==> k >= 0.0;
    k * cd * area
  }

  lemma QuadraticDragMonotoneInCd(rho: real, v: real, cd1: real, cd2: real, area: real)
    requires rho >= 0.0 && area >= 0.0 && cd1 <= cd2
    ensures QuadraticDrag(rho, v, cd1, area) <= QuadraticDrag(rho, v, cd2, area)
  {
    var k := 0.5 * rho * (v * v);
    SquareNonNegative(v);
    ProductNonNegative(0.5 * rho, v * v);
    ProductNonNegative(k, cd2 - cd1);
    ProductNonNegative(k * (cd2 - cd1), area);
    assert QuadraticDrag(rho, v, cd2, area) - QuadraticDrag(rho, v, cd1, area)
        == (k * (cd2 - cd1)) * area;
  }

  /** A larger coefficient and a larger area together never give less drag. */
  lemma QuadraticDragMonotoneInCdArea(rho: real, v: real, cd1: real, cd2: real, area1: real, area2: real)
    requires rho >= 0.0 && 0.0 <= cd1 <= cd2 && 0.0 <= area1 <= area2
    ensures QuadraticDrag(rho, v, cd1, area1) <= QuadraticDrag(rho, v, cd2, area2)
  {
    var k := 0.5 * rho * (v * v);
    SquareNonNegative(v);
    ProductNonNegative(0.5 * rho, v * v);
    QuadraticDragMonotoneInCd(rho, v, cd1, cd2, area1);
    ProductNonNegative(k, cd2);
    ProductNonNegative(k * cd2, area2 - area1);
    assert QuadraticDrag(rho, v, cd2, area2) - QuadraticDrag(rho, v, cd2, area1)
        == (k * cd2) * (area2 - area1);
  }

  /** Drag depends on velocity only through its square. */
  lemma QuadraticDragEven(rho: real, v: real, cd: real, area: real)
    ensures QuadraticDrag(rho, -v, cd, area) == QuadraticDrag(rho, v, cd, area)
  {
    assert (-v) * (-v) == v * v;
  }

  /**
   Density lookup behind the 150 km gate: above the ceiling the scripts
   skip the atmosphere model and use vacuum.
   */
  function GatedDensity(rho: Density, altKm: real): (d: real)
    ensures altKm > DensityCeilingKm ==> d == 0.0
    ensures altKm <= DensityCeilingKm ==> d == rho(altKm)
    ensures rho(altKm) >= 0.0 ==> d >= 0.0
  {
    if altKm > DensityCeilingKm then 0.0 else rho(altKm)
  }

  /** The point of `[lo, hi]` nearest to `x`. */
  ghost predicate IsClamp(x: real, lo: real, hi: real, r: real)
  {
    && lo <= r <= hi
    && (lo <= x <= hi ==> r == x)
    && (x < lo ==> r == lo)
    && (x > hi ==> r == hi)
  }

  /** `min(max(x, lo), hi)`: raise to the floor first, then cap. */
  function FloorThenCap(x: real, lo: real, hi: real): (r: real)
    ensures lo <= hi ==> IsClamp(x, lo, hi, r)
  {
    Min(Max(x, lo), hi)
  }

  /** `if x > hi: x = hi; if x < lo: x = lo`: cap first, then raise to the floor. */
  function CapThenFloor(x: real, lo: real, hi: real): (r: real)
    ensures lo <= hi ==> IsClamp(x, lo, hi, r)
  {
    var capped := if x > hi then hi else x;
    if capped < lo then lo else capped
  }

  /** With a non-empty range the two throttle clamps written in the scripts agree. */
  lemma ClampOrderIrrelevant(x: real, lo: real, hi: real)
    requires lo <= hi
    ensures FloorThenCap(x, lo, hi) == CapThenFloor(x, lo, hi)
  {
  }
}
