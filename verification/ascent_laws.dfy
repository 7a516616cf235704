/**
 Ascent laws shared by the ascent scripts: booster/ship staging by time,
 the rocket mass-flow law, the clamped gravity-turn pitch schedule and the
 velocity-dependent drag coefficient with its capped multiplier.
 */
module AscentLaws {
  import opened Physics

  /** The engine set that is burning: thrust (N) and specific impulse (s). */
  datatype Engine = Engine(thrust: real, isp: real)

  /**
   Staging by time: the booster burns strictly before `separation`, the
   ship from `separation` on (the boundary belongs to the ship).
   */
  function Staged(t: real, separation: real, booster: Engine, ship: Engine): (e: Engine)
    ensures t < separation ==> e == booster
    ensures t >= separation ==> e == ship
  {
    if t < separation then booster else ship
  }

  /**
   Mass flow `-thrust / (Isp g0)`: it is the rate that makes thrust equal
   exhaust mass rate times effective exhaust speed `Isp g0`, and a burning
   engine always loses mass.
   */
  function MassFlow(e: Engine): (dm: real)
    requires e.isp != 0.0
    ensures -dm * (e.isp * G0) == e.thrust
    ensures e.thrust > 0.0 && e.isp > 0.0 ==> dm < 0.0
  {
    -e.thrust / (e.isp * G0)
  }

  /** Seconds of vertical rise before the gravity turn starts. */
  const TurnStart: real := 12.0
  /** Pitch-over rate of the gravity turn, degrees per second. */
  const TurnRate: real := 0.45
  /** Smallest pitch the turn reaches, degrees. */
  const MinPitch: real := 6.0
  /** Time at which the turn reaches `MinPitch`. */
  const TurnEnd: real := TurnStart + (90.0 - MinPitch) / TurnRate

  /**
   Gravity-turn pitch `max(90 - max(0, (t - 12) * 0.45), 6)` in degrees:
   vertical until 12 s, then a linear pitch-over at 0.45 deg/s, held at 6
   degrees from `TurnEnd` on.
   */
  function GravityTurnPitch(t: real): (p: real)
    ensures MinPitch <= p <= 90.0
    ensures t <= TurnStart ==> p == 90.0
    ensures t >= TurnEnd ==> p == MinPitch
    ensures TurnStart <= t <= TurnEnd ==> p == 90.0 - (t - TurnStart) * TurnRate
  {
    Max(90.0 - Max(0.0, (t - TurnStart) * TurnRate), MinPitch)
  }

  /** The pitch never rises again once the turn has begun. */
  lemma GravityTurnPitchMonotone(t1: real, t2: real)
    requires t1 <= t2
    ensures GravityTurnPitch(t2) <= GravityTurnPitch(t1)
  {
  }

  /** Speed (m/s) at which the drag multiplier reaches its cap: Mach 5 at 340 m/s. */
  const CdCapSpeed: real := 340.0 * 5.0

  /**
   Drag coefficient `Cd_base (1 + 0.8 min(speed/340/5, 1)^2)`: between
   `Cd_base` and `1.8 Cd_base` for a non-negative speed, and exactly the
   cap from Mach 5 on.
   */
  function DragCoefficient(cdBase: real, speed: real): (cd: real)
    ensures speed >= 0.0 && cdBase >= 0.0 ==> cdBase <= cd <= 1.8 * cdBase
    ensures speed >= CdCapSpeed ==> cd == 1.8 * cdBase
  {
    var x := Min(speed / 340.0 / 5.0, 1.0);
    assert speed >= 0.0 ==> 0.0 <= x <= 1.0;
    assert speed >= 0.0 ==> 0.0 <= x * x <= x;
    assert speed >= 0.0 && cdBase >= 0.0 ==> 0.0 <= cdBase * (x * x) <= cdBase;
    cdBase * (1.0 + 0.8 * (x * x))
  }

  /** Below the cap the coefficient grows with speed. */
  lemma DragCoefficientMonotone(cdBase: real, s1: real, s2: real)
    requires cdBase >= 0.0 && 0.0 <= s1 <= s2
    ensures DragCoefficient(cdBase, s1) <= DragCoefficient(cdBase, s2)
  {
    var x1 := Min(s1 / 340.0 / 5.0, 1.0);
    var x2 := Min(s2 / 340.0 / 5.0, 1.0);
    assert 0.0 <= x1 <= x2;
    var y1, y2 := x1 * x1, x2 * x2;
    assert y1 <= x1 * x2 by {
      assert x1 * x2 - y1 == x1 * (x2 - x1);
      ProductNonNegative(x1, x2 - x1);
    }
    assert x1 * x2 <= y2 by {
      assert y2 - x1 * x2 == x2 * (x2 - x1);
      ProductNonNegative(x2, x2 - x1);
    }
    assert cdBase * y1 <= cdBase * y2 by {
      assert cdBase * y2 - cdBase * y1 == cdBase * (y2 - y1);
    }
  }
}
