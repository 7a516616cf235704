/**
 How the near-duplicate right-hand sides relate to each other: where two
 scripts compute the same law in different units or with different guards,
 these lemmas say when they agree and where they part ways.
 */
module Consistency {
  import opened Physics
  import opened AscentLaws
  import FullRoundTripSong
  import TrajectorySong
  import OrbitalInsertionV2

  /**
   The round-trip re-entry bands (thresholds in km) and the re-entry-only
   attitude bands (thresholds in m) select the same Cd and area at every
   altitude.
   */
  lemma ReentryBandsAgreeAcrossUnits(alt: real)
    ensures FullRoundTripSong.ReentryAttitude(alt / 1000.0) == TrajectorySong.GetAttitude(alt)
  {
  }

  /**
   While climbing and above the ascent mass floor, the round-trip ascent
   law is exactly the second insertion script's law: same staging, pitch,
   drag and mass flow.
   */
  lemma RoundTripAscentMatchesV2(t: real, s: State, rho: Density, sinDeg: real -> real)
    requires s.m != 0.0 && GravityDefined(s.alt / 1000.0)
    requires s.v >= 0.0 && s.m > FullRoundTripSong.AscentMassFloor
    ensures FullRoundTripSong.AscentRates(t, s, rho, sinDeg) == OrbitalInsertionV2.Derivatives(t, s, rho, sinDeg)
  {
    assert FullRoundTripSong.AscentEngine(t) == OrbitalInsertionV2.StageEngine(t);
    if s.alt / 1000.0 < 120.0 && s.v > 50.0 {
      assert Abs(s.v) == s.v && Sign(s.v) == 1.0;
    }
    assert FullRoundTripSong.AscentDrag(s, rho) == OrbitalInsertionV2.Drag(s, rho);
  }

  /**
   They part ways for a stack falling faster than 50 m/s below 120 km in
   air: the round-trip law applies upward drag, the second insertion
   script none.
   */
  lemma DescendingDragDiffers(s: State, rho: Density)
    requires s.m > 0.0 && s.alt / 1000.0 < 120.0 && s.v < -50.0
    requires rho(s.alt / 1000.0) > 0.0
    ensures FullRoundTripSong.AscentDrag(s, rho) > 0.0
    ensures OrbitalInsertionV2.Drag(s, rho) == 0.0
  {
    var altKm := s.alt / 1000.0;
    var cd := DragCoefficient(FullRoundTripSong.CdBase, Abs(s.v));
    var force := QuadraticDrag(GatedDensity(rho, altKm), s.v, cd, FullRoundTripSong.AStack);
    assert GatedDensity(rho, altKm) == rho(altKm);
    var k := 0.5 * rho(altKm) * (s.v * s.v);
    assert s.v * s.v > 0.0;
    assert k > 0.0;
    assert k * cd > 0.0;
    assert force == k * cd * FullRoundTripSong.AStack > 0.0;
    assert Sign(s.v) == -1.0;
    assert FullRoundTripSong.AscentDrag(s, rho) == force / s.m;
  }
}
