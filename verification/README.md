# Phased launch-and-landing right-hand sides, in Dafny

This project models the decision logic at the heart of a set of rocket
trajectory scripts. Four of them hand an ODE integrator a right-hand side
that maps `(t, [altitude, velocity, mass])` to `[d alt, d v, d m]`. The
model covers those functions:

- the full round trip (`FullRoundTripSong`). It has a time-based phase
  schedule (ascent, coast, deorbit burn, re-entry) and a hard-coded
  forced-fall override.
- the re-entry-only descent (`TrajectorySong`).
- two ascent-to-orbit variants (`OrbitalInsertionV2`, `OrbitalInsertionV1`).

It also models two scripts that have no right-hand side:

- the Falcon 9 stage's grid-fin drag and hoverslam helpers
  (`Falcon9Song`). They return a scalar acceleration and do not call an
  integrator.
- the three-mode attitude setter of the deorbiting satellite
  (`PacificWhaleSong`).

Shared laws live in `Physics`:

- inverse-square gravity
- quadratic drag
- the 150 km density gate
- the two throttle-clamp orderings
- `np.sign`

`AscentLaws` holds the ascent pieces: staging, mass flow, the clamped
gravity-turn pitch, and the capped velocity-dependent drag coefficient.
`Consistency` relates the near-duplicate scripts to one another.

Modelling choices:

- All arithmetic is exact `real` arithmetic.
- Atmospheric density is an opaque function of altitude in km, passed in
  as a parameter. The function stands for the atmosphere model at the
  script's fixed date and location.
- Where a property needs density to be non-negative, the contract says
  so as a hypothesis.
- `np.sin(np.radians(.))` is likewise an opaque function parameter
  `sinDeg`.
- The source divides by the mass and by `6371 + alt_km`. The model
  requires these to be non-zero exactly where the branch taken divides by
  them. At those points the source's floating-point arithmetic yields
  infinities or NaN, which reals cannot represent.
- The attitude setter is a total function. It returns the object after
  the call together with the error it raised, if any. That includes the
  division error Python raises for a zero drag coefficient.

## Model

| member | source | states |
|---|---|---|
| Physics.Gravity | full_round_trip_song.py:41-42 | Gravity is strictly positive wherever it is defined. It is exactly g0 at zero altitude and at most g0 at or above the surface. |
| Physics.GravityStrictlyDecreasing | orbital_insertion_song.py:31-32 | For any two altitudes above the planet's centre, the higher one has strictly smaller gravity. |
| Physics.Sign | full_round_trip_song.py:78 | `np.sign(x)` times x is the magnitude of x, so for non-zero x the sign is ±1. The sign of 0 is 0. |
| Physics.QuadraticDrag | full_round_trip_song.py:77 | The drag force is non-negative for non-negative density, coefficient and area. |
| Physics.QuadraticDragMonotoneInCd | full_round_trip_song.py:76-77 | A larger drag coefficient never gives less drag force. |
| Physics.QuadraticDragMonotoneInCdArea | full_round_trip_song.py:95-103 | A larger coefficient together with a larger area never gives less drag force. |
| Physics.QuadraticDragEven | falcon9_song.py:49 | Drag force depends on velocity only through its square: v and −v give equal force. |
| Physics.GatedDensity | full_round_trip_song.py:35-39 | Above 150 km the density is 0. At or below it, the density is the atmosphere model's value. It is non-negative when the model's value is. |
| Physics.FloorThenCap | full_round_trip_song.py:110 | `min(max(x, lo), hi)` is the point of [lo, hi] nearest to x whenever lo ≤ hi. |
| Physics.CapThenFloor | trajectory_song.py:69-73 | Capping at hi and then flooring at lo also gives the point of [lo, hi] nearest to x. |
| Physics.ClampOrderIrrelevant | trajectory_song.py:69-73 | For a non-empty range, the two clamp orderings used by the scripts agree. |
| AscentLaws.Staged | full_round_trip_song.py:63-66 | The booster burns strictly before separation. The ship burns from separation on. |
| AscentLaws.MassFlow | full_round_trip_song.py:82 | The mass rate times Isp·g0 equals minus the thrust. A burning engine always loses mass. |
| AscentLaws.GravityTurnPitch | full_round_trip_song.py:68 | The pitch stays in [6, 90]. It is 90 until 12 s and 6 from 12 + 84/0.45 s on. In between it falls linearly at 0.45°/s. |
| AscentLaws.GravityTurnPitchMonotone | orbital_insertion_song_v2.py:54-55 | The pitch never increases with time. |
| AscentLaws.DragCoefficient | full_round_trip_song.py:76 | For a non-negative speed the coefficient lies in [Cd_base, 1.8·Cd_base]. From Mach 5 (1700 m/s) on it is exactly 1.8·Cd_base. |
| AscentLaws.DragCoefficientMonotone | orbital_insertion_song_v2.py:65 | The coefficient never decreases as speed grows. |
| FullRoundTripSong.ReachedMonotone | full_round_trip_song.py:44-48 | A later time has reached at least as many phase boundaries (proved by induction over the boundary list). |
| FullRoundTripSong.GetPhase | full_round_trip_song.py:44-48 | The phase index (ascent 0 … re-entry 3) equals the number of the boundaries 380, 5400 and 5460 s that the clock has reached. |
| FullRoundTripSong.GetPhaseMonotone | full_round_trip_song.py:44-48 | For t1 ≤ t2, the phase index at t2 is at least the phase index at t1. |
| FullRoundTripSong.PhaseBoundaryInclusive | full_round_trip_song.py:44-48 | At each boundary the next phase is already active (t = 380 is coast). Before it, the index is at most the previous phase's. |
| FullRoundTripSong.AscentEngine | full_round_trip_song.py:63-66 | The booster's thrust and Isp apply for t < 162 s, the ship's from 162 s on. Both have positive thrust and Isp. |
| FullRoundTripSong.AscentDrag | full_round_trip_song.py:73-78 | Drag is zero unless alt_km < 120 and \|v\| > 50. When active, a·m is −sign(v) times the quadratic drag at the speed-dependent coefficient. For positive mass and density it opposes the velocity (a·v ≤ 0). When active, its size lies between the drag at the base coefficient and the drag at the capped one. |
| FullRoundTripSong.AscentRates | full_round_trip_song.py:62-83 | The altitude rate is v. The acceleration is staged thrust·sin(pitch)/m − g + drag. The mass rate is ≤ 0, and it is 0 exactly when m ≤ m_dry_ship + 10000; otherwise it is the staged engine's flow. |
| FullRoundTripSong.CoastRates | full_round_trip_song.py:84-85 | The mass rate is 0. The acceleration is exactly −g(alt), which is negative. |
| FullRoundTripSong.DeorbitRates | full_round_trip_song.py:87-90 | The mass rate is −thrust/(Isp_ship·g0) < 0 with no guard. The acceleration times m equals −thrust, so it is negative for positive mass. |
| FullRoundTripSong.ReentryAttitude | full_round_trip_song.py:95-100 | Exactly one band applies: (1.8, 550) above 70 km, (0.9, 150) in (0.8, 70] km, and (0.4, 64) otherwise. |
| FullRoundTripSong.ReentryAttitudeMonotone | full_round_trip_song.py:95-100 | Descending through the bands never increases Cd or area. |
| FullRoundTripSong.ReentryDrag | full_round_trip_song.py:93-103 | a·m is the quadratic drag of the altitude band's attitude at descent speed max(−v, 0.1) and the gated density. It is ≥ 0 for positive mass and density, and 0 above 150 km. |
| FullRoundTripSong.ReentryDragForceNeverGrowsDownward | full_round_trip_song.py:95-103 | At equal density and speed, a lower attitude band never gives more drag force than a higher one. |
| FullRoundTripSong.LandingThrust | full_round_trip_song.py:106-110 | Thrust is 0 from 3000 m up. Below 3000 m it is the value in [0.4·T, T] nearest to (g + 0.4)·m. |
| FullRoundTripSong.LandingDemand | full_round_trip_song.py:108-109 | The demanded thrust over m, minus gravity, is exactly 0.4 m/s². For positive mass it exceeds 0.4·m. |
| FullRoundTripSong.ReentryRates | full_round_trip_song.py:92-116 | The mass rate is ≤ 0, and it is < 0 exactly when alt < 3000 and m > m_dry_ship + 5000. A non-zero mass rate times Isp_ship·g0 is minus the landing thrust. At or below that mass floor, the acceleration has no thrust term. |
| FullRoundTripSong.ForcedFall | full_round_trip_song.py:56 | The override fires exactly when t > 5470 s and alt > 100 km. The re-entry phase test is implied by the clock test. |
| FullRoundTripSong.Derivatives | full_round_trip_song.py:50-116 | The forced fall (t > 5470, alt > 100 km, re-entry) returns (−7800, −10, 0) first. Otherwise the altitude rate is v. Mass never grows. It shrinks only in the deorbit burn or above the landing mass floor. Each phase uses its own law. |
| TrajectorySong.GetAttitude | trajectory_song.py:40-46 | The attitude is (1.8, 550) above 70000 m, (0.9, 150) in (800, 70000] m, and (0.4, 64) otherwise. |
| TrajectorySong.DescentSpeed | trajectory_song.py:50-51 | The descent speed is \|v\| floored at 1e-3, so it is always ≥ 1e-3. |
| TrajectorySong.DragAcceleration | trajectory_song.py:53-58 | a·m is the quadratic drag of the altitude band's attitude at the floored descent speed, with no density ceiling. It is ≥ 0 for positive mass and non-negative density. |
| TrajectorySong.Thrust | trajectory_song.py:63-73 | Thrust is 0 above 1500 m. At or below 1500 m it is the value in [0.4·T, T] nearest to (g + 0.05)·m, whatever the mass. |
| TrajectorySong.ThrustAcceleration | trajectory_song.py:75 | Thrust acceleration is 0 when m ≤ m_dry. Otherwise it times m equals the thrust. |
| TrajectorySong.MassFlow | trajectory_song.py:77-78 | The mass rate is ≤ 0 and is 0 exactly when thrust is 0. It obeys the Isp·g0 flow law. |
| TrajectorySong.NetUpwardAcceleration | trajectory_song.py:75-80 | Above the burn altitude, or at or below dry mass, the net upward acceleration is drag − gravity. During the landing burn above dry mass it is thrust/m + drag − gravity. |
| TrajectorySong.Derivatives | trajectory_song.py:48-82 | The altitude rate is −(descent speed) ≤ −1e-3. The mass rate times Isp·g0 is minus the thrust, so it is 0 exactly above 1500 m. The second rate is the net upward acceleration (as written). |
| TrajectorySong.AsWrittenGravitySlowsFall | trajectory_song.py:80-82 | As written, when drag is weaker than gravity above 1500 m, the rate of the downward speed is negative. |
| TrajectorySong.AsWrittenFreeFallCounterexample | trajectory_song.py:80-82 | As written, at 100 km, falling at 7800 m/s in vacuum, the downward speed decreases. |
| TrajectorySong.CorrectedDerivatives | trajectory_song.py:48-82 | The rate of the downward speed is minus the net upward acceleration. The altitude and mass rates equal the as-written ones. |
| TrajectorySong.CorrectedFallAcceleratesUnderGravity | trajectory_song.py:80-82 | With the correction, above the burn altitude the fall speeds up exactly when gravity beats drag. It slows exactly when drag beats gravity. |
| OrbitalInsertionV2.StageEngine | orbital_insertion_song_v2.py:46-51 | The booster's thrust and Isp apply for t < 162, the ship's for t ≥ 162. |
| OrbitalInsertionV2.Drag | orbital_insertion_song_v2.py:61-67 | Drag is 0 unless alt_km < 120 and v_up > 50. When active it is ≤ 0 for positive mass and density. Its coefficient lies in [Cd_base, 1.8·Cd_base]. Its size times m is the quadratic drag of the stack. |
| OrbitalInsertionV2.Derivatives | orbital_insertion_song_v2.py:41-72 | The altitude rate is v_up. The mass rate is strictly negative at every t with no guard. The acceleration is thrust·sin(pitch)/m − g + drag. |
| OrbitalInsertionV1.StageEngine | orbital_insertion_song.py:36-41 | The booster's thrust and Isp apply for t < 160, the ship's for t ≥ 160. |
| OrbitalInsertionV1.Pitch | orbital_insertion_song.py:44 | Pitch is ≥ 10 for all t and ≤ 90 for t ≥ 0. It equals 10 from 240 s on and 90 − t/3 before. |
| OrbitalInsertionV1.PitchMonotone | orbital_insertion_song.py:44 | The pitch never increases with time. |
| OrbitalInsertionV1.DerivativesAscent | orbital_insertion_song.py:34-51 | The altitude rate is v. The mass rate is −thrust/(Isp·g0) < 0 in both stages. The acceleration is exactly thrust·sin(pitch)/m − g(alt/1000), with no drag term. |
| PacificWhaleSong.ParseAttitude | pacific_whale_song.py:33-43 | A recognised name maps to the mode with that name. An unrecognised name is no mode's name. |
| PacificWhaleSong.ParseAttitudeName | pacific_whale_song.py:33-41 | Parsing a mode's own name gives back that mode. |
| PacificWhaleSong.UpdateBallisticCoeff | pacific_whale_song.py:27-29 | Afterwards ballistic_coeff·(cd·area_drag) = mass. No other field changes. |
| PacificWhaleSong.Init | pacific_whale_song.py:17-24 | The initial sprite has mode belly, area 13.5, cd 2.2, mass 260 and ballistic_coeff = 260/(2.2·13.5). It is valid. |
| PacificWhaleSong.SetDeorbitAttitude | pacific_whale_song.py:31-45 | A name other than belly, edge or sail raises the attitude error and leaves the sprite unchanged. A known name sets the mode to that name and the area from the table (13.5, 1.8, 22.0), keeping mass, cd and name. With non-zero cd no error is raised and the ballistic coefficient is consistent. With zero cd the division error is raised after mode and area have changed. |
| PacificWhaleSong.SetDeorbitAttitudePreservesValid | pacific_whale_song.py:31-45 | Every call keeps a valid sprite valid: its area matches its mode and its ballistic coefficient is consistent. |
| PacificWhaleSong.SetDeorbitAttitudeIdempotent | pacific_whale_song.py:31-45 | Setting the same mode twice equals setting it once, including the error case. |
| PacificWhaleSong.BallisticCoeffOrdering | pacific_whale_song.py:33-45 | For positive mass and cd, the ballistic coefficients order as edge > belly > sail. |
| Falcon9Song.Init | falcon9_song.py:13-21 | total_mass = dry_mass + prop_mass_landing = 28600 kg. |
| Falcon9Song.DragAcceleration | falcon9_song.py:40-50 | The result is 0 when alt_km > 100 or alt_km < 0. Inside the band, the result ×1000 ×total_mass is the SI drag force at v·1000 m/s (the km↔m conversion). It is ≥ 0 for non-negative density. |
| Falcon9Song.DragAccelerationEven | falcon9_song.py:45-50 | v and −v give the same drag. |
| Falcon9Song.DragAccelerationQuadratic | falcon9_song.py:45-50 | Scaling the speed by k scales the drag by k². |
| Falcon9Song.LandingBurnAcceleration | falcon9_song.py:52-56 | (result + 9.81/1000)·1000·total_mass = Merlin thrust, and the result is positive. |
| Consistency.ReentryBandsAgreeAcrossUnits | trajectory_song.py:40-46 | The round-trip bands (km thresholds) and the re-entry-only bands (m thresholds) select the same Cd and area at every altitude. |
| Consistency.RoundTripAscentMatchesV2 | orbital_insertion_song_v2.py:41-72 | While climbing (v ≥ 0) above the ascent mass floor, the round-trip ascent law equals the second insertion script's law. |
| Consistency.DescendingDragDiffers | full_round_trip_song.py:74-78 | Falling faster than 50 m/s below 120 km in air, the round-trip ascent law applies positive (upward) drag. The second insertion script applies none. |

## Left out

- Numerical integration is not modelled. This covers `solve_ivp` with RK45, step control, tolerances, `max_step` and event root-finding. These are library numerics; the model covers only the right-hand sides they evaluate.
- The atmosphere model (`pymsis.calculate`) is not modelled beyond the 150 km gate. Density is an opaque function parameter. The clock-dependent default date in the Falcon 9 density lookup (`datetime.utcnow()`) is folded into that function.
- `np.sin(np.radians(.))` is an opaque parameter. No range assumptions are made about it, since none of the stated properties needs them.
- IEEE-754 rounding, infinities and NaN are not modelled. Every quantity is an exact real, and divisions by zero are excluded by preconditions.
- All printing, the `report` method and matplotlib plotting are left out. They have no effect on state.
- Some scripts are not part of this model: orbit_tug.py, perigee_kick_demo.py, sat_orbit_baseline.py and challenge.py. They are three-dimensional orbit propagation built on external orbital-mechanics libraries.
- starship_song.py is not modelled: it holds constants only.
- Orbital-element construction and read-back are not modelled. Neither are whole-flight outcomes that need an integrator, such as reaching 300 km or touching down below 5 m/s.
- The per-evaluation mass-flow gates are modelled. The integrated "mass never drops below dry mass" property is not, because it needs the integrator.

## Findings

| source | as written | input that shows it | evidently intended | confidence | as-written member | corrected member |
|---|---|---|---|---|---|---|
| trajectory_song.py:80-82 | The state's second component is the downward speed `v_down` (the altitude rate is `-abs(v_down)`). Yet its rate is returned as `a_thrust - a_gravity + a_drag`, the upward-positive net acceleration. | alt = 100000 m, v_down = 7800 m/s, m = 155000 kg, zero density: the rate of v_down is −g(100 km) < 0, so gravity slows the fall | The rate of the downward speed is `a_gravity - a_thrust - a_drag`, the negation | medium, not executed | TrajectorySong.AsWrittenFreeFallCounterexample | TrajectorySong.CorrectedDerivatives |
