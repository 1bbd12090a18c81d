# Mission constraint structure of a two-climb-segment TASOPT flight profile

This project models the core of `TASOPT_flight_profile_2_climb_segs.py`, a
GPkit model of a commercial aircraft flying a mission in three phases:
climb 1 (up to 10,000 ft), climb 2 (up to the cruise altitude) and cruise.
GPkit hands the model to an external signomial/geometric-programming solver.
That solve is not modelled. What is modelled is the structure the solver
receives, and what any solution must satisfy.

- **Partition and state linking** (`partition.dfy`, `state_linking.dfy`).
  - One shared engine-state vector of length N1 + N2 + N3 holds every
    mission point. Climb 1 sits at `[0, N1)`, climb 2 at `[N1, N1 + N2)`
    and cruise at `[N1 + N2, N)`.
  - `StateLinking.setup` emits one equality for each of its 18 flight-state
    keys and each mission point. The equality ties the segment-local value
    to its slot in the shared vector.
  - `StateLinking.Generate` builds that list with the source's nested loops.
    It is proved equal to a specification function.
  - Lemmas about that function show three things. It emits 18 * N
    equalities. Every (key, slot) pair is targeted exactly once. The
    equalities hold exactly when each shared engine array is the
    concatenation of the three segment arrays.
- **Mission feasibility** (`mission.dfy`). `Mission.Feasible` states, over
  the values of every variable, the relations `Mission.setup` and the
  polynomial parts of `AircraftP`, `ClimbP`, `CruiseP`, `Wing` and
  `Fuselage` declare:
  - the weight chain and fuel bookkeeping;
  - the altitude profile and range closure;
  - the per-point engine coupling through the same slices of the engine
    arrays;
  - the per-point stall-speed, drag, geometric-mean-weight, lift and
    climb-rate relations.
  - the aircraft geometry: A_fuse = pax_area * n_pax, W_payload =
    n_pax * W_pax, W_e = 0.75 * W_payload, AR * S = b^2, AR <= 10 and
    b <= b_max.
- **Consequences of feasibility.** These are proved in
  `mission_weights.dfy`, `mission_altitude.dfy` and `mission_coupling.dfy`.
  Each lemma assumes only the groups of relations it needs, such as
  `WeightRelations`, `PointPhysics` or `EngineCoupled`. `Feasible`
  includes all of them, so each result holds for every feasible mission:
  - take-off weight covers the landing weight plus every burn;
  - start weights never increase;
  - fuel covers burns, and the dry-weight build-up holds;
  - climb-1 altitudes are forced to exact equal steps;
  - the climb-2 profile is bounded, and cruise climbs in equal steps;
  - the engine's slot j belongs to mission point j;
  - thrust balance, burn from TSFC, and range closure all hold.
- **A feasible mission** (`mission_witness.dfy`). Concrete values for the
  script's own layout, Mission(2, 2, 3), meet every relation of `Feasible`,
  with a cruise that climbs. So the modelled relations (`Feasible`), with
  the intended junction, have solutions, and the consequences above are not
  vacuous. The witness is not claimed to meet the relations listed under
  "Left out"; in particular its climb angle 0.01 at 240 kt does not match
  its climb rates under theta * V = RC.
- **Bound diagnostics** (`bounds.dfy`).
  - `bound_all_variables` adds an artificial upper and lower bound to every
    free variable.
  - `determine_unbounded_variables` then reads the solver's duals and
    values. It flags each variable as sensitive to its upper or lower bound,
    or as near its lower or (otherwise) upper bound.
  - Both are methods proved against specification functions. The solver's
    dual vector and variable values are inputs.

## Model

| member | source | states |
|---|---|---|
| Partition.SharedIndex | TASOPT_flight_profile_2_climb_segs.py:215-226 | local point i of a phase goes to the phase's offset plus i (climb 1: i, climb 2: N1 + i, cruise: N1 + N2 + i), inside the phase's block and inside the shared vector |
| Partition.Locate | TASOPT_flight_profile_2_climb_segs.py:462 | every slot of the shared vector belongs to a phase and a local point of that phase whose shared index is that slot, so the three blocks cover the vector |
| Partition.LocateInvertsSharedIndex | TASOPT_flight_profile_2_climb_segs.py:215-226 | no two local points share a slot: Locate undoes SharedIndex |
| Partition.Slice | TASOPT_flight_profile_2_climb_segs.py:557-559 | the `[:N1]`, `[N1:N1+N2]`, `[N1+N2:]` slice of an engine array has the phase's point count, and its entry i is the array's entry at the point's shared slot |
| Partition.SlicesReassemble | TASOPT_flight_profile_2_climb_segs.py:557-559 | the three slices put back together give the whole engine array |
| Partition.SliceOfJoin | TASOPT_flight_profile_2_climb_segs.py:462 | slicing the concatenated three-phase vector gives each phase back |
| StateLinking.Generate | TASOPT_flight_profile_2_climb_segs.py:212-226 | the nested key/phase/point loops emit exactly the specified list of equalities, key by key, climb 1 then climb 2 then cruise |
| StateLinking.KeyLinksAt | TASOPT_flight_profile_2_climb_segs.py:213-226 | one key's block has N equalities, and its j-th links shared slot j to the point that owns it |
| StateLinking.EmitKey | TASOPT_flight_profile_2_climb_segs.py:214-225 | the three phase loops for one key append that key's block: climb-1 point i to slot i, climb-2 point i to slot N1 + i, cruise point i to slot N1 + N2 + i |
| StateLinking.KeyOffsetIsProduct | TASOPT_flight_profile_2_climb_segs.py:213-226 | key m's block starts at position m * (N1 + N2 + N3) |
| StateLinking.LinkCount | TASOPT_flight_profile_2_climb_segs.py:213-226 | the generator emits one block of N1 + N2 + N3 equalities per key |
| StateLinking.LinkAt | TASOPT_flight_profile_2_climb_segs.py:213-226 | the equality at key m's block start + j is key m's equality for shared slot j |
| StateLinking.LinkDecompose | TASOPT_flight_profile_2_climb_segs.py:213-226 | every emitted equality is key m's equality for some slot j, at key m's block start + j |
| StateLinking.OnlyPosition | TASOPT_flight_profile_2_climb_segs.py:213-226 | with distinct keys, only key m's block start + j holds key m and slot j |
| StateLinking.ExactlyOnce | TASOPT_flight_profile_2_climb_segs.py:213-226 | with distinct keys, every (key, shared slot) pair is targeted by exactly one equality, at key m's block start + j and nowhere else |
| StateLinking.SlotFromLink | TASOPT_flight_profile_2_climb_segs.py:217-225 | when every equality holds, the shared array's slot j equals slot j of the concatenated segment arrays |
| StateLinking.HoldImpliesConcatenated | TASOPT_flight_profile_2_climb_segs.py:209-228 | when every equality holds, each shared engine array is climb 1 + climb 2 + cruise for that key |
| StateLinking.ConcatenatedImpliesHold | TASOPT_flight_profile_2_climb_segs.py:209-228 | conversely, concatenated arrays satisfy every emitted equality |
| StateLinking.LinkingMeansConcatenation | TASOPT_flight_profile_2_climb_segs.py:209-228 | the linking equalities hold if and only if every shared array is the concatenation of the segment arrays |
| StateLinking.StateVarKeysDistinct | TASOPT_flight_profile_2_climb_segs.py:210-211 | the state keys are 18 distinct names |
| StateLinking.SourceLinking | TASOPT_flight_profile_2_climb_segs.py:209-228 | for the 18 state keys: 18 * N equalities, and each key's each shared slot is targeted by one equality at one position |
| MissionWeights.ChainJoin | TASOPT_flight_profile_2_climb_segs.py:516-525 | two weight chains joined where the last end weight equals the next start weight form one chain |
| MissionWeights.ChainCoversBurns | TASOPT_flight_profile_2_climb_segs.py:519-525 | along a chain with start >= end + burn at every point, the first start weight covers the last end weight plus the sum of burns |
| MissionWeights.StartsNonIncreasing | TASOPT_flight_profile_2_climb_segs.py:519-525 | with non-negative burns, start weights never increase along a chain |
| MissionWeights.MissionIsOneChain | TASOPT_flight_profile_2_climb_segs.py:515-525 | climb 1, climb 2 and cruise form one chain starting at W_total in which no point creates weight |
| MissionWeights.TotalWeightCoversBurns | TASOPT_flight_profile_2_climb_segs.py:515-525 | W_total >= final cruise end weight + the burns of all three phases |
| MissionWeights.PointAt | TASOPT_flight_profile_2_climb_segs.py:462 | mission point j is the point of the phase that owns shared slot j |
| MissionWeights.PointFacts | TASOPT_flight_profile_2_climb_segs.py:82-109 | every mission point meets the AircraftP relations, climb points the ClimbP ones and cruise points the CruiseP ones |
| MissionWeights.MissionWeightNonIncreasing | TASOPT_flight_profile_2_climb_segs.py:515-525 | start weights never increase over the whole mission |
| MissionWeights.FuelCoversBurns | TASOPT_flight_profile_2_climb_segs.py:512-532 | W_ftotal covers all burns, and W_total covers W_dry plus all burns |
| MissionWeights.DryWeightBuildUp | TASOPT_flight_profile_2_climb_segs.py:512-513 | with W_payload = n_pax * W_pax and W_e = 0.75 * W_payload, W_dry >= 1.75 * n_pax * W_pax + numeng * W_engine + W_wing, and W_total covers that plus all burns |
| MissionWeights.GeometricMeanBetween | TASOPT_flight_profile_2_climb_segs.py:99 | a positive geometric mean of two ordered positive weights lies between them |
| MissionWeights.PointLiftBetween | TASOPT_flight_profile_2_climb_segs.py:99-108 | at a point that does not create weight, lift (= W_avg) lies between end and start weight |
| MissionWeights.LiftBetweenEndAndStart | TASOPT_flight_profile_2_climb_segs.py:99-108 | at every mission point, lift lies between the end and start weights |
| MissionAltitude.ClimbFloor | TASOPT_flight_profile_2_climb_segs.py:538 | climbing at least s per step, point k is at least k * s above point 0 |
| MissionAltitude.ClimbCeiling | TASOPT_flight_profile_2_climb_segs.py:541 | climbing at least s per step, point k is at least (last - k) * s below the last point |
| MissionAltitude.StepsExact | TASOPT_flight_profile_2_climb_segs.py:537 | stepping exactly s, point k is exactly k * s above point 0 |
| MissionAltitude.Climb1Forced | TASOPT_flight_profile_2_climb_segs.py:541-550 | climb-1 altitudes are forced: hft[k] = (k + 1) * 10,000 ft / N1 |
| MissionAltitude.Climb1TwoPoints | TASOPT_flight_profile_2_climb_segs.py:541-550 | with N1 = 2 the climb-1 altitudes are 5,000 ft and 10,000 ft |
| MissionAltitude.Climb2Profile | TASOPT_flight_profile_2_climb_segs.py:535-547 | climb 2 ends at CruiseAlt, CruiseAlt >= 10,000 ft + N2 * step, every climb-2 point is at least k steps above the first and enough steps below CruiseAlt, and the first is at most one step above 10,000 ft |
| MissionAltitude.CruiseClimb | TASOPT_flight_profile_2_climb_segs.py:535-537 | with the intended junction, cruise point k flies at CruiseAlt + k * dhftholdcr |
| MissionAltitude.ClimbMonotone | TASOPT_flight_profile_2_climb_segs.py:538 | with a non-negative step, altitudes never decrease within a segment |
| MissionAltitude.ProfileNonDecreasing | TASOPT_flight_profile_2_climb_segs.py:535-547 | with non-negative steps, altitude never decreases over climb 2 followed by cruise |
| MissionAltitude.AsWrittenPinsCruise | TASOPT_flight_profile_2_climb_segs.py:537-540 | as written, with two or more cruise points every cruise altitude equals CruiseAlt and dhftholdcr = 0 |
| MissionAltitude.AsWrittenInfeasible | TASOPT_flight_profile_2_climb_segs.py:537-540 | as written, no mission with two or more cruise points is feasible with a positive cruise step |
| MissionAltitude.AsWrittenJunctionImpliesJunction | TASOPT_flight_profile_2_climb_segs.py:540 | the junction as written, every cruise altitude equal to climb 2's last, implies the intended one at cruise point 0 |
| MissionAltitude.AsWrittenImpliesFeasible | TASOPT_flight_profile_2_climb_segs.py:540 | every solution of the constraint set as written also satisfies the intended one; by AsWrittenInfeasible this says something only when N3 = 1 |
| MissionWitness.WitnessPointValid | TASOPT_flight_profile_2_climb_segs.py:82-180 | each point of the witness meets the AircraftP and CruiseP relations (and ClimbP with a step of 5,000 ft or more), is positive, creates no weight and meets the engine relations |
| MissionWitness.WitnessWeights | TASOPT_flight_profile_2_climb_segs.py:512-532 | the witness meets the weight chain, dry-weight and fuel bookkeeping and the range closure |
| MissionWitness.WitnessAltitude | TASOPT_flight_profile_2_climb_segs.py:535-552 | the witness meets every altitude relation and the intended junction |
| MissionWitness.WitnessEngine | TASOPT_flight_profile_2_climb_segs.py:557-619 | every phase of the witness meets the engine relations at its shared slots |
| MissionWitness.WitnessFeasible | TASOPT_flight_profile_2_climb_segs.py:462-619 | Mission(2, 2, 3) with the witness values is feasible, whatever climb 2's first altitude in (0, 20,000] ft |
| MissionWitness.CruiseClimbPossible | TASOPT_flight_profile_2_climb_segs.py:535-552 | with the intended junction Mission(2, 2, 3) has a feasible solution whose cruise climbs with a positive step, and that solution violates the constraint set as written |
| MissionWitness.Climb2MayStartBelowCrossover | TASOPT_flight_profile_2_climb_segs.py:539 | a feasible Mission(2, 2, 3) may start climb 2 below climb 1's last altitude |
| MissionCoupling.PointsSliceLikeEngine | TASOPT_flight_profile_2_climb_segs.py:557-559 | the mission points, sliced like an engine array, give back each segment |
| MissionCoupling.EngineAtPhase | TASOPT_flight_profile_2_climb_segs.py:573-619 | point i of a phase meets the burn, inlet-Mach and thrust relations with the engine values at its shared slot |
| MissionCoupling.EngineAtSlot | TASOPT_flight_profile_2_climb_segs.py:573-619 | mission point j meets the engine relations with the engine values at slot j, whichever phase owns it |
| MissionCoupling.InletMachIsMissionMach | TASOPT_flight_profile_2_climb_segs.py:574 | the engine's M_2 array is the mission's Mach numbers in shared order |
| MissionCoupling.ThrustCoversDrag | TASOPT_flight_profile_2_climb_segs.py:581 | at every slot numeng * F_spec >= D_wing + D_fuse + W_avg * theta |
| MissionCoupling.ThrustExceedsDrag | TASOPT_flight_profile_2_climb_segs.py:581-615 | at every mission point, climb or cruise, numeng * F_spec exceeds the drag D, since W_avg * theta is positive |
| MissionCoupling.EngineBurnIsBurn | TASOPT_flight_profile_2_climb_segs.py:557-559 | where every burn is numeng * TSFC * hours * F, the burns sum to the engine-computed fuel |
| MissionCoupling.EngineEverywhere | TASOPT_flight_profile_2_climb_segs.py:573-619 | every mission point meets the engine relations at its slot |
| MissionCoupling.EngineBurnIsMissionBurn | TASOPT_flight_profile_2_climb_segs.py:557-559 | the mission's burns add up to numeng * TSFC * hours * F summed over the shared vector |
| MissionCoupling.FuelCoversEngineBurn | TASOPT_flight_profile_2_climb_segs.py:529-559 | W_ftotal covers the fuel the engine burns over all mission points |
| MissionCoupling.RangeIsFlown | TASOPT_flight_profile_2_climb_segs.py:144 | where every point's range is hours * speed, summed range equals summed hours * speed |
| MissionCoupling.EveryPointFlies | TASOPT_flight_profile_2_climb_segs.py:180 | every climb and cruise point covers hours * speed of range |
| MissionCoupling.RangeClosed | TASOPT_flight_profile_2_climb_segs.py:554 | hours * speed summed over all mission points covers ReqRng |
| MissionCoupling.ClimbRateFloor | TASOPT_flight_profile_2_climb_segs.py:136 | every climb point climbs at 500 ft/min or more, and every point flies at or above the 120 kt stall speed |
| MissionCoupling.CruiseMayClimbSlowly | TASOPT_flight_profile_2_climb_segs.py:172 | cruise carries no climb-rate floor: a cruise point re-flown at 250 ft/min, with its altitude step to match, stays a valid positive cruise point and fails the climb relations |
| MissionCoupling.ClimbTimeBound | TASOPT_flight_profile_2_climb_segs.py:136-141 | a climb point climbs at least 60 * thr * 500 ft in its segment, from dhft = tmin * RC, tmin = 60 * thr and RC >= 500 ft/min |
| BoundDiagnostics.BoundLimits | TASOPT_flight_profile_2_climb_segs.py:625-626 | computing the limits fails, with a division by zero, exactly when eps is zero and no truthy upper bound is given |
| BoundDiagnostics.DefaultLimits | TASOPT_flight_profile_2_climb_segs.py:623-626 | with no overrides the limits are 1e-30 and 1e30, and their product is 1 |
| BoundDiagnostics.ZeroOverrideIsDefault | TASOPT_flight_profile_2_climb_segs.py:625-626 | a zero lower or upper override is falsy and gives the same limits as none |
| BoundDiagnostics.FreeKeys | TASOPT_flight_profile_2_climb_segs.py:628 | a key is bounded exactly when it is in the model and its descriptor has no value; no more keys than the model has |
| BoundDiagnostics.FreeKeysDistinct | TASOPT_flight_profile_2_climb_segs.py:628 | free keys of distinct keys are distinct |
| BoundDiagnostics.FlattenAt | TASOPT_flight_profile_2_climb_segs.py:633-635 | the solver's constraint 2i is free variable i's upper bound and 2i + 1 its lower bound |
| BoundDiagnostics.FlattenLength | TASOPT_flight_profile_2_climb_segs.py:633-635 | two bound constraints per free variable |
| BoundDiagnostics.BoundAllVariables | TASOPT_flight_profile_2_climb_segs.py:623-637 | fails only on the zero division; otherwise it records the limits and the free keys, and pair i is ub >= key i, key i >= lb |
| BoundDiagnostics.Record | TASOPT_flight_profile_2_climb_segs.py:649-660 | each label's list grows by the key exactly when the key is flagged under that label |
| BoundDiagnostics.DiagnoseErrPersists | TASOPT_flight_profile_2_climb_segs.py:647-660 | once a key lacks a dual or a value, the whole pass fails with that key's error |
| BoundDiagnostics.DiagnoseNext | TASOPT_flight_profile_2_climb_segs.py:647-660 | a key with both duals and a value extends the report by its record |
| BoundDiagnostics.DiagnoseStopsAt | TASOPT_flight_profile_2_climb_segs.py:649-654 | the first key missing a dual (checked first) or a value decides the error |
| BoundDiagnostics.ClassifyBounded | TASOPT_flight_profile_2_climb_segs.py:640-648 | once bounded, the pass classifies exactly the bounded keys with the bounded model's limits |
| BoundDiagnostics.DetermineUnboundedVariables | TASOPT_flight_profile_2_climb_segs.py:640-661 | the loop's report, or its error, is the specified classification of the free keys |
| BoundDiagnostics.DiagnoseOkIff | TASOPT_flight_profile_2_climb_segs.py:648-654 | the classification succeeds if and only if there are at least 2n bound duals and every key has a value |
| BoundDiagnostics.ListedIff | TASOPT_flight_profile_2_climb_segs.py:649-660 | a key is listed under a label if and only if one of its occurrences is flagged under that label |
| BoundDiagnostics.ListedStep | TASOPT_flight_profile_2_climb_segs.py:649-660 | each list grows by key n - 1 exactly when that key is flagged |
| BoundDiagnostics.NearBoundsExclusive | TASOPT_flight_profile_2_climb_segs.py:657-660 | no key is reported both near its lower and near its upper bound |
| BoundDiagnostics.QuietDualsNotSensitive | TASOPT_flight_profile_2_climb_segs.py:649-653 | a key whose two bound duals are both below 1e-7 (a variable pinned by a physical constraint) is in neither sensitivity list |
| BoundDiagnostics.SensitivityReadsOwnBound | TASOPT_flight_profile_2_climb_segs.py:646-649 | the upper flag of key i reads the dual of constraint 2i, its own upper bound, and the lower flag reads that of constraint 2i + 1, its own lower bound |
| BoundDiagnostics.NearMeansWithinFactor | TASOPT_flight_profile_2_climb_segs.py:655-659 | for positive limits and values, ln(v / lb) <= 3 iff v <= lb * e^3, and ln(ub / v) <= 3 iff ub <= v * e^3 |
| BoundDiagnostics.UnitValueIsInterior | TASOPT_flight_profile_2_climb_segs.py:655-660 | with the default limits a value of 1 is near neither bound |

Nothing ties climb 2's first altitude to climb 1's last. Line 539 only
bounds `hftClimb2[0] <= dhftholdcl2 + 10000 ft`.
`MissionWitness.Climb2MayStartBelowCrossover` exhibits a feasible mission
whose climb 2 starts at 5,000 ft, below climb 1's last altitude of 10,000 ft.

## Left out

- The solve: `localsolve`, successive convexification and the external
  solver. The solver's duals and values enter the diagnostics as inputs.
- The atmosphere model, and the wing curve fits: drag polar, wing-weight
  power law, K = (pi e AR)^-1. These need non-integer real powers. Only
  AR * S = b^2, AR <= 10 and b <= b_max are kept.
- Wing loading and W_avg = 0.5 C_L S rho V^2. They need the density and lift
  coefficient from the left-out models.
- theta * V = RC (lines 139 and 175): theta enters no other modelled
  relation than the thrust balance. Climb angle is kept as a free positive
  per-point value.
- excessP, RC = excessP / W_avg and the excess-power thrust inequalities
  (lines 135, 171, 584, 600 and 618): excessP appears in no other modelled
  relation, so for any climb rate a large enough thrust satisfies them.
  dhft = tmin * RC and RC >= 500 ft/min are modelled (`ClimbP`, `CruiseP`).
- The `enginestate` and `statelinking` constraints that `Mission.setup`
  returns (line 621) are not part of `Feasible`: the linking equalities are
  modelled on their own in `state_linking.dfy`, and the engine flight
  state's own relations are left out. The atmosphere-dependent relations
  V = M * a (line 256) and D_fuse = C_D,fuse * 0.5 * A_fuse * rho * V^2
  with C_D,fuse = 0.005 (lines 448-450) are left out too, as they need the
  atmosphere model.
- Engine internals: the engine is an unseen module. TSFC, F, F_spec and M_2
  are opaque per-point arrays, and the engine's fixed-Mach substitutions
  (lines 575-578) are not modelled.
- Units: each quantity has one fixed unit (ft, ft/min, hours, knots,
  nautical miles). `h == hft` is an identity and is not modelled;
  `t == thours` (line 105) is modelled as tmin = 60 * thr inside
  `dhft == MinutesPerHour * thr * rc`.
- GPkit plumbing: `Vectorize`, `Model`, `Tight`, and the substitution and
  plotting script.
- The constraints commented out in the source: RC_min, V <= 250 kt,
  M >= 0.7 and the cruise inequality step.
- `engine_comparisson_case.py` and `engine_component_testing.py` are not
  part of this model.
- Mission.Feasible: requires every variable it mentions to be strictly
  positive: all aircraft fields, every engine array entry, the mission
  weights, fuels, altitudes, steps and range, and every field of every
  mission point (`Mission.Positive`). A geometric program only admits
  positive values; the source does not state this as a constraint.
- BoundDiagnostics.NearMeansWithinFactor: e^3 is the float64 value
  20.085536923187668 and the arithmetic is exact. Floating-point rounding
  of `np.log` and of `1/eps` is not modelled.
- BoundDiagnostics.DetermineUnboundedVariables: variable units and
  `mag` are left out. The solver's values are given as a map from key to
  magnitude, and a missing key is the lookup error.

## Findings

| source | as written | input that shows it | evidently intended | confidence | as-written member | corrected member |
|---|---|---|---|---|---|---|
| TASOPT_flight_profile_2_climb_segs.py:540 | `hftClimb2[-1] == hftCruise` compares climb 2's last altitude with the whole cruise vector. With the cruise step equality of line 537, this forces every cruise altitude equal and dhftholdcr = 0 once there are two or more cruise points, and a geometric program needs dhftholdcr > 0 | Mission(2, 2, 3), the script's own layout: hft_cruise[1] = hft_cruise[0] + dhftholdcr and both equal hftClimb2[-1], so dhftholdcr = 0 | `hftClimb2[-1] == hftCruise[0]`: climb 2 ends at the cruise entry altitude and cruise may climb | medium, not executed | MissionAltitude.AsWrittenInfeasible | MissionWitness.CruiseClimbPossible |
