/** What the altitude relations force: climb-1 altitudes are pinned to equal
    steps up to the 10,000 ft crossover, climb-2 climbs by at least its step
    to the cruise altitude, and cruise starts at the declared cruise altitude.
    The junction as written pins every cruise point to one altitude, which
    leaves no room for the positive cruise step. */
module MissionAltitude {
  import opened Partition
  import opened Mission

  /** Each step climbs by at least `s`. */
  predicate ClimbsBy(ps: seq<Point>, s: real)
  {
    forall k :: 0 <= k < |ps| - 1 ==> ps[k + 1].hft >= ps[k].hft + s
  }

  /** Each step climbs by exactly `s`. */
  predicate StepsBy(ps: seq<Point>, s: real)
  {
    forall k :: 0 <= k < |ps| - 1 ==> ps[k + 1].hft == ps[k].hft + s
  }

  /** Climbing by at least `s` per step, point k is at least k steps above point 0. */
  lemma {:induction false} ClimbFloor(ps: seq<Point>, s: real, k: nat)
    requires ClimbsBy(ps, s) && k < |ps|
    ensures ps[k].hft >= ps[0].hft + k as real * s
  {
    if k > 0 {
      ClimbFloor(ps, s, k - 1);
      assert ps[k].hft >= ps[k - 1].hft + s;
      assert (k - 1) as real * s + s == k as real * s;
    }
  }

  /** Climbing by at least `s` per step, point k is at least |ps| - 1 - k
      steps below the last point. */
  lemma {:induction false} ClimbCeiling(ps: seq<Point>, s: real, k: nat)
    requires ClimbsBy(ps, s) && k < |ps|
    ensures ps[k].hft + (|ps| - 1 - k) as real * s <= Last(ps).hft
    decreases |ps| - k
  {
    if k < |ps| - 1 {
      ClimbCeiling(ps, s, k + 1);
      assert ps[k + 1].hft >= ps[k].hft + s;
      assert (|ps| - 1 - (k + 1)) as real * s + s == (|ps| - 1 - k) as real * s;
    }
  }

  /** Stepping by exactly `s`, point k is exactly k steps above point 0. */
  lemma {:induction false} StepsExact(ps: seq<Point>, s: real, k: nat)
    requires StepsBy(ps, s) && k < |ps|
    ensures ps[k].hft == ps[0].hft + k as real * s
  {
    if k > 0 {
      StepsExact(ps, s, k - 1);
      assert ps[k].hft == ps[k - 1].hft + s;
      assert (k - 1) as real * s + s == k as real * s;
    }
  }

  /** A segment that starts one step up, climbs at least a step per point
      and ends n steps up sits at exactly k + 1 steps at point k. */
  lemma PinnedSteps(ps: seq<Point>, s: real, k: nat)
    requires ClimbsBy(ps, s) && k < |ps|
    requires ps[0].hft == s && Last(ps).hft == |ps| as real * s
    ensures ps[k].hft == (k + 1) as real * s
  {
    ClimbFloor(ps, s, k);
    ClimbCeiling(ps, s, k);
    assert (k + 1) as real * s + (|ps| - 1 - k) as real * s == |ps| as real * s;
  }

  /** The climb-1 profile is forced: with step 10,000 ft / N1, the first
      altitude equal to the step, each step at least that and the last
      altitude 10,000 ft, point k sits at exactly (k + 1) * 10,000 / N1 ft. */
  lemma Climb1Forced(l: Layout, ms: MissionVars, k: nat)
    requires Shaped(l, ms) && AltitudeRelations(l, ms)
    requires k < l.n1
    ensures ms.climb1[k].hft == (k + 1) as real * CrossoverFt / l.n1 as real
  {
    var ps := ms.climb1;
    var s := ms.dhHold1;
    assert ClimbsBy(ps, s);
    assert ps[0].hft == s;
    assert s == CrossoverFt / l.n1 as real;
    StepTimesCount(l.n1, CrossoverFt);
    PinnedSteps(ps, s, k);
    ScaledStep(k + 1, l.n1, CrossoverFt);
  }

  /** n steps of d / n make d. */
  lemma StepTimesCount(n: nat, d: real)
    requires n > 0
    ensures n as real * (d / n as real) == d
  {
  }

  /** c steps of d / n make c * d / n. */
  lemma ScaledStep(c: nat, n: nat, d: real)
    requires n > 0
    ensures c as real * (d / n as real) == c as real * d / n as real
  {
  }

  /** With two climb-1 points the profile is 5,000 ft then 10,000 ft. */
  lemma Climb1TwoPoints(l: Layout, ms: MissionVars)
    requires Shaped(l, ms) && AltitudeRelations(l, ms) && l.n1 == 2
    ensures ms.climb1[0].hft == 5000.0 && ms.climb1[1].hft == 10000.0
  {
    Climb1Forced(l, ms, 0);
    Climb1Forced(l, ms, 1);
  }

  /** x <= d / n with n > 0 means n copies of x fit in d. */
  lemma ScaledBound(x: real, d: real, n: nat)
    requires n > 0 && x <= d / n as real
    ensures n as real * x <= d
  {
  }

  /** Climb-2 climbs at least its step per point up to the cruise altitude;
      N2 steps fit between the crossover and the cruise altitude; and its
      first point is at most one step above the crossover. */
  lemma Climb2Profile(l: Layout, ms: MissionVars, k: nat)
    requires Shaped(l, ms) && AltitudeRelations(l, ms) && Junction(l, ms)
    requires k < l.n2
    ensures Last(ms.climb2).hft == ms.cruiseAlt
    ensures ms.cruiseAlt >= CrossoverFt + l.n2 as real * ms.dhHold2
    ensures ms.climb2[0].hft + k as real * ms.dhHold2 <= ms.climb2[k].hft
    ensures ms.climb2[k].hft + (l.n2 - 1 - k) as real * ms.dhHold2 <= ms.cruiseAlt
    ensures ms.climb2[0].hft <= CrossoverFt + ms.dhHold2
  {
    var ps := ms.climb2;
    var s := ms.dhHold2;
    assert ClimbsBy(ps, s);
    ClimbFloor(ps, s, k);
    ClimbCeiling(ps, s, k);
    ScaledBound(s, ms.cruise[0].hft - CrossoverFt, l.n2);
  }

  /** With the junction as intended, cruise climbs by the cruise step from the
      declared cruise altitude: point k is at CruiseAlt + k * step. */
  lemma CruiseClimb(l: Layout, ms: MissionVars, k: nat)
    requires Shaped(l, ms) && AltitudeRelations(l, ms) && Junction(l, ms)
    requires k < l.n3
    ensures ms.cruise[k].hft == ms.cruiseAlt + k as real * ms.dhHoldCr
  {
    assert StepsBy(ms.cruise, ms.dhHoldCr);
    StepsExact(ms.cruise, ms.dhHoldCr, k);
  }

  /** Climbing by a non-negative step, altitudes never decrease. */
  lemma ClimbMonotone(ps: seq<Point>, s: real, j: nat, k: nat)
    requires ClimbsBy(ps, s) && s >= 0.0 && j <= k < |ps|
    ensures ps[j].hft <= ps[k].hft
  {
    var rest := ps[j..];
    assert ClimbsBy(rest, s) by {
      forall i | 0 <= i < |rest| - 1 ensures rest[i + 1].hft >= rest[i].hft + s {
        assert rest[i + 1] == ps[j + i + 1] && rest[i] == ps[j + i];
      }
    }
    ClimbFloor(rest, s, k - j);
    assert rest[k - j] == ps[k] && rest[0] == ps[j];
    assert 0.0 <= (k - j) as real * s;
  }

  /** With non-negative steps, altitudes never decrease within climb-2 and
      within cruise, and cruise never drops below climb-2's last point. */
  lemma ProfileNonDecreasing(l: Layout, ms: MissionVars, j: nat, k: nat)
    requires Shaped(l, ms) && AltitudeRelations(l, ms) && Junction(l, ms)
    requires ms.dhHold2 >= 0.0 && ms.dhHoldCr >= 0.0
    requires j <= k < l.n2 + l.n3
    ensures (ms.climb2 + ms.cruise)[j].hft <= (ms.climb2 + ms.cruise)[k].hft
  {
    var tail := ms.climb2 + ms.cruise;
    if k < l.n2 {
      assert tail[j] == ms.climb2[j] && tail[k] == ms.climb2[k];
      assert ClimbsBy(ms.climb2, ms.dhHold2);
      ClimbMonotone(ms.climb2, ms.dhHold2, j, k);
    } else if j >= l.n2 {
      assert tail[j] == ms.cruise[j - l.n2] && tail[k] == ms.cruise[k - l.n2];
      assert StepsBy(ms.cruise, ms.dhHoldCr);
      assert ClimbsBy(ms.cruise, ms.dhHoldCr);
      ClimbMonotone(ms.cruise, ms.dhHoldCr, j - l.n2, k - l.n2);
    } else {
      assert tail[j] == ms.climb2[j] && tail[k] == ms.cruise[k - l.n2];
      assert ClimbsBy(ms.climb2, ms.dhHold2);
      ClimbMonotone(ms.climb2, ms.dhHold2, j, l.n2 - 1);
      assert ClimbsBy(ms.cruise, ms.dhHoldCr);
      ClimbMonotone(ms.cruise, ms.dhHoldCr, 0, k - l.n2);
    }
  }

  /** As written, the junction ties every cruise altitude to climb-2's last
      altitude; with two or more cruise points the cruise step must be 0 and
      every cruise point sits at the declared cruise altitude. */
  lemma AsWrittenPinsCruise(l: Layout, ms: MissionVars)
    requires Shaped(l, ms) && AltitudeRelations(l, ms) && JunctionAsWritten(l, ms)
    requires l.n3 >= 2
    ensures ms.dhHoldCr == 0.0
    ensures forall k :: 0 <= k < l.n3 ==> ms.cruise[k].hft == ms.cruiseAlt
  {
    assert ms.cruise[1].hft == Last(ms.climb2).hft == ms.cruise[0].hft;
    assert ms.cruise[1].hft == ms.cruise[0].hft + ms.dhHoldCr;
  }

  /** Hence, as written, no mission with two or more cruise points is
      feasible: the geometric program needs a strictly positive cruise step
      (the source's own script builds Mission(2, 2, 3)). */
  lemma AsWrittenInfeasible(l: Layout, ms: MissionVars)
    requires l.n3 >= 2
    ensures !FeasibleAsWritten(l, ms)
  {
    if FeasibleAsWritten(l, ms) {
      AsWrittenPinsCruise(l, ms);
    }
  }

  /** The junction as written implies the junction as intended, so every
      consequence proved under `Junction` holds of the system as written. */
  lemma AsWrittenJunctionImpliesJunction(l: Layout, ms: MissionVars)
    requires Shaped(l, ms) && JunctionAsWritten(l, ms)
    ensures Junction(l, ms)
  {
    assert Last(ms.climb2).hft == ms.cruise[0].hft;
  }

  /** A mission feasible as written is feasible as intended. With two or
      more cruise points nothing is feasible as written (AsWrittenInfeasible),
      so this says something only for a single cruise point. */
  lemma AsWrittenImpliesFeasible(l: Layout, ms: MissionVars)
    requires FeasibleAsWritten(l, ms)
    ensures Feasible(l, ms)
  {
    AsWrittenJunctionImpliesJunction(l, ms);
  }
}
