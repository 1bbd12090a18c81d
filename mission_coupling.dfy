/** How the mission couples the engine to the aircraft: the engine arrays are
    sliced with the same partition the state linking uses, so every shared
    slot's thrust, fuel flow and inlet Mach number belong to the mission point
    that owns that slot. Also: range closure over the whole mission and the
    climb-only rate-of-climb floor. */
module MissionCoupling {
  import opened Partition
  import opened Mission
  import MissionWeights

  /** The mission points, sliced like an engine array, give back each
      segment: AllPoints and the engine arrays share one partition. */
  lemma PointsSliceLikeEngine(l: Layout, ms: MissionVars, p: Phase)
    requires Shaped(l, ms)
    ensures |AllPoints(ms)| == l.Total()
    ensures Slice(l, AllPoints(ms), p) == Segment(ms, p)
  {
    SliceOfJoin(l, ms.climb1, ms.climb2, ms.cruise);
  }

  /** The engine relations of phase `p`, read at slot j, the shared slot of
      the phase's i-th point. */
  lemma EngineAtPhase(l: Layout, ms: MissionVars, p: Phase, i: nat, j: nat)
    requires Shaped(l, ms) && EngineCoupled(l, ms, p) && i < l.Count(p)
    requires j == SharedIndex(l, p, i)
    ensures EngineP(ms.ac.numeng, ms.eng.tsfc[j], ms.eng.f[j], ms.eng.fSpec[j], ms.eng.m2[j], Segment(ms, p)[i])
  {
    assert |Segment(ms, p)| == l.Count(p);
    assert Slice(l, ms.eng.tsfc, p)[i] == ms.eng.tsfc[j];
    assert Slice(l, ms.eng.f, p)[i] == ms.eng.f[j];
    assert Slice(l, ms.eng.fSpec, p)[i] == ms.eng.fSpec[j];
    assert Slice(l, ms.eng.m2, p)[i] == ms.eng.m2[j];
  }

  /** Every mission point meets the engine relations at its own shared slot,
      whichever phase owns it. */
  lemma EngineAtSlot(l: Layout, ms: MissionVars, j: nat)
    requires Shaped(l, ms)
    requires EngineCoupled(l, ms, Climb1) && EngineCoupled(l, ms, Climb2) && EngineCoupled(l, ms, Cruise)
    requires j < l.Total()
    ensures EngineP(ms.ac.numeng, ms.eng.tsfc[j], ms.eng.f[j], ms.eng.fSpec[j], ms.eng.m2[j], AllPoints(ms)[j])
  {
    var (p, i) := Locate(l, j);
    MissionWeights.PointAt(l, ms, j);
    EngineAtPhase(l, ms, p, i, j);
  }

  /** The engine's inlet Mach array is the mission's Mach numbers in shared
      order. */
  lemma InletMachIsMissionMach(l: Layout, ms: MissionVars)
    requires Shaped(l, ms) && EngineCoupled(l, ms, Climb1) && EngineCoupled(l, ms, Climb2) && EngineCoupled(l, ms, Cruise)
    ensures |ms.eng.m2| == |AllPoints(ms)|
    ensures forall j :: 0 <= j < l.Total() ==> ms.eng.m2[j] == AllPoints(ms)[j].mach
  {
    forall j | 0 <= j < l.Total()
      ensures ms.eng.m2[j] == AllPoints(ms)[j].mach
    {
      EngineAtSlot(l, ms, j);
    }
  }

  /** Thrust balance at every shared slot: the installed thrust covers wing
      plus fuselage drag plus the climb-angle component of the weight. */
  lemma ThrustCoversDrag(l: Layout, ms: MissionVars, j: nat)
    requires Shaped(l, ms) && PointPhysics(ms) && Positive(ms) && j < l.Total()
    requires EngineCoupled(l, ms, Climb1) && EngineCoupled(l, ms, Climb2) && EngineCoupled(l, ms, Cruise)
    ensures ms.ac.numeng * ms.eng.fSpec[j]
            >= AllPoints(ms)[j].dWing + AllPoints(ms)[j].dFuse + AllPoints(ms)[j].wAvg * AllPoints(ms)[j].theta
  {
    EngineAtSlot(l, ms, j);
    MissionWeights.PointFacts(l, ms, j);
  }

  /** At every shared slot the installed thrust strictly exceeds the total
      drag D: the climb-angle term W_avg * theta is positive. */
  lemma ThrustExceedsDrag(l: Layout, ms: MissionVars, j: nat)
    requires Shaped(l, ms) && PointPhysics(ms) && Positive(ms) && j < l.Total()
    requires EngineCoupled(l, ms, Climb1) && EngineCoupled(l, ms, Climb2) && EngineCoupled(l, ms, Cruise)
    ensures ms.ac.numeng * ms.eng.fSpec[j] > AllPoints(ms)[j].d
  {
    EngineAtSlot(l, ms, j);
    MissionWeights.PointFacts(l, ms, j);
    var q := AllPoints(ms)[j];
    PositiveProduct(q.wAvg, q.theta);
  }

  lemma PositiveProduct(x: real, y: real)
    requires x > 0.0 && y > 0.0
    ensures x * y > 0.0
  {
  }

  /** The fuel burned over the whole mission, computed from the engine arrays
      at every shared slot. */
  function EngineBurn(numeng: real, tsfc: seq<real>, f: seq<real>, ps: seq<Point>): real
    requires |tsfc| == |f| == |ps|
  {
    if ps == [] then 0.0
    else numeng * tsfc[0] * ps[0].thr * f[0] + EngineBurn(numeng, tsfc[1..], f[1..], ps[1..])
  }

  lemma {:induction false} EngineBurnIsBurn(numeng: real, eng: Engine, ps: seq<Point>)
    requires |eng.tsfc| == |eng.f| == |eng.fSpec| == |eng.m2| == |ps|
    requires forall j :: 0 <= j < |ps| ==> EngineP(numeng, eng.tsfc[j], eng.f[j], eng.fSpec[j], eng.m2[j], ps[j])
    ensures EngineBurn(numeng, eng.tsfc, eng.f, ps) == SumOf(ps, BurnOf)
    decreases |ps|
  {
    if ps != [] {
      var rest := Engine(eng.tsfc[1..], eng.f[1..], eng.fSpec[1..], eng.m2[1..]);
      assert EngineP(numeng, eng.tsfc[0], eng.f[0], eng.fSpec[0], eng.m2[0], ps[0]);
      EngineBurnIsBurn(numeng, rest, ps[1..]);
    }
  }

  /** Every mission point meets the engine relations at its shared slot. */
  lemma EngineEverywhere(l: Layout, ms: MissionVars)
    requires Shaped(l, ms)
    requires EngineCoupled(l, ms, Climb1) && EngineCoupled(l, ms, Climb2) && EngineCoupled(l, ms, Cruise)
    ensures forall j :: 0 <= j < |AllPoints(ms)| ==>
      EngineP(ms.ac.numeng, ms.eng.tsfc[j], ms.eng.f[j], ms.eng.fSpec[j], ms.eng.m2[j], AllPoints(ms)[j])
  {
    forall j | 0 <= j < |AllPoints(ms)|
      ensures EngineP(ms.ac.numeng, ms.eng.tsfc[j], ms.eng.f[j], ms.eng.fSpec[j], ms.eng.m2[j], AllPoints(ms)[j])
    {
      EngineAtSlot(l, ms, j);
    }
  }

  /** The burns of all mission points add up to the fuel the engine arrays
      say is burned. */
  lemma EngineBurnIsMissionBurn(l: Layout, ms: MissionVars)
    requires Shaped(l, ms)
    requires EngineCoupled(l, ms, Climb1) && EngineCoupled(l, ms, Climb2) && EngineCoupled(l, ms, Cruise)
    ensures |ms.eng.tsfc| == |ms.eng.f| == |AllPoints(ms)|
    ensures EngineBurn(ms.ac.numeng, ms.eng.tsfc, ms.eng.f, AllPoints(ms)) == SumOf(AllPoints(ms), BurnOf)
  {
    EngineEverywhere(l, ms);
    EngineBurnIsBurn(ms.ac.numeng, ms.eng, AllPoints(ms));
  }

  /** The total fuel weight covers the fuel the engine burns over all mission
      points: numeng * TSFC * hours * F summed over the shared vector. */
  lemma FuelCoversEngineBurn(l: Layout, ms: MissionVars)
    requires Shaped(l, ms) && WeightRelations(ms)
    requires EngineCoupled(l, ms, Climb1) && EngineCoupled(l, ms, Climb2) && EngineCoupled(l, ms, Cruise)
    ensures |ms.eng.tsfc| == |ms.eng.f| == |AllPoints(ms)|
    ensures ms.wFTotal >= EngineBurn(ms.ac.numeng, ms.eng.tsfc, ms.eng.f, AllPoints(ms))
  {
    EngineBurnIsMissionBurn(l, ms);
    MissionWeights.FuelCoversBurns(l, ms);
  }

  function FlownOf(p: Point): real { p.thr * p.v }

  lemma {:induction false} RangeIsFlown(ps: seq<Point>)
    requires forall j :: 0 <= j < |ps| ==> RangeOf(ps[j]) == FlownOf(ps[j])
    ensures SumOf(ps, RangeOf) == SumOf(ps, FlownOf)
  {
    if ps != [] {
      RangeIsFlown(ps[1..]);
    }
  }

  /** At every point, climb or cruise, the range flown is hours times speed. */
  lemma EveryPointFlies(l: Layout, ms: MissionVars)
    requires Shaped(l, ms) && PointPhysics(ms) && Positive(ms)
    ensures forall j :: 0 <= j < |AllPoints(ms)| ==> RangeOf(AllPoints(ms)[j]) == FlownOf(AllPoints(ms)[j])
  {
    forall j | 0 <= j < |AllPoints(ms)|
      ensures RangeOf(AllPoints(ms)[j]) == FlownOf(AllPoints(ms)[j])
    {
      MissionWeights.PointFacts(l, ms, j);
    }
  }

  /** Range closure over the whole mission: the hours flown at each point
      times its speed, summed over all points, cover the required range. */
  lemma RangeClosed(l: Layout, ms: MissionVars)
    requires Shaped(l, ms) && PointPhysics(ms) && Positive(ms) && RangeClosure(ms)
    ensures SumOf(AllPoints(ms), FlownOf) >= ms.reqRng
  {
    EveryPointFlies(l, ms);
    RangeIsFlown(AllPoints(ms));
    MissionWeights.SumOfConcat(ms.climb1, ms.climb2, RangeOf);
    MissionWeights.SumOfConcat(ms.climb1 + ms.climb2, ms.cruise, RangeOf);
  }

  /** Every climb point, and only the climb points, must climb at 500 ft/min
      or more; every point flies at or above the 120 kt stall speed. */
  lemma ClimbRateFloor(l: Layout, ms: MissionVars, j: nat)
    requires Shaped(l, ms) && PointPhysics(ms) && Positive(ms) && j < l.Total()
    ensures j < l.n1 + l.n2 ==> AllPoints(ms)[j].rc >= MinClimbRate
    ensures AllPoints(ms)[j].v >= StallSpeed
  {
    MissionWeights.PointFacts(l, ms, j);
  }

  /** Cruise has no rate-of-climb floor: a cruise point climbing at
      250 ft/min, with the altitude step that rate gives, stays a valid
      positive cruise point and would fail the climb relations. */
  lemma CruiseMayClimbSlowly(p: Point)
    requires CruiseP(p) && PositivePoint(p)
    ensures var q := p.(rc := 250.0, dhft := MinutesPerHour * p.thr * 250.0);
      CruiseP(q) && PositivePoint(q) && !ClimbP(q)
  {
  }

  /** A climb point's flight time is at most its altitude step flown at the
      500 ft/min floor: minutes * 500 <= dhft. */
  lemma ClimbTimeBound(p: Point)
    requires ClimbP(p) && PositivePoint(p)
    ensures MinutesPerHour * p.thr * MinClimbRate <= p.dhft
  {
    ScaleAtLeast(MinutesPerHour * p.thr, p.rc, MinClimbRate);
  }

  lemma ScaleAtLeast(x: real, y: real, floor: real)
    requires x > 0.0 && y >= floor
    ensures x * floor <= x * y
  {
  }
}
