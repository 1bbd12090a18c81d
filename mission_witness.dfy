/** A concrete feasible mission on the script's own layout, Mission(2, 2, 3):
    every relation of `Feasible` holds, so the modelled relations with the
    intended climb-2 / cruise junction have solutions, while the set as
    written has none (MissionAltitude.AsWrittenInfeasible). Relations that
    `Feasible` leaves out, such as theta * V = RC, are not claimed of it. */
module MissionWitness {
  import opened Partition
  import opened Mission
  import MissionAltitude

  /** Mission point k of the witness: start weight (20 - k)^2 and end weight
      (19 - k)^2, so consecutive points chain and W_avg = (20 - k)(19 - k)
      is their exact geometric mean; one unit of fuel over ten minutes at
      240 kt; altitude h and altitude step dh, climbed at dh / 10 ft/min. */
  function WitnessPoint(k: nat, h: real, dh: real): Point
  {
    var a := 20.0 - k as real;
    var b := a - 1.0;
    Point(a * a, b * b, 1.0, a * b, h, dh, 1.0 / 6.0, 240.0, StallSpeed, 40.0,
          dh / 10.0, 0.01, 2.0, 1.0, 1.0, a * b, 0.8)
  }

  /** Each witness point is a valid positive cruise point that does not
      create weight and meets the engine relations with TSFC 6, F 1,
      F_spec 100 and M_2 0.8; with a step of at least 5,000 ft it climbs at
      500 ft/min or more and is a valid climb point too. */
  lemma WitnessPointValid(k: nat, h: real, dh: real)
    requires k <= 6 && h > 0.0 && dh > 0.0
    ensures CruiseP(WitnessPoint(k, h, dh)) && PositivePoint(WitnessPoint(k, h, dh))
    ensures dh >= 5000.0 ==> ClimbP(WitnessPoint(k, h, dh))
    ensures WitnessPoint(k, h, dh).wStart >= WitnessPoint(k, h, dh).wEnd + WitnessPoint(k, h, dh).wBurn
    ensures EngineP(1.0, 6.0, 1.0, 100.0, 0.8, WitnessPoint(k, h, dh))
  {
    // each case is plain arithmetic on constants
    if k == 0 {} else if k == 1 {} else if k == 2 {} else if k == 3 {}
    else if k == 4 {} else if k == 5 {} else {}
  }

  /** Consecutive witness points chain: point k ends at point k + 1's start. */
  lemma WitnessChains(k: nat, h: real, dh: real, h': real, dh': real)
    ensures WitnessPoint(k, h, dh).wEnd == WitnessPoint(k + 1, h', dh').wStart
  {
  }

  function Witness(climb2Start: real): MissionVars
  {
    MissionVars(
      Aircraft(1.0, 1.0, 1.0, 1.0, 10.0, 10.0, 7.5, 2.0, 2.0, 1.0, 4.0, 2.0, 3.0),
      Engine(seq(7, _ => 6.0), seq(7, _ => 1.0), seq(7, _ => 100.0), seq(7, _ => 0.8)),
      [WitnessPoint(0, 5000.0, 5000.0), WitnessPoint(1, 10000.0, 5000.0)],
      [WitnessPoint(2, climb2Start, 10000.0), WitnessPoint(3, 30000.0, 10000.0)],
      [WitnessPoint(4, 30000.0, 100.0), WitnessPoint(5, 30100.0, 100.0), WitnessPoint(6, 30200.0, 100.0)],
      400.0, 100.0, 7.0, 2.0, 2.0, 3.0,
      30000.0, 200.0,
      5000.0, 10000.0, 100.0)
  }

  lemma {:induction false} SumOfConstant(ps: seq<Point>, f: Point -> real, c: real)
    requires forall i :: 0 <= i < |ps| ==> f(ps[i]) == c
    ensures SumOf(ps, f) == |ps| as real * c
  {
    if ps != [] {
      SumOfConstant(ps[1..], f, c);
    }
  }

  /** The points of each phase of the witness are valid and chained. */
  lemma WitnessClimb1(climb2Start: real)
    ensures forall i :: 0 <= i < 2 ==> ClimbP(Witness(climb2Start).climb1[i]) && PositivePoint(Witness(climb2Start).climb1[i])
    ensures NoWeightCreated(Witness(climb2Start).climb1) && Chained(Witness(climb2Start).climb1)
  {
    var ps := Witness(climb2Start).climb1;
    assert ps == [WitnessPoint(0, 5000.0, 5000.0), WitnessPoint(1, 10000.0, 5000.0)];
    WitnessPointValid(0, 5000.0, 5000.0);
    WitnessPointValid(1, 10000.0, 5000.0);
    WitnessChains(0, 5000.0, 5000.0, 10000.0, 5000.0);
  }

  lemma WitnessClimb2(climb2Start: real)
    requires 0.0 < climb2Start
    ensures forall i :: 0 <= i < 2 ==> ClimbP(Witness(climb2Start).climb2[i]) && PositivePoint(Witness(climb2Start).climb2[i])
    ensures NoWeightCreated(Witness(climb2Start).climb2) && Chained(Witness(climb2Start).climb2)
  {
    var ps := Witness(climb2Start).climb2;
    assert ps == [WitnessPoint(2, climb2Start, 10000.0), WitnessPoint(3, 30000.0, 10000.0)];
    WitnessPointValid(2, climb2Start, 10000.0);
    WitnessPointValid(3, 30000.0, 10000.0);
    WitnessChains(2, climb2Start, 10000.0, 30000.0, 10000.0);
  }

  lemma WitnessCruise(climb2Start: real)
    ensures forall i :: 0 <= i < 3 ==> CruiseP(Witness(climb2Start).cruise[i]) && PositivePoint(Witness(climb2Start).cruise[i])
    ensures NoWeightCreated(Witness(climb2Start).cruise) && Chained(Witness(climb2Start).cruise)
  {
    var ps := Witness(climb2Start).cruise;
    assert ps == [WitnessPoint(4, 30000.0, 100.0), WitnessPoint(5, 30100.0, 100.0), WitnessPoint(6, 30200.0, 100.0)];
    forall i | 0 <= i < 3
      ensures CruiseP(ps[i]) && PositivePoint(ps[i]) && ps[i].wStart >= ps[i].wEnd + ps[i].wBurn
    {
      if i == 0 { WitnessPointValid(4, 30000.0, 100.0); }
      else if i == 1 { WitnessPointValid(5, 30100.0, 100.0); }
      else { WitnessPointValid(6, 30200.0, 100.0); }
    }
    WitnessChains(4, 30000.0, 100.0, 30100.0, 100.0);
    WitnessChains(5, 30100.0, 100.0, 30200.0, 100.0);
  }

  /** The points of the witness are valid, positive and chained. */
  lemma WitnessPoints(climb2Start: real)
    requires 0.0 < climb2Start
    ensures Shaped(Layout(2, 2, 3), Witness(climb2Start))
    ensures PointPhysics(Witness(climb2Start))
    ensures forall i :: 0 <= i < 2 ==> PositivePoint(Witness(climb2Start).climb1[i])
    ensures forall i :: 0 <= i < 2 ==> PositivePoint(Witness(climb2Start).climb2[i])
    ensures forall i :: 0 <= i < 3 ==> PositivePoint(Witness(climb2Start).cruise[i])
    ensures NoWeightCreated(Witness(climb2Start).climb1)
    ensures NoWeightCreated(Witness(climb2Start).climb2)
    ensures NoWeightCreated(Witness(climb2Start).cruise)
    ensures Chained(Witness(climb2Start).climb1)
    ensures Chained(Witness(climb2Start).climb2)
    ensures Chained(Witness(climb2Start).cruise)
  {
    WitnessClimb1(climb2Start);
    WitnessClimb2(climb2Start);
    WitnessCruise(climb2Start);
  }

  /** The witness meets the weight and fuel bookkeeping. */
  lemma WitnessWeights(climb2Start: real)
    requires 0.0 < climb2Start <= 20000.0
    ensures Shaped(Layout(2, 2, 3), Witness(climb2Start))
    ensures WeightRelations(Witness(climb2Start))
    ensures RangeClosure(Witness(climb2Start))
  {
    var ms := Witness(climb2Start);
    WitnessPoints(climb2Start);
    WitnessChains(1, 10000.0, 5000.0, climb2Start, 10000.0);
    WitnessChains(3, 30000.0, 10000.0, 30000.0, 100.0);
    SumOfConstant(ms.climb1, BurnOf, 1.0);
    SumOfConstant(ms.climb2, BurnOf, 1.0);
    SumOfConstant(ms.cruise, BurnOf, 1.0);
    SumOfConstant(ms.climb1, RangeOf, 40.0);
    SumOfConstant(ms.climb2, RangeOf, 40.0);
    SumOfConstant(ms.cruise, RangeOf, 40.0);
    assert Last(ms.cruise).wEnd == 169.0;
  }

  /** The witness meets every altitude relation and the intended junction. */
  lemma WitnessAltitude(climb2Start: real)
    requires 0.0 < climb2Start <= 20000.0
    ensures Shaped(Layout(2, 2, 3), Witness(climb2Start))
    ensures AltitudeRelations(Layout(2, 2, 3), Witness(climb2Start))
    ensures Junction(Layout(2, 2, 3), Witness(climb2Start))
  {
    var l := Layout(2, 2, 3);
    var ms := Witness(climb2Start);
    assert Shaped(l, ms);
    assert ms.cruise[1].hft == ms.cruise[0].hft + ms.dhHoldCr;
    assert ms.cruise[2].hft == ms.cruise[1].hft + ms.dhHoldCr;
    forall j | 0 <= j < l.n3
      ensures ms.dhHold2 <= (ms.cruise[j].hft - CrossoverFt) / l.n2 as real
    {
      assert ms.cruise[j].hft >= 30000.0;
    }
    assert ms.dhHold1 == CrossoverFt / l.n1 as real;
  }

  /** Every phase of the witness meets the engine relations at its slots. */
  lemma WitnessEngine(climb2Start: real, p: Phase)
    requires 0.0 < climb2Start <= 20000.0
    ensures Shaped(Layout(2, 2, 3), Witness(climb2Start))
    ensures EngineCoupled(Layout(2, 2, 3), Witness(climb2Start), p)
    ensures PositiveEngine(Witness(climb2Start).eng)
  {
    var l := Layout(2, 2, 3);
    var ms := Witness(climb2Start);
    WitnessPoints(climb2Start);
    var seg := Segment(ms, p);
    forall i | 0 <= i < |seg|
      ensures EngineP(ms.ac.numeng, Slice(l, ms.eng.tsfc, p)[i], Slice(l, ms.eng.f, p)[i],
                      Slice(l, ms.eng.fSpec, p)[i], Slice(l, ms.eng.m2, p)[i], seg[i])
    {
      var j := SharedIndex(l, p, i);
      assert Slice(l, ms.eng.tsfc, p)[i] == ms.eng.tsfc[j] == 6.0;
      assert Slice(l, ms.eng.f, p)[i] == ms.eng.f[j] == 1.0;
      assert Slice(l, ms.eng.fSpec, p)[i] == ms.eng.fSpec[j] == 100.0;
      assert Slice(l, ms.eng.m2, p)[i] == ms.eng.m2[j] == 0.8;
      WitnessPointEngine(climb2Start, p, i);
    }
  }

  lemma WitnessPointEngine(climb2Start: real, p: Phase, i: nat)
    requires 0.0 < climb2Start <= 20000.0 && i < Layout(2, 2, 3).Count(p)
    ensures i < |Segment(Witness(climb2Start), p)|
    ensures EngineP(1.0, 6.0, 1.0, 100.0, 0.8, Segment(Witness(climb2Start), p)[i])
  {
    var ms := Witness(climb2Start);
    match p
    case Climb1 =>
      if i == 0 { WitnessPointValid(0, 5000.0, 5000.0); } else { WitnessPointValid(1, 10000.0, 5000.0); }
    case Climb2 =>
      if i == 0 { WitnessPointValid(2, climb2Start, 10000.0); } else { WitnessPointValid(3, 30000.0, 10000.0); }
    case Cruise =>
      if i == 0 { WitnessPointValid(4, 30000.0, 100.0); }
      else if i == 1 { WitnessPointValid(5, 30100.0, 100.0); }
      else { WitnessPointValid(6, 30200.0, 100.0); }
  }

  /** The witness is feasible for every climb-2 start up to one climb-2 step
      above the crossover. */
  lemma WitnessFeasible(climb2Start: real)
    requires 0.0 < climb2Start <= 20000.0
    ensures Feasible(Layout(2, 2, 3), Witness(climb2Start))
    ensures Witness(climb2Start).dhHoldCr == 100.0
    ensures Witness(climb2Start).cruise[2].hft == Witness(climb2Start).cruise[0].hft + 200.0
    ensures Witness(climb2Start).climb2[0].hft == climb2Start
    ensures Last(Witness(climb2Start).climb1).hft == CrossoverFt
  {
    var l := Layout(2, 2, 3);
    var ms := Witness(climb2Start);
    WitnessPoints(climb2Start);
    WitnessWeights(climb2Start);
    WitnessAltitude(climb2Start);
    WitnessEngine(climb2Start, Climb1);
    WitnessEngine(climb2Start, Climb2);
    WitnessEngine(climb2Start, Cruise);
    assert Positive(ms);
  }

  /** With the junction as intended, the script's Mission(2, 2, 3) has a
      solution whose cruise climbs with a positive step; the same values, and
      any others, violate the constraint set as written. */
  lemma CruiseClimbPossible() returns (l: Layout, ms: MissionVars)
    ensures l == Layout(2, 2, 3) && Feasible(l, ms)
    ensures ms.dhHoldCr > 0.0 && ms.cruise[2].hft > ms.cruise[0].hft
    ensures !FeasibleAsWritten(l, ms)
  {
    l := Layout(2, 2, 3);
    ms := Witness(20000.0);
    WitnessFeasible(20000.0);
    MissionAltitude.AsWrittenInfeasible(l, ms);
  }

  /** Nothing ties climb 2's first altitude to climb 1's last: a feasible
      mission may start climb 2 below the 10,000 ft crossover. */
  lemma Climb2MayStartBelowCrossover() returns (l: Layout, ms: MissionVars)
    ensures l == Layout(2, 2, 3) && Feasible(l, ms)
    ensures ms.climb2[0].hft < Last(ms.climb1).hft
  {
    l := Layout(2, 2, 3);
    ms := Witness(5000.0);
    WitnessFeasible(5000.0);
  }
}
