/** What the weight chain and the fuel bookkeeping force on any feasible
    mission: weight is never created, the take-off weight covers the landing
    weight plus every burn, and the fuel and dry weights add up. */
module MissionWeights {
  import opened Partition
  import opened Mission

  lemma {:induction false} SumOfConcat(a: seq<Point>, b: seq<Point>, f: Point -> real)
    ensures SumOf(a + b, f) == SumOf(a, f) + SumOf(b, f)
  {
    if a != [] {
      assert (a + b)[1..] == a[1..] + b;
      SumOfConcat(a[1..], b, f);
    } else {
      assert a + b == b;
    }
  }

  /** Two chained segments joined at a continuous boundary form one chain. */
  lemma ChainJoin(a: seq<Point>, b: seq<Point>)
    requires Chained(a) && Chained(b) && a != [] && b != []
    requires Last(a).wEnd == b[0].wStart
    ensures Chained(a + b)
  {
    var ab := a + b;
    forall k | 0 <= k < |ab| - 1
      ensures ab[k + 1].wStart == ab[k].wEnd
    {
      if k + 1 < |a| {
        assert ab[k + 1] == a[k + 1] && ab[k] == a[k];
      } else if k + 1 == |a| {
        assert ab[k + 1] == b[0] && ab[k] == Last(a);
      } else {
        assert ab[k + 1] == b[k + 1 - |a|] && ab[k] == b[k - |a|];
      }
    }
  }

  /** Along a chain where no point creates weight, the first start weight
      covers the last end weight plus every burn. */
  lemma {:induction false} ChainCoversBurns(ps: seq<Point>)
    requires ps != [] && Chained(ps) && NoWeightCreated(ps)
    ensures ps[0].wStart >= Last(ps).wEnd + SumOf(ps, BurnOf)
  {
    if |ps| > 1 {
      var rest := ps[1..];
      assert Chained(rest) && NoWeightCreated(rest) by {
        forall k | 0 <= k < |rest| - 1 ensures rest[k + 1].wStart == rest[k].wEnd {
          assert rest[k + 1] == ps[k + 2] && rest[k] == ps[k + 1];
        }
        forall k | 0 <= k < |rest| ensures rest[k].wStart >= rest[k].wEnd + rest[k].wBurn {
          assert rest[k] == ps[k + 1];
        }
      }
      ChainCoversBurns(rest);
      assert Last(rest) == Last(ps);
      assert ps[1].wStart == ps[0].wEnd;
    } else {
      assert ps[1..] == [];
    }
  }

  /** With positive burns, start weights never increase along a chain. */
  lemma {:induction false} StartsNonIncreasing(ps: seq<Point>, j: nat, k: nat)
    requires Chained(ps) && NoWeightCreated(ps)
    requires forall i :: 0 <= i < |ps| ==> ps[i].wBurn >= 0.0
    requires j <= k < |ps|
    ensures ps[j].wStart >= ps[k].wStart
  {
    if j < k {
      StartsNonIncreasing(ps, j, k - 1);
      assert ps[k].wStart == ps[k - 1].wEnd;
      assert ps[k - 1].wStart >= ps[k - 1].wEnd + ps[k - 1].wBurn;
    }
  }

  /** Climb-1, climb-2 and cruise together form one weight chain in which no
      point creates weight. */
  lemma MissionIsOneChain(l: Layout, ms: MissionVars)
    requires Shaped(l, ms) && WeightRelations(ms)
    ensures Chained(AllPoints(ms)) && NoWeightCreated(AllPoints(ms))
    ensures AllPoints(ms)[0].wStart == ms.wTotal
    ensures Last(AllPoints(ms)) == Last(ms.cruise)
  {
    ChainJoin(ms.climb1, ms.climb2);
    assert Last(ms.climb1 + ms.climb2) == Last(ms.climb2);
    ChainJoin(ms.climb1 + ms.climb2, ms.cruise);
    var all := AllPoints(ms);
    forall k | 0 <= k < |all|
      ensures all[k].wStart >= all[k].wEnd + all[k].wBurn
    {
      if k < l.n1 {
        assert all[k] == ms.climb1[k];
      } else if k < l.n1 + l.n2 {
        assert all[k] == ms.climb2[k - l.n1];
      } else {
        assert all[k] == ms.cruise[k - l.n1 - l.n2];
      }
    }
  }

  /** Take-off weight covers the final cruise end weight plus every burn of
      the three phases. */
  lemma TotalWeightCoversBurns(l: Layout, ms: MissionVars)
    requires Shaped(l, ms) && WeightRelations(ms)
    ensures ms.wTotal >= Last(ms.cruise).wEnd + SumOf(AllPoints(ms), BurnOf)
    ensures SumOf(AllPoints(ms), BurnOf)
            == SumOf(ms.climb1, BurnOf) + SumOf(ms.climb2, BurnOf) + SumOf(ms.cruise, BurnOf)
  {
    MissionIsOneChain(l, ms);
    ChainCoversBurns(AllPoints(ms));
    SumOfConcat(ms.climb1, ms.climb2, BurnOf);
    SumOfConcat(ms.climb1 + ms.climb2, ms.cruise, BurnOf);
  }

  /** Each mission point is the climb-1, climb-2 or cruise point that owns
      its shared slot. */
  lemma PointAt(l: Layout, ms: MissionVars, j: nat)
    requires Shaped(l, ms) && j < l.Total()
    ensures AllPoints(ms)[j] == Segment(ms, Locate(l, j).0)[Locate(l, j).1]
  {
  }

  /** Every mission point meets its phase's per-point relations. */
  lemma PointFacts(l: Layout, ms: MissionVars, j: nat)
    requires Shaped(l, ms) && PointPhysics(ms) && Positive(ms) && j < l.Total()
    ensures AircraftP(AllPoints(ms)[j]) && PositivePoint(AllPoints(ms)[j])
    ensures j < l.n1 + l.n2 ==> ClimbP(AllPoints(ms)[j])
    ensures j >= l.n1 + l.n2 ==> CruiseP(AllPoints(ms)[j])
  {
    PointAt(l, ms, j);
  }

  /** Start weights never increase over the whole mission. */
  lemma MissionWeightNonIncreasing(l: Layout, ms: MissionVars, j: nat, k: nat)
    requires Shaped(l, ms) && WeightRelations(ms) && PointPhysics(ms) && Positive(ms)
    requires j <= k < l.Total()
    ensures AllPoints(ms)[j].wStart >= AllPoints(ms)[k].wStart
  {
    MissionIsOneChain(l, ms);
    var all := AllPoints(ms);
    forall i | 0 <= i < |all|
      ensures all[i].wBurn >= 0.0
    {
      PointFacts(l, ms, i);
    }
    StartsNonIncreasing(all, j, k);
  }

  /** Fuel bookkeeping: total fuel covers every burn, and take-off weight
      covers the dry weight plus every burn. */
  lemma FuelCoversBurns(l: Layout, ms: MissionVars)
    requires Shaped(l, ms) && WeightRelations(ms)
    ensures ms.wFTotal >= SumOf(AllPoints(ms), BurnOf)
    ensures ms.wTotal >= ms.wDry + SumOf(AllPoints(ms), BurnOf)
  {
    TotalWeightCoversBurns(l, ms);
  }

  /** Dry weight is at least empty weight + payload + engines + wing, which is
      1.75 * passengers * passenger weight + engines + wing; so take-off
      weight covers that plus every burn. */
  lemma DryWeightBuildUp(l: Layout, ms: MissionVars)
    requires Shaped(l, ms) && WeightRelations(ms) && AircraftGeometry(ms.ac)
    ensures ms.wDry >= 1.75 * ms.ac.nPax * ms.ac.wPax + ms.ac.numeng * ms.ac.wEngine + ms.ac.wWing
    ensures ms.wTotal >= 1.75 * ms.ac.nPax * ms.ac.wPax + ms.ac.numeng * ms.ac.wEngine
                         + ms.ac.wWing + SumOf(AllPoints(ms), BurnOf)
  {
    FuelCoversBurns(l, ms);
    DryFloor(ms.ac, ms.wDry);
  }

  /** Empty weight plus payload is 1.75 times the passenger payload. */
  lemma DryFloor(ac: Aircraft, wDry: real)
    requires AircraftGeometry(ac)
    requires ac.wE + ac.wPayload + ac.numeng * ac.wEngine + ac.wWing <= wDry
    ensures wDry >= 1.75 * ac.nPax * ac.wPax + ac.numeng * ac.wEngine + ac.wWing
  {
  }

  /** A geometric mean of two ordered positive weights lies between them. */
  lemma GeometricMeanBetween(avg: real, hi: real, lo: real)
    requires 0.0 < lo <= hi && avg > 0.0 && avg * avg == hi * lo
    ensures lo <= avg <= hi
  {
  }

  /** At a point that burns fuel, lift equals the average weight, which lies
      between the end and start weights. */
  lemma PointLiftBetween(p: Point)
    requires AircraftP(p) && PositivePoint(p) && p.wStart >= p.wEnd + p.wBurn
    ensures p.wEnd <= p.lWing <= p.wStart
  {
    GeometricMeanBetween(p.wAvg, p.wStart, p.wEnd);
  }

  /** At every mission point the average weight, and so the lift, lies
      between the point's end and start weights. */
  lemma LiftBetweenEndAndStart(l: Layout, ms: MissionVars, j: nat)
    requires Shaped(l, ms) && WeightRelations(ms) && PointPhysics(ms) && Positive(ms)
    requires j < l.Total()
    ensures AllPoints(ms)[j].wEnd <= AllPoints(ms)[j].lWing <= AllPoints(ms)[j].wStart
  {
    PointFacts(l, ms, j);
    MissionIsOneChain(l, ms);
    var p := AllPoints(ms)[j];
    assert p.wStart >= p.wEnd + p.wBurn;
    PointLiftBetween(p);
  }
}
