/** The mission constraint system as a feasibility predicate: given a value
    for every variable of the climb-1, climb-2 and cruise segments, the
    aircraft and the engine's per-point arrays, `Feasible` says whether all
    the relations the Mission model declares hold. Quantities use one fixed
    unit each: weights, drags and thrusts in N, altitudes in ft, times in
    hours, speeds in knots, ranges in nautical miles, climb rates in ft/min. */
module Mission {
  import opened Partition

  /** The values of one mission point: its flight state, its AircraftP and
      ClimbP/CruiseP variables and its segment weights. */
  datatype Point = Point(
    wStart: real, wEnd: real, wBurn: real, wAvg: real,
    hft: real, dhft: real, thr: real,
    v: real, vStall: real, rng: real, rc: real, theta: real,
    d: real, dWing: real, dFuse: real, lWing: real, mach: real)

  /** Aircraft-level variables: engine count and weight, wing weight and
      geometry, and the fuselage's payload and empty-weight build-up. */
  datatype Aircraft = Aircraft(
    numeng: real, wEngine: real, wWing: real,
    nPax: real, wPax: real, wPayload: real, wE: real,
    aFuse: real, paxArea: real,
    s: real, ar: real, span: real, spanMax: real)

  /** The engine's per-point outputs over the shared mission vector. */
  datatype Engine = Engine(tsfc: seq<real>, f: seq<real>, fSpec: seq<real>, m2: seq<real>)

  /** Every variable the Mission constraint set mentions. */
  datatype MissionVars = MissionVars(
    ac: Aircraft, eng: Engine,
    climb1: seq<Point>, climb2: seq<Point>, cruise: seq<Point>,
    wTotal: real, wDry: real, wFTotal: real,
    wFClimb1: real, wFClimb2: real, wFCruise: real,
    cruiseAlt: real, reqRng: real,
    dhHold1: real, dhHold2: real, dhHoldCr: real)

  /** Altitude of the climb-1 / climb-2 crossover, ft. */
  const CrossoverFt: real := 10000.0
  /** Fixed stall speed, knots. */
  const StallSpeed: real := 120.0
  /** Rate-of-climb floor of every climb point, ft/min. */
  const MinClimbRate: real := 500.0
  /** Empty weight as a fraction of payload weight. */
  const EmptyWeightFraction: real := 0.75
  /** Structural cap on the wing aspect ratio. */
  const MaxAspectRatio: real := 10.0
  /** `tmin == thr` equates a time in minutes with the same time in hours. */
  const MinutesPerHour: real := 60.0

  function Segment(ms: MissionVars, p: Phase): seq<Point>
  {
    match p
    case Climb1 => ms.climb1
    case Climb2 => ms.climb2
    case Cruise => ms.cruise
  }

  /** All mission points in shared-vector order. */
  function AllPoints(ms: MissionVars): seq<Point>
  {
    ms.climb1 + ms.climb2 + ms.cruise
  }

  function Last(ps: seq<Point>): Point
    requires ps != []
  {
    ps[|ps| - 1]
  }

  /** Segment lengths match the layout, every phase has a point, and every
      engine array covers the whole mission. */
  predicate Shaped(l: Layout, ms: MissionVars)
  {
    && |ms.climb1| == l.n1 > 0
    && |ms.climb2| == l.n2 > 0
    && |ms.cruise| == l.n3 > 0
    && |ms.eng.tsfc| == l.Total() && |ms.eng.f| == l.Total()
    && |ms.eng.fSpec| == l.Total() && |ms.eng.m2| == l.Total()
  }

  function BurnOf(p: Point): real { p.wBurn }
  function RangeOf(p: Point): real { p.rng }

  /** Sum of `f` over the points, as Python's `sum` over a vector variable. */
  function SumOf(ps: seq<Point>, f: Point -> real): real
  {
    if ps == [] then 0.0 else f(ps[0]) + SumOf(ps[1..], f)
  }

  // ---- per-point physics (AircraftP, ClimbP, CruiseP) ----

  /** Polynomial AircraftP relations: stall-speed floor, drag at least wing
      plus fuselage drag, average weight the geometric mean of start and end
      weight, and lift equal to that average weight. */
  predicate AircraftP(p: Point)
  {
    && p.v >= p.vStall && p.vStall == StallSpeed
    && p.d >= p.dWing + p.dFuse
    && p.wAvg * p.wAvg == p.wStart * p.wEnd
    && p.lWing == p.wAvg
  }

  /** ClimbP: the rate-of-climb floor, altitude gained = flight minutes *
      climb rate, and range = flight hours * speed. */
  predicate ClimbP(p: Point)
  {
    && AircraftP(p) && p.rc >= MinClimbRate
    && p.dhft == MinutesPerHour * p.thr * p.rc
    && p.rng == p.thr * p.v
  }

  /** CruiseP: as ClimbP without a rate-of-climb floor. */
  predicate CruiseP(p: Point)
  {
    && AircraftP(p)
    && p.dhft == MinutesPerHour * p.thr * p.rc
    && p.rng == p.thr * p.v
  }

  predicate PointPhysics(ms: MissionVars)
  {
    && (forall i :: 0 <= i < |ms.climb1| ==> ClimbP(ms.climb1[i]))
    && (forall i :: 0 <= i < |ms.climb2| ==> ClimbP(ms.climb2[i]))
    && (forall i :: 0 <= i < |ms.cruise| ==> CruiseP(ms.cruise[i]))
  }

  /** Fuselage: area = area per passenger * passengers, payload =
      passengers * passenger weight, empty weight = 0.75 * payload. Wing:
      AR = b^2 / S at most 10, span at most the maximum span. */
  predicate AircraftGeometry(ac: Aircraft)
  {
    && ac.aFuse == ac.paxArea * ac.nPax
    && ac.wPayload == ac.nPax * ac.wPax
    && ac.wE == EmptyWeightFraction * ac.wPayload
    && ac.ar * ac.s == ac.span * ac.span
    && ac.ar <= MaxAspectRatio
    && ac.span <= ac.spanMax
  }

  /** Geometric-programming variables are strictly positive: every variable
      of a mission point. */
  predicate PositivePoint(p: Point)
  {
    && p.wStart > 0.0 && p.wEnd > 0.0 && p.wBurn > 0.0 && p.wAvg > 0.0
    && p.hft > 0.0 && p.dhft > 0.0 && p.thr > 0.0
    && p.v > 0.0 && p.vStall > 0.0 && p.rng > 0.0 && p.rc > 0.0 && p.theta > 0.0
    && p.d > 0.0 && p.dWing > 0.0 && p.dFuse > 0.0 && p.lWing > 0.0 && p.mach > 0.0
  }

  /** Every aircraft variable is strictly positive. */
  predicate PositiveAircraft(ac: Aircraft)
  {
    && ac.numeng > 0.0 && ac.wEngine > 0.0 && ac.wWing > 0.0
    && ac.nPax > 0.0 && ac.wPax > 0.0 && ac.wPayload > 0.0 && ac.wE > 0.0
    && ac.aFuse > 0.0 && ac.paxArea > 0.0
    && ac.s > 0.0 && ac.ar > 0.0 && ac.span > 0.0 && ac.spanMax > 0.0
  }

  /** Every engine output at every shared slot is strictly positive. */
  predicate PositiveEngine(eng: Engine)
  {
    && (forall j :: 0 <= j < |eng.tsfc| ==> eng.tsfc[j] > 0.0)
    && (forall j :: 0 <= j < |eng.f| ==> eng.f[j] > 0.0)
    && (forall j :: 0 <= j < |eng.fSpec| ==> eng.fSpec[j] > 0.0)
    && (forall j :: 0 <= j < |eng.m2| ==> eng.m2[j] > 0.0)
  }

  /** Every variable the mission mentions is strictly positive. */
  predicate Positive(ms: MissionVars)
  {
    && PositiveAircraft(ms.ac) && PositiveEngine(ms.eng)
    && ms.wTotal > 0.0 && ms.wDry > 0.0 && ms.wFTotal > 0.0
    && ms.wFClimb1 > 0.0 && ms.wFClimb2 > 0.0 && ms.wFCruise > 0.0
    && ms.cruiseAlt > 0.0 && ms.reqRng > 0.0
    && ms.dhHold1 > 0.0 && ms.dhHold2 > 0.0 && ms.dhHoldCr > 0.0
    && (forall i :: 0 <= i < |ms.climb1| ==> PositivePoint(ms.climb1[i]))
    && (forall i :: 0 <= i < |ms.climb2| ==> PositivePoint(ms.climb2[i]))
    && (forall i :: 0 <= i < |ms.cruise| ==> PositivePoint(ms.cruise[i]))
  }

  // ---- weights and fuel ----

  /** Within a segment, each point starts at the previous point's end weight. */
  predicate Chained(ps: seq<Point>)
  {
    forall k :: 0 <= k < |ps| - 1 ==> ps[k + 1].wStart == ps[k].wEnd
  }

  /** At every point the start weight covers the end weight plus the burn. */
  predicate NoWeightCreated(ps: seq<Point>)
  {
    forall k :: 0 <= k < |ps| ==> ps[k].wStart >= ps[k].wEnd + ps[k].wBurn
  }

  /** The weight chain, dry-weight build-up and fuel bookkeeping. */
  predicate WeightRelations(ms: MissionVars)
    requires ms.climb1 != [] && ms.climb2 != [] && ms.cruise != []
  {
    var ac := ms.ac;
    && ac.wE + ac.wPayload + ac.numeng * ac.wEngine + ac.wWing <= ms.wDry
    && ms.wDry + ms.wFTotal <= ms.wTotal
    && ms.climb1[0].wStart == ms.wTotal
    && Last(ms.climb1).wEnd == ms.climb2[0].wStart
    && Last(ms.climb2).wEnd == ms.cruise[0].wStart
    && NoWeightCreated(ms.climb1) && NoWeightCreated(ms.climb2) && NoWeightCreated(ms.cruise)
    && Chained(ms.climb1) && Chained(ms.climb2) && Chained(ms.cruise)
    && ms.wDry <= Last(ms.cruise).wEnd
    && ms.wFTotal >= ms.wFClimb1 + ms.wFClimb2 + ms.wFCruise
    && ms.wFClimb1 >= SumOf(ms.climb1, BurnOf)
    && ms.wFClimb2 >= SumOf(ms.climb2, BurnOf)
    && ms.wFCruise >= SumOf(ms.cruise, BurnOf)
  }

  // ---- altitude profile ----

  /** Every altitude relation except the climb-2 / cruise junction. The
      climb-2 step bound is stated against every cruise point, as the source
      writes it against the whole cruise vector. */
  predicate AltitudeRelations(l: Layout, ms: MissionVars)
    requires Shaped(l, ms)
  {
    && ms.cruise[0].hft == ms.cruiseAlt
    && (forall k :: 0 <= k < l.n3 - 1 ==> ms.cruise[k + 1].hft == ms.cruise[k].hft + ms.dhHoldCr)
    && (forall k :: 0 <= k < l.n2 - 1 ==> ms.climb2[k + 1].hft >= ms.climb2[k].hft + ms.dhHold2)
    && ms.climb2[0].hft <= ms.dhHold2 + CrossoverFt
    && (forall k :: 0 <= k < l.n1 - 1 ==> ms.climb1[k + 1].hft >= ms.climb1[k].hft + ms.dhHold1)
    && ms.climb1[0].hft == ms.climb1[0].dhft
    && Last(ms.climb1).hft == CrossoverFt
    && (forall j :: 0 <= j < l.n3 ==> ms.dhHold2 <= (ms.cruise[j].hft - CrossoverFt) / l.n2 as real)
    && (forall k :: 0 <= k < l.n2 ==> ms.climb2[k].dhft == ms.dhHold2)
    && ms.dhHold1 == CrossoverFt / l.n1 as real
    && (forall k :: 0 <= k < l.n1 ==> ms.climb1[k].dhft == ms.dhHold1)
    && (forall k :: 0 <= k < l.n3 ==> ms.cruise[k].dhft == ms.dhHoldCr)
  }

  /** The junction as written: the last climb-2 altitude equals EVERY cruise
      altitude (a scalar compared with the whole cruise vector). */
  predicate JunctionAsWritten(l: Layout, ms: MissionVars)
    requires Shaped(l, ms)
  {
    forall j :: 0 <= j < l.n3 ==> Last(ms.climb2).hft == ms.cruise[j].hft
  }

  /** The junction as intended: climb-2 ends at the first cruise altitude. */
  predicate Junction(l: Layout, ms: MissionVars)
    requires Shaped(l, ms)
  {
    Last(ms.climb2).hft == ms.cruise[0].hft
  }

  // ---- range and engine coupling ----

  /** The summed cruise, climb-2 and climb-1 ranges cover the required range. */
  predicate RangeClosure(ms: MissionVars)
  {
    SumOf(ms.cruise, RangeOf) + SumOf(ms.climb2, RangeOf) + SumOf(ms.climb1, RangeOf) >= ms.reqRng
  }

  /** One point's engine relations, given the engine's values at the point's
      shared slot: fuel burn = numeng * TSFC * hours * F, inlet Mach M_2 =
      flight Mach, and numeng * F_spec >= D + W_avg * theta. */
  predicate EngineP(numeng: real, tsfc: real, f: real, fSpec: real, m2: real, q: Point)
  {
    && q.wBurn == numeng * tsfc * q.thr * f
    && m2 == q.mach
    && numeng * fSpec >= q.d + q.wAvg * q.theta
  }

  /** The engine relations at every point of phase `p`, with the engine
      arrays sliced at the phase's offset. */
  predicate EngineCoupled(l: Layout, ms: MissionVars, p: Phase)
    requires Shaped(l, ms)
  {
    var seg := Segment(ms, p);
    var tsfc := Slice(l, ms.eng.tsfc, p);
    var f := Slice(l, ms.eng.f, p);
    var fSpec := Slice(l, ms.eng.fSpec, p);
    var m2 := Slice(l, ms.eng.m2, p);
    forall i :: 0 <= i < |seg| ==> EngineP(ms.ac.numeng, tsfc[i], f[i], fSpec[i], m2[i], seg[i])
  }

  /** Every relation of the mission except the climb-2 / cruise junction. */
  predicate Relations(l: Layout, ms: MissionVars)
    requires Shaped(l, ms)
  {
    && Positive(ms)
    && AircraftGeometry(ms.ac)
    && PointPhysics(ms)
    && WeightRelations(ms)
    && AltitudeRelations(l, ms)
    && RangeClosure(ms)
    && EngineCoupled(l, ms, Climb1)
    && EngineCoupled(l, ms, Climb2)
    && EngineCoupled(l, ms, Cruise)
  }

  /** The mission's constraint set, with the junction as intended. */
  predicate Feasible(l: Layout, ms: MissionVars)
  {
    Shaped(l, ms) && Relations(l, ms) && Junction(l, ms)
  }

  /** The mission's constraint set exactly as written. */
  predicate FeasibleAsWritten(l: Layout, ms: MissionVars)
  {
    Shaped(l, ms) && Relations(l, ms) && JunctionAsWritten(l, ms)
  }
}
