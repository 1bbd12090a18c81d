/** The bound diagnostics of the mission model: every free variable gets an
    artificial upper and lower bound, the model is solved, and each variable
    is then classified by the duals of its two bounds and by how close its
    value came to them. The solve is external; its dual vector and its
    variable values are inputs here. */
module BoundDiagnostics {

  datatype Option<T> = None | Some(value: T)

  /** Failures of the pass: `1/eps` with a zero `eps`, a dual or a value the
      solver result does not hold. */
  datatype DiagError = ZeroDivision | DualMissing(key: VarKey) | ValueMissing(key: VarKey)

  datatype Result<T> = Ok(value: T) | Err(error: DiagError)

  /** A variable key; `fixed` holds when its descriptor carries a `value`. */
  datatype VarKey = VarKey(name: string, fixed: bool)

  /** One artificial bound: `limit >= var` or `var >= limit`. */
  datatype Bound = AtMost(key: VarKey, limit: real) | AtLeast(key: VarKey, limit: real)

  /** The pair appended for one free variable: upper bound first. */
  datatype BoundPair = BoundPair(upper: Bound, lower: Bound)

  /** What the bounded model remembers: the two limits, the bounded keys in
      order, and their bound pairs. */
  datatype BoundAll = BoundAll(lb: real, ub: real, varkeys: seq<VarKey>, pairs: seq<BoundPair>)

  /** The four labels under which variables are reported. */
  datatype Label = SensitiveToUpper | SensitiveToLower | NearLowerBound | NearUpperBound

  /** The report: one list per label (an absent label is an empty list). */
  datatype Diagnostics = Diagnostics(
    sensitiveUpper: seq<VarKey>, sensitiveLower: seq<VarKey>,
    nearLower: seq<VarKey>, nearUpper: seq<VarKey>)

  /** 1e-30, the default `eps`. */
  const DefaultEps: real := 0.000000000000000000000000000001
  /** 1e30, the default upper bound 1/eps. */
  const DefaultUpper: real := 1000000000000000000000000000000.0
  /** A dual of this magnitude or more marks a bound as active. */
  const DualThreshold: real := 0.0000001
  /** e^3: ln(x) <= 3 exactly when x <= e^3 (for x > 0). */
  const ExpThree: real := 20.085536923187668

  /** Python truthiness of an optional number: present and non-zero. */
  predicate Truthy(x: Option<real>)
  {
    x.Some? && x.value != 0.0
  }

  /** The limits: `lb = lower if lower else eps`, `ub = upper if upper else
      1/eps`; the division fails for a zero `eps`. */
  function BoundLimits(eps: real, lower: Option<real>, upper: Option<real>): (r: Result<(real, real)>)
    ensures r.Err? <==> eps == 0.0 && !Truthy(upper)
    ensures r.Err? ==> r.error == ZeroDivision
  {
    var lb := if Truthy(lower) then lower.value else eps;
    if Truthy(upper) then Ok((lb, upper.value))
    else if eps == 0.0 then Err(ZeroDivision)
    else Ok((lb, 1.0 / eps))
  }

  /** With no overrides the default limits are 1e-30 and 1e30, reciprocal. */
  lemma DefaultLimits()
    ensures BoundLimits(DefaultEps, None, None) == Ok((DefaultEps, DefaultUpper))
    ensures DefaultEps * DefaultUpper == 1.0
  {
  }

  /** A zero override is falsy and falls back to the default. */
  lemma ZeroOverrideIsDefault(eps: real, lower: Option<real>, upper: Option<real>)
    ensures BoundLimits(eps, Some(0.0), upper) == BoundLimits(eps, None, upper)
    ensures BoundLimits(eps, lower, Some(0.0)) == BoundLimits(eps, lower, None)
  {
  }

  /** The free keys, in order: those whose descriptor has no `value`. */
  function FreeKeys(vks: seq<VarKey>): (r: seq<VarKey>)
    ensures |r| <= |vks|
    ensures forall k :: k in r <==> k in vks && !k.fixed
  {
    if vks == [] then []
    else
      var init := vks[..|vks| - 1];
      var last := vks[|vks| - 1];
      assert vks == init + [last];
      FreeKeys(init) + (if last.fixed then [] else [last])
  }

  /** Free keys of distinct keys are distinct. */
  lemma {:induction false} FreeKeysDistinct(vks: seq<VarKey>)
    requires forall i, j :: 0 <= i < j < |vks| ==> vks[i] != vks[j]
    ensures forall i, j :: 0 <= i < j < |FreeKeys(vks)| ==> FreeKeys(vks)[i] != FreeKeys(vks)[j]
  {
    if vks != [] {
      var init := vks[..|vks| - 1];
      var last := vks[|vks| - 1];
      FreeKeysDistinct(init);
      assert last !in init;
      assert last !in FreeKeys(init);
    }
  }

  /** The constraint list as the solver sees it: each pair flattened, upper
      bound first. */
  function Flatten(pairs: seq<BoundPair>): seq<Bound>
  {
    if pairs == [] then [] else [pairs[0].upper, pairs[0].lower] + Flatten(pairs[1..])
  }

  /** Constraint 2i is variable i's upper bound, constraint 2i+1 its lower. */
  lemma {:induction false} FlattenAt(pairs: seq<BoundPair>, i: nat)
    requires i < |pairs|
    ensures |Flatten(pairs)| == 2 * |pairs|
    ensures Flatten(pairs)[2 * i] == pairs[i].upper && Flatten(pairs)[2 * i + 1] == pairs[i].lower
    decreases i
  {
    if i == 0 {
      FlattenLength(pairs);
    } else {
      FlattenAt(pairs[1..], i - 1);
      FlattenLength(pairs);
    }
  }

  lemma {:induction false} FlattenLength(pairs: seq<BoundPair>)
    ensures |Flatten(pairs)| == 2 * |pairs|
  {
    if pairs != [] {
      FlattenLength(pairs[1..]);
    }
  }

  /** Bound every free variable between the limits, one pair per key. */
  method BoundAllVariables(vks: seq<VarKey>, eps: real, lower: Option<real>, upper: Option<real>)
    returns (r: Result<BoundAll>)
    ensures r.Err? <==> BoundLimits(eps, lower, upper).Err?
    ensures r.Err? ==> r.error == ZeroDivision
    ensures r.Ok? ==> BoundLimits(eps, lower, upper) == Ok((r.value.lb, r.value.ub))
    ensures r.Ok? ==> r.value.varkeys == FreeKeys(vks) && |r.value.pairs| == |r.value.varkeys|
    ensures r.Ok? ==> forall i :: 0 <= i < |r.value.pairs| ==>
      r.value.pairs[i] == BoundPair(AtMost(r.value.varkeys[i], r.value.ub), AtLeast(r.value.varkeys[i], r.value.lb))
  {
    var limits := BoundLimits(eps, lower, upper);
    if limits.Err? {
      return Err(ZeroDivision);
    }
    var (lb, ub) := limits.value;
    var free := FreeKeys(vks);
    var pairs: seq<BoundPair> := [];
    for i := 0 to |free|
      invariant |pairs| == i
      invariant forall k :: 0 <= k < i ==> pairs[k] == BoundPair(AtMost(free[k], ub), AtLeast(free[k], lb))
    {
      pairs := pairs + [BoundPair(AtMost(free[i], ub), AtLeast(free[i], lb))];
    }
    r := Ok(BoundAll(lb, ub, free, pairs));
  }

  /** The bound duals: the solver's duals without the first one, which
      belongs to the objective. */
  function Lam(la: seq<real>): (r: seq<real>)
    ensures |r| == if |la| == 0 then 0 else |la| - 1
    ensures forall k :: 0 <= k < |r| ==> r[k] == la[k + 1]
  {
    if |la| == 0 then [] else la[1..]
  }

  /** |d| >= 1e-7. */
  predicate Sensitive(d: real)
  {
    d >= DualThreshold || -d >= DualThreshold
  }

  /** ln(v / lb) <= 3, with numpy's conventions: a zero ratio has logarithm
      -inf, a negative or infinite ratio never passes. */
  predicate NearLower(v: real, lb: real)
  {
    lb != 0.0 && 0.0 <= v / lb <= ExpThree
  }

  /** ln(ub / v) <= 3, with the same conventions. */
  predicate NearUpper(v: real, ub: real)
  {
    v != 0.0 && 0.0 <= ub / v <= ExpThree
  }

  /** Whether a variable with bound duals `lamGt`, `lamLt` and value `v`
      goes under `tag`; near-upper only when not near-lower. */
  predicate Flagged(tag: Label, lamGt: real, lamLt: real, v: real, lb: real, ub: real)
  {
    match tag
    case SensitiveToUpper => Sensitive(lamGt)
    case SensitiveToLower => Sensitive(lamLt)
    case NearLowerBound => NearLower(v, lb)
    case NearUpperBound => !NearLower(v, lb) && NearUpper(v, ub)
  }

  function Listed(d: Diagnostics, tag: Label): seq<VarKey>
  {
    match tag
    case SensitiveToUpper => d.sensitiveUpper
    case SensitiveToLower => d.sensitiveLower
    case NearLowerBound => d.nearLower
    case NearUpperBound => d.nearUpper
  }

  /** The report after one more variable: each list grows by the key exactly
      when the key is flagged under its tag. */
  function Record(d: Diagnostics, vk: VarKey, lamGt: real, lamLt: real, v: real, lb: real, ub: real): (r: Diagnostics)
    ensures forall tag: Label ::
      Listed(r, tag) == Listed(d, tag) + (if Flagged(tag, lamGt, lamLt, v, lb, ub) then [vk] else [])
  {
    var nl := NearLower(v, lb);
    Diagnostics(
      d.sensitiveUpper + (if Sensitive(lamGt) then [vk] else []),
      d.sensitiveLower + (if Sensitive(lamLt) then [vk] else []),
      d.nearLower + (if nl then [vk] else []),
      d.nearUpper + (if !nl && NearUpper(v, ub) then [vk] else []))
  }

  const NoDiagnostics: Diagnostics := Diagnostics([], [], [], [])

  /** The classification of the first `n` bounded keys: fails at the first
      key whose two duals are not both present, or whose value is missing. */
  function Diagnose(vks: seq<VarKey>, lam: seq<real>, values: map<VarKey, real>, lb: real, ub: real, n: nat): Result<Diagnostics>
    requires n <= |vks|
  {
    if n == 0 then Ok(NoDiagnostics)
    else
      match Diagnose(vks, lam, values, lb, ub, n - 1)
      case Err(e) => Err(e)
      case Ok(d) =>
        var i := n - 1;
        if 2 * i + 1 >= |lam| then Err(DualMissing(vks[i]))
        else if vks[i] !in values then Err(ValueMissing(vks[i]))
        else Ok(Record(d, vks[i], lam[2 * i], lam[2 * i + 1], values[vks[i]], lb, ub))
  }

  /** The whole pass on a solver result: bound the model, then classify
      every bounded key. */
  function Classify(vks: seq<VarKey>, eps: real, lower: Option<real>, upper: Option<real>,
                    la: seq<real>, values: map<VarKey, real>): Result<Diagnostics>
  {
    match BoundLimits(eps, lower, upper)
    case Err(e) => Err(e)
    case Ok((lb, ub)) => Diagnose(FreeKeys(vks), Lam(la), values, lb, ub, |FreeKeys(vks)|)
  }

  /** Once the classification has failed, it stays failed with that error. */
  lemma {:induction false} DiagnoseErrPersists(vks: seq<VarKey>, lam: seq<real>, values: map<VarKey, real>,
                                               lb: real, ub: real, k: nat, n: nat)
    requires k <= n <= |vks|
    requires Diagnose(vks, lam, values, lb, ub, k).Err?
    ensures Diagnose(vks, lam, values, lb, ub, n) == Diagnose(vks, lam, values, lb, ub, k)
    decreases n - k
  {
    if k < n {
      DiagnoseErrPersists(vks, lam, values, lb, ub, k, n - 1);
    }
  }

  /** One more key with both duals and a value extends the report by that
      key's record. */
  lemma DiagnoseNext(vks: seq<VarKey>, lam: seq<real>, values: map<VarKey, real>,
                     lb: real, ub: real, i: nat, d: Diagnostics)
    requires i < |vks| && Diagnose(vks, lam, values, lb, ub, i) == Ok(d)
    requires 2 * i + 1 < |lam| && vks[i] in values
    ensures Diagnose(vks, lam, values, lb, ub, i + 1)
            == Ok(Record(d, vks[i], lam[2 * i], lam[2 * i + 1], values[vks[i]], lb, ub))
  {
  }

  /** A key without both duals or without a value fails the whole pass. */
  lemma DiagnoseStopsAt(vks: seq<VarKey>, lam: seq<real>, values: map<VarKey, real>,
                        lb: real, ub: real, i: nat)
    requires i < |vks| && Diagnose(vks, lam, values, lb, ub, i).Ok?
    requires 2 * i + 1 >= |lam| || vks[i] !in values
    ensures Diagnose(vks, lam, values, lb, ub, |vks|)
            == Err(if 2 * i + 1 >= |lam| then DualMissing(vks[i]) else ValueMissing(vks[i]))
  {
    DiagnoseErrPersists(vks, lam, values, lb, ub, i + 1, |vks|);
  }

  /** The whole pass, once the model is bounded, is the classification of
      its bounded keys. */
  lemma ClassifyBounded(vks: seq<VarKey>, eps: real, lower: Option<real>, upper: Option<real>,
                        la: seq<real>, values: map<VarKey, real>, ba: BoundAll)
    requires BoundLimits(eps, lower, upper) == Ok((ba.lb, ba.ub)) && ba.varkeys == FreeKeys(vks)
    ensures Classify(vks, eps, lower, upper, la, values)
            == Diagnose(ba.varkeys, Lam(la), values, ba.lb, ba.ub, |ba.varkeys|)
  {
  }

  /** Append the key to the sensitivity lists its two duals call for. */
  method NoteSensitivity(out: Diagnostics, vk: VarKey, lamGt: real, lamLt: real) returns (r: Diagnostics)
    ensures r == out.(sensitiveUpper := out.sensitiveUpper + (if Sensitive(lamGt) then [vk] else []),
                      sensitiveLower := out.sensitiveLower + (if Sensitive(lamLt) then [vk] else []))
  {
    r := out;
    if Sensitive(lamGt) {
      r := r.(sensitiveUpper := r.sensitiveUpper + [vk]);
    }
    if Sensitive(lamLt) {
      r := r.(sensitiveLower := r.sensitiveLower + [vk]);
    }
  }

  /** Append the key to the near-lower list, or else to the near-upper
      list, as its value calls for. */
  method NoteNearness(out: Diagnostics, vk: VarKey, value: real, lb: real, ub: real) returns (r: Diagnostics)
    ensures r == out.(nearLower := out.nearLower + (if NearLower(value, lb) then [vk] else []),
                      nearUpper := out.nearUpper + (if !NearLower(value, lb) && NearUpper(value, ub) then [vk] else []))
  {
    r := out;
    if NearLower(value, lb) {
      r := r.(nearLower := r.nearLower + [vk]);
    } else if NearUpper(value, ub) {
      r := r.(nearUpper := r.nearUpper + [vk]);
    }
  }

  /** The classifier: a loop over the bounded keys that reads both duals and
      the value of each key and appends the key to the lists it is flagged
      for; it returns early on a missing dual or value. */
  method DetermineUnboundedVariables(vks: seq<VarKey>, eps: real, lower: Option<real>, upper: Option<real>,
                                     la: seq<real>, values: map<VarKey, real>)
    returns (r: Result<Diagnostics>)
    ensures r == Classify(vks, eps, lower, upper, la, values)
  {
    var m := BoundAllVariables(vks, eps, lower, upper);
    if m.Err? {
      return Err(ZeroDivision);
    }
    var lb, ub, keys := m.value.lb, m.value.ub, m.value.varkeys;
    var lam := Lam(la);
    ClassifyBounded(vks, eps, lower, upper, la, values, m.value);
    var out := NoDiagnostics;
    for i := 0 to |keys|
      invariant Diagnose(keys, lam, values, lb, ub, i) == Ok(out)
    {
      var vk := keys[i];
      if 2 * i + 1 >= |lam| {
        DiagnoseStopsAt(keys, lam, values, lb, ub, i);
        return Err(DualMissing(vk));
      }
      ghost var before := out;
      var lamGt, lamLt := lam[2 * i], lam[2 * i + 1];
      out := NoteSensitivity(out, vk, lamGt, lamLt);
      if vk !in values {
        DiagnoseStopsAt(keys, lam, values, lb, ub, i);
        return Err(ValueMissing(vk));
      }
      var value := values[vk];
      out := NoteNearness(out, vk, value, lb, ub);
      assert out == Record(before, vk, lamGt, lamLt, value, lb, ub);
      DiagnoseNext(keys, lam, values, lb, ub, i, before);
    }
    return Ok(out);
  }

  /** The classification succeeds exactly when every key has both duals and
      a value. */
  lemma {:induction false} DiagnoseOkIff(vks: seq<VarKey>, lam: seq<real>, values: map<VarKey, real>,
                                         lb: real, ub: real, n: nat)
    requires n <= |vks|
    ensures Diagnose(vks, lam, values, lb, ub, n).Ok?
            <==> 2 * n <= |lam| && forall i :: 0 <= i < n ==> vks[i] in values
  {
    if n > 0 {
      DiagnoseOkIff(vks, lam, values, lb, ub, n - 1);
    }
  }

  /** Whether key i is flagged under `tag`; false when a dual or its value
      is missing. */
  predicate FlaggedAt(tag: Label, vks: seq<VarKey>, lam: seq<real>, values: map<VarKey, real>,
                      lb: real, ub: real, i: nat)
    requires i < |vks|
  {
    2 * i + 1 < |lam| && vks[i] in values
    && Flagged(tag, lam[2 * i], lam[2 * i + 1], values[vks[i]], lb, ub)
  }

  /** A key is listed under a tag exactly when one of its occurrences is
      flagged under that tag. */
  lemma {:induction false} ListedIff(vks: seq<VarKey>, lam: seq<real>, values: map<VarKey, real>,
                                     lb: real, ub: real, n: nat, tag: Label, vk: VarKey)
    requires n <= |vks| && Diagnose(vks, lam, values, lb, ub, n).Ok?
    ensures vk in Listed(Diagnose(vks, lam, values, lb, ub, n).value, tag)
            <==> exists i :: 0 <= i < n && vks[i] == vk && FlaggedAt(tag, vks, lam, values, lb, ub, i)
  {
    if n > 0 {
      var i := n - 1;
      ListedStep(vks, lam, values, lb, ub, n, tag);
      ListedIff(vks, lam, values, lb, ub, i, tag, vk);
      var prev := Listed(Diagnose(vks, lam, values, lb, ub, i).value, tag);
      var cur := Listed(Diagnose(vks, lam, values, lb, ub, n).value, tag);
      AppendMembership(prev, cur, vks[i], FlaggedAt(tag, vks, lam, values, lb, ub, i), vk);
      FlaggedBeforeStep(vks, lam, values, lb, ub, n, tag, vk);
    }
  }

  /** Appending x when `flagged` adds exactly x to the members. */
  lemma AppendMembership(prev: seq<VarKey>, cur: seq<VarKey>, x: VarKey, flagged: bool, vk: VarKey)
    requires cur == prev + (if flagged then [x] else [])
    ensures vk in cur <==> vk in prev || (flagged && x == vk)
  {
  }

  /** Key vk is flagged among the first n occurrences exactly when it is
      among the first n - 1 or it is occurrence n - 1. */
  lemma FlaggedBeforeStep(vks: seq<VarKey>, lam: seq<real>, values: map<VarKey, real>,
                          lb: real, ub: real, n: nat, tag: Label, vk: VarKey)
    requires 0 < n <= |vks|
    ensures (exists i :: 0 <= i < n && vks[i] == vk && FlaggedAt(tag, vks, lam, values, lb, ub, i))
            <==> (exists i :: 0 <= i < n - 1 && vks[i] == vk && FlaggedAt(tag, vks, lam, values, lb, ub, i))
                 || (vks[n - 1] == vk && FlaggedAt(tag, vks, lam, values, lb, ub, n - 1))
  {
    if exists i :: 0 <= i < n && vks[i] == vk && FlaggedAt(tag, vks, lam, values, lb, ub, i) {
      var i :| 0 <= i < n && vks[i] == vk && FlaggedAt(tag, vks, lam, values, lb, ub, i);
      if i < n - 1 {
        assert 0 <= i < n - 1 && vks[i] == vk && FlaggedAt(tag, vks, lam, values, lb, ub, i);
      }
    }
  }

  /** The list under a label grows by key n-1 exactly when that key is
      flagged. */
  lemma ListedStep(vks: seq<VarKey>, lam: seq<real>, values: map<VarKey, real>,
                   lb: real, ub: real, n: nat, tag: Label)
    requires 0 < n <= |vks| && Diagnose(vks, lam, values, lb, ub, n).Ok?
    ensures Diagnose(vks, lam, values, lb, ub, n - 1).Ok?
    ensures Listed(Diagnose(vks, lam, values, lb, ub, n).value, tag)
            == Listed(Diagnose(vks, lam, values, lb, ub, n - 1).value, tag)
               + (if FlaggedAt(tag, vks, lam, values, lb, ub, n - 1) then [vks[n - 1]] else [])
  {
  }

  /** No key is reported both near its lower and near its upper bound: every
      occurrence of a key reads the same value, and the upper test runs only
      when the lower one fails. */
  lemma NearBoundsExclusive(vks: seq<VarKey>, lam: seq<real>, values: map<VarKey, real>,
                            lb: real, ub: real, n: nat, vk: VarKey)
    requires n <= |vks| && Diagnose(vks, lam, values, lb, ub, n).Ok?
    ensures !(vk in Diagnose(vks, lam, values, lb, ub, n).value.nearLower
              && vk in Diagnose(vks, lam, values, lb, ub, n).value.nearUpper)
  {
    ListedIff(vks, lam, values, lb, ub, n, NearLowerBound, vk);
    ListedIff(vks, lam, values, lb, ub, n, NearUpperBound, vk);
  }

  /** A key whose two bound duals are both below the threshold, such as a
      variable pinned by a physical constraint, is reported under neither
      sensitivity tag. */
  lemma QuietDualsNotSensitive(vks: seq<VarKey>, lam: seq<real>, values: map<VarKey, real>,
                               lb: real, ub: real, n: nat, i: nat)
    requires i < n <= |vks| && Diagnose(vks, lam, values, lb, ub, n).Ok?
    requires forall a, b :: 0 <= a < b < n ==> vks[a] != vks[b]
    requires 2 * i + 1 < |lam| && !Sensitive(lam[2 * i]) && !Sensitive(lam[2 * i + 1])
    ensures vks[i] !in Diagnose(vks, lam, values, lb, ub, n).value.sensitiveUpper
    ensures vks[i] !in Diagnose(vks, lam, values, lb, ub, n).value.sensitiveLower
  {
    ListedIff(vks, lam, values, lb, ub, n, SensitiveToUpper, vks[i]);
    ListedIff(vks, lam, values, lb, ub, n, SensitiveToLower, vks[i]);
  }

  /** The upper-bound flag of bounded key i reads the solver's dual of
      constraint 2i, which is that key's own upper bound; the lower flag
      reads constraint 2i+1, its lower bound. */
  lemma SensitivityReadsOwnBound(ba: BoundAll, la: seq<real>, i: nat)
    requires |ba.pairs| == |ba.varkeys| && i < |ba.varkeys|
    requires forall k :: 0 <= k < |ba.pairs| ==>
      ba.pairs[k] == BoundPair(AtMost(ba.varkeys[k], ba.ub), AtLeast(ba.varkeys[k], ba.lb))
    requires 2 * i + 2 < |la|
    ensures |Flatten(ba.pairs)| == 2 * |ba.pairs|
    ensures Flatten(ba.pairs)[2 * i] == AtMost(ba.varkeys[i], ba.ub)
    ensures Flatten(ba.pairs)[2 * i + 1] == AtLeast(ba.varkeys[i], ba.lb)
    ensures Lam(la)[2 * i] == la[2 * i + 1] && Lam(la)[2 * i + 1] == la[2 * i + 2]
  {
    FlattenAt(ba.pairs, i);
  }

  /** For positive limits and values the near tests are the factor-of-e^3
      tests: v <= lb * e^3 and ub <= v * e^3. */
  lemma NearMeansWithinFactor(v: real, lb: real, ub: real)
    requires v > 0.0 && lb > 0.0 && ub > 0.0
    ensures NearLower(v, lb) <==> v <= lb * ExpThree
    ensures NearUpper(v, ub) <==> ub <= v * ExpThree
  {
    assert v / lb * lb == v;
    assert ub / v * v == ub;
  }

  /** With the default limits a value of 1 is near neither bound. */
  lemma UnitValueIsInterior()
    ensures !NearLower(1.0, DefaultEps) && !NearUpper(1.0, DefaultUpper)
  {
  }
}
