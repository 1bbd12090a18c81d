/** StateLinking: for every flight-state key, one equality per mission point
    tying the segment-local value to its slot in the shared engine-state
    vector. The generator owns no state; it only emits the equalities. */
module StateLinking {
  import opened Partition

  /** The flight-state keys the engine must see per mission point. */
  const StateVarKeys: seq<string> :=
    ["p_{sl}", "T_{sl}", "L_{atm}", "M_{atm}", "P_{atm}", "R_{atm}",
     "\\rho", "T_{atm}", "\\mu", "T_s", "C_1", "h", "hft", "V", "a", "R", "\\gamma", "M"]

  /** The emitted equality `segment[key][local] == engine[key][shared]`. */
  datatype Link = Link(key: string, phase: Phase, local: nat, shared: nat)

  /** The equality a shared slot receives for one key. */
  function LinkFor(l: Layout, key: string, j: nat): Link
    requires j < l.Total()
  {
    Link(key, Locate(l, j).0, Locate(l, j).1, j)
  }

  /** The equalities for one key and one phase, in local order. */
  function PhaseLinks(l: Layout, key: string, p: Phase): seq<Link>
  {
    seq(l.Count(p), i requires 0 <= i < l.Count(p) => Link(key, p, i, SharedIndex(l, p, i)))
  }

  /** The equalities for one key: climb-1, then climb-2, then cruise. */
  function KeyLinks(l: Layout, key: string): seq<Link>
  {
    PhaseLinks(l, key, Climb1) + PhaseLinks(l, key, Climb2) + PhaseLinks(l, key, Cruise)
  }

  /** Every equality the generator emits for `keys`, key by key. */
  function AllLinks(l: Layout, keys: seq<string>): seq<Link>
  {
    if keys == [] then []
    else AllLinks(l, keys[..|keys| - 1]) + KeyLinks(l, keys[|keys| - 1])
  }

  /** Builds the linking equalities with the source's nested loops: per key,
      one loop per phase, each appending one equality per point. */
  method Generate(l: Layout, keys: seq<string>) returns (links: seq<Link>)
    ensures links == AllLinks(l, keys)
  {
    links := [];
    for m := 0 to |keys|
      invariant links == AllLinks(l, keys[..m])
    {
      KeyStep(l, keys, m);
      links := EmitKey(l, keys[m], links);
    }
    assert keys[..|keys|] == keys;
  }

  /** The body of the key loop: the climb-1, climb-2 and cruise loops append
      key's block to `links`. */
  method EmitKey(l: Layout, key: string, links: seq<Link>) returns (out: seq<Link>)
    ensures out == links + KeyLinks(l, key)
  {
    out := links;
    for i := 0 to l.n1
      invariant out == links + PhaseLinks(l, key, Climb1)[..i]
    {
      PhasePrefixStep(l, key, Climb1, i);
      out := out + [Link(key, Climb1, i, i)];
    }
    ghost var afterClimb1 := out;
    for i := 0 to l.n2
      invariant out == afterClimb1 + PhaseLinks(l, key, Climb2)[..i]
    {
      PhasePrefixStep(l, key, Climb2, i);
      out := out + [Link(key, Climb2, i, i + l.n1)];
    }
    ghost var afterClimb2 := out;
    for i := 0 to l.n3
      invariant out == afterClimb2 + PhaseLinks(l, key, Cruise)[..i]
    {
      PhasePrefixStep(l, key, Cruise, i);
      out := out + [Link(key, Cruise, i, i + l.n1 + l.n2)];
    }
    BlockComplete(l, key, links, afterClimb1, afterClimb2, out);
  }

  /** One more point of a phase extends the emitted prefix by its equality. */
  lemma PhasePrefixStep(l: Layout, key: string, p: Phase, i: nat)
    requires i < l.Count(p)
    ensures PhaseLinks(l, key, p)[..i + 1] == PhaseLinks(l, key, p)[..i] + [Link(key, p, i, SharedIndex(l, p, i))]
  {
  }

  /** Three complete phase loops append the whole block of the key. */
  lemma BlockComplete(l: Layout, key: string, links: seq<Link>, afterClimb1: seq<Link>,
                      afterClimb2: seq<Link>, out: seq<Link>)
    requires afterClimb1 == links + PhaseLinks(l, key, Climb1)[..l.n1]
    requires afterClimb2 == afterClimb1 + PhaseLinks(l, key, Climb2)[..l.n2]
    requires out == afterClimb2 + PhaseLinks(l, key, Cruise)[..l.n3]
    ensures out == links + KeyLinks(l, key)
  {
    assert PhaseLinks(l, key, Climb1)[..l.n1] == PhaseLinks(l, key, Climb1);
    assert PhaseLinks(l, key, Climb2)[..l.n2] == PhaseLinks(l, key, Climb2);
    assert PhaseLinks(l, key, Cruise)[..l.n3] == PhaseLinks(l, key, Cruise);
  }

  /** The links of the first m + 1 keys are those of the first m followed by
      key m's block. */
  lemma KeyStep(l: Layout, keys: seq<string>, m: nat)
    requires m < |keys|
    ensures AllLinks(l, keys[..m + 1]) == AllLinks(l, keys[..m]) + KeyLinks(l, keys[m])
  {
    assert keys[..m + 1][..m] == keys[..m];
  }

  /** One key's block has one equality per shared slot. */
  lemma KeyLinksLength(l: Layout, key: string)
    ensures |KeyLinks(l, key)| == l.Total()
  {
  }

  /** One key's block lists every shared slot once, in order. */
  lemma KeyLinksAt(l: Layout, key: string)
    ensures |KeyLinks(l, key)| == l.Total()
    ensures forall j :: 0 <= j < l.Total() ==> KeyLinks(l, key)[j] == LinkFor(l, key, j)
  {
    var k := KeyLinks(l, key);
    forall j | 0 <= j < l.Total()
      ensures k[j] == LinkFor(l, key, j)
    {
      var (p, i) := Locate(l, j);
      assert k[j] == PhaseLinks(l, key, p)[i];
    }
  }

  /** Where key m's block starts: m blocks of N = N1 + N2 + N3 equalities. */
  function KeyOffset(l: Layout, m: nat): nat
  {
    if m == 0 then 0 else KeyOffset(l, m - 1) + l.Total()
  }

  lemma MulSucc(a: nat, b: nat)
    ensures (a + 1) * b == a * b + b
  {
  }

  /** Key m's block starts at position m * N. */
  lemma {:induction false} KeyOffsetIsProduct(l: Layout, m: nat)
    ensures KeyOffset(l, m) == m * l.Total()
  {
    if m > 0 {
      KeyOffsetIsProduct(l, m - 1);
      MulSucc(m - 1, l.Total());
    }
  }

  /** The generator emits one block of N equalities per key. */
  lemma {:induction false} LinkCount(l: Layout, keys: seq<string>)
    ensures |AllLinks(l, keys)| == KeyOffset(l, |keys|)
  {
    if keys != [] {
      var n := |keys|;
      LinkCount(l, keys[..n - 1]);
      KeyLinksLength(l, keys[n - 1]);
    }
  }

  /** The equality at position KeyOffset(m) + j is the one for key m and
      shared slot j: climb-1 point i targets slot i, climb-2 point i slot
      N1 + i, cruise point i slot N1 + N2 + i. */
  lemma {:induction false} LinkAt(l: Layout, keys: seq<string>, m: nat, j: nat)
    requires m < |keys| && j < l.Total()
    ensures KeyOffset(l, m) + j < |AllLinks(l, keys)|
    ensures AllLinks(l, keys)[KeyOffset(l, m) + j] == LinkFor(l, keys[m], j)
  {
    var n := |keys|;
    var front := keys[..n - 1];
    LinkCount(l, front);
    LinkCount(l, keys);
    KeyLinksAt(l, keys[n - 1]);
    assert AllLinks(l, keys) == AllLinks(l, front) + KeyLinks(l, keys[n - 1]);
    if m < n - 1 {
      LinkAt(l, front, m, j);
      assert front[m] == keys[m];
    } else {
      assert KeyOffset(l, m) + j - |AllLinks(l, front)| == j;
    }
  }

  /** Every emitted position s is the equality of some key m for some shared
      slot j, at s == KeyOffset(m) + j. */
  lemma {:induction false} LinkDecompose(l: Layout, keys: seq<string>, s: nat)
    returns (m: nat, j: nat)
    requires s < |AllLinks(l, keys)|
    ensures m < |keys| && j < l.Total() && s == KeyOffset(l, m) + j
    ensures AllLinks(l, keys)[s] == LinkFor(l, keys[m], j)
  {
    var n := |keys|;
    var front := keys[..n - 1];
    LinkCount(l, front);
    LinkCount(l, keys);
    KeyLinksAt(l, keys[n - 1]);
    if s < |AllLinks(l, front)| {
      m, j := LinkDecompose(l, front, s);
    } else {
      m, j := n - 1, s - KeyOffset(l, n - 1);
    }
  }

  /** For distinct keys, the only position holding key m's equality for
      shared slot j is KeyOffset(m) + j. */
  lemma OnlyPosition(l: Layout, keys: seq<string>, m: nat, j: nat, s: nat)
    requires forall a, b :: 0 <= a < b < |keys| ==> keys[a] != keys[b]
    requires m < |keys| && j < l.Total()
    requires s < |AllLinks(l, keys)|
    requires AllLinks(l, keys)[s].key == keys[m] && AllLinks(l, keys)[s].shared == j
    ensures s == KeyOffset(l, m) + j
  {
    var m', j' := LinkDecompose(l, keys, s);
    assert keys[m'] == keys[m];
  }

  /** For distinct keys, every shared slot of every key is targeted exactly
      once: the equality for key m and slot j sits at KeyOffset(m) + j and
      at no other position. */
  lemma ExactlyOnce(l: Layout, keys: seq<string>, m: nat, j: nat)
    requires forall a, b :: 0 <= a < b < |keys| ==> keys[a] != keys[b]
    requires m < |keys| && j < l.Total()
    ensures KeyOffset(l, m) + j < |AllLinks(l, keys)|
    ensures forall s :: 0 <= s < |AllLinks(l, keys)| ==>
      (AllLinks(l, keys)[s].key == keys[m] && AllLinks(l, keys)[s].shared == j <==> s == KeyOffset(l, m) + j)
  {
    LinkAt(l, keys, m, j);
    forall s | 0 <= s < |AllLinks(l, keys)| && AllLinks(l, keys)[s].key == keys[m] && AllLinks(l, keys)[s].shared == j
      ensures s == KeyOffset(l, m) + j
    {
      OnlyPosition(l, keys, m, j, s);
    }
  }

  /** The value arrays of the four vectorized flight states, by key. */
  datatype States = States(climb1: map<string, seq<real>>, climb2: map<string, seq<real>>,
                           cruise: map<string, seq<real>>, engine: map<string, seq<real>>)

  /** Each key is present with the lengths N1, N2, N3 and N1 + N2 + N3. */
  ghost predicate Shaped(l: Layout, keys: seq<string>, st: States)
  {
    forall k :: k in keys ==>
      && k in st.climb1 && |st.climb1[k]| == l.n1
      && k in st.climb2 && |st.climb2[k]| == l.n2
      && k in st.cruise && |st.cruise[k]| == l.n3
      && k in st.engine && |st.engine[k]| == l.Total()
  }

  /** The local value a link reads, and whether its equality holds. */
  ghost predicate Holds(l: Layout, keys: seq<string>, st: States, lk: Link)
    requires Shaped(l, keys, st)
    requires lk.key in keys && lk.local < l.Count(lk.phase) && lk.shared < l.Total()
  {
    var k := lk.key;
    var local := match lk.phase
      case Climb1 => st.climb1[k][lk.local]
      case Climb2 => st.climb2[k][lk.local]
      case Cruise => st.cruise[k][lk.local];
    local == st.engine[k][lk.shared]
  }

  /** Every emitted equality holds. */
  ghost predicate AllHold(l: Layout, keys: seq<string>, st: States)
    requires Shaped(l, keys, st)
  {
    forall s :: 0 <= s < |AllLinks(l, keys)| ==>
      var lk := AllLinks(l, keys)[s];
      && lk.key in keys && lk.local < l.Count(lk.phase) && lk.shared < l.Total()
      && Holds(l, keys, st, lk)
  }

  /** Each key's engine vector is its three segment vectors end to end. */
  ghost predicate Concatenated(keys: seq<string>, st: States)
    requires forall k :: k in keys ==> k in st.climb1 && k in st.climb2 && k in st.cruise && k in st.engine
  {
    forall k :: k in keys ==> st.engine[k] == st.climb1[k] + st.climb2[k] + st.cruise[k]
  }

  /** One shared slot of one key, read off the equality that targets it. */
  lemma SlotFromLink(l: Layout, keys: seq<string>, st: States, m: nat, j: nat)
    requires Shaped(l, keys, st) && m < |keys| && j < l.Total()
    requires Holds(l, keys, st, LinkFor(l, keys[m], j))
    ensures st.engine[keys[m]][j] == (st.climb1[keys[m]] + st.climb2[keys[m]] + st.cruise[keys[m]])[j]
  {
    var lk := LinkFor(l, keys[m], j);
    if j < l.n1 {
      assert lk.phase == Climb1 && lk.local == j;
    } else if j < l.n1 + l.n2 {
      assert lk.phase == Climb2 && lk.local == j - l.n1;
    } else {
      assert lk.phase == Cruise && lk.local == j - l.n1 - l.n2;
    }
  }

  /** When every emitted equality holds, in particular the one for key m and
      slot j does. */
  lemma HoldsFor(l: Layout, keys: seq<string>, st: States, m: nat, j: nat)
    requires Shaped(l, keys, st) && AllHold(l, keys, st)
    requires m < |keys| && j < l.Total()
    ensures Holds(l, keys, st, LinkFor(l, keys[m], j))
  {
    LinkAt(l, keys, m, j);
    HoldsAt(l, keys, st, KeyOffset(l, m) + j);
  }

  /** The equality at position s holds. */
  lemma HoldsAt(l: Layout, keys: seq<string>, st: States, s: nat)
    requires Shaped(l, keys, st) && AllHold(l, keys, st) && s < |AllLinks(l, keys)|
    ensures AllLinks(l, keys)[s].key in keys
    ensures AllLinks(l, keys)[s].local < l.Count(AllLinks(l, keys)[s].phase)
    ensures AllLinks(l, keys)[s].shared < l.Total()
    ensures Holds(l, keys, st, AllLinks(l, keys)[s])
  {
  }

  /** If every emitted equality holds, the engine vectors are concatenations. */
  lemma HoldImpliesConcatenated(l: Layout, keys: seq<string>, st: States)
    requires Shaped(l, keys, st) && AllHold(l, keys, st)
    ensures Concatenated(keys, st)
  {
    forall k | k in keys
      ensures st.engine[k] == st.climb1[k] + st.climb2[k] + st.cruise[k]
    {
      var m :| 0 <= m < |keys| && keys[m] == k;
      forall j | 0 <= j < l.Total()
        ensures st.engine[k][j] == (st.climb1[k] + st.climb2[k] + st.cruise[k])[j]
      {
        HoldsFor(l, keys, st, m, j);
        SlotFromLink(l, keys, st, m, j);
      }
    }
  }

  /** If the engine vectors are concatenations, every emitted equality holds. */
  lemma ConcatenatedImpliesHold(l: Layout, keys: seq<string>, st: States)
    requires Shaped(l, keys, st) && Concatenated(keys, st)
    ensures AllHold(l, keys, st)
  {
    var links := AllLinks(l, keys);
    forall s | 0 <= s < |links|
      ensures links[s].key in keys && links[s].local < l.Count(links[s].phase)
      ensures links[s].shared < l.Total() && Holds(l, keys, st, links[s])
    {
      var m, j := LinkDecompose(l, keys, s);
      assert keys[m] in keys;
    }
  }

  /** The meaning of state linking: the emitted equalities all hold exactly
      when, for each key, the shared engine vector is the climb-1, climb-2
      and cruise vectors laid end to end. */
  lemma LinkingMeansConcatenation(l: Layout, keys: seq<string>, st: States)
    requires Shaped(l, keys, st)
    ensures AllHold(l, keys, st) <==> Concatenated(keys, st)
  {
    if AllHold(l, keys, st) {
      HoldImpliesConcatenated(l, keys, st);
    }
    if Concatenated(keys, st) {
      ConcatenatedImpliesHold(l, keys, st);
    }
  }

  /** The source's 18 keys are pairwise distinct. */
  lemma StateVarKeysDistinct()
    ensures |StateVarKeys| == 18
    ensures forall a, b :: 0 <= a < b < |StateVarKeys| ==> StateVarKeys[a] != StateVarKeys[b]
  {
  }

  /** The linking model emits 18 * (N1 + N2 + N3) equalities, and each of the
      18 keys targets each shared slot exactly once. */
  lemma SourceLinking(l: Layout, m: nat, j: nat)
    requires m < 18 && j < l.Total()
    ensures |AllLinks(l, StateVarKeys)| == 18 * l.Total()
    ensures forall s :: 0 <= s < |AllLinks(l, StateVarKeys)| ==>
      (AllLinks(l, StateVarKeys)[s].key == StateVarKeys[m] && AllLinks(l, StateVarKeys)[s].shared == j
       <==> s == KeyOffset(l, m) + j)
  {
    StateVarKeysDistinct();
    LinkCount(l, StateVarKeys);
    KeyOffsetIsProduct(l, 18);
    ExactlyOnce(l, StateVarKeys, m, j);
  }
}
