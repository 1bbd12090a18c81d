/** The mission-point layout. A mission has Nclimb1 climb-1 points, Nclimb2
    climb-2 points and Ncruise cruise points; one shared engine-state vector of
    length Nclimb1 + Nclimb2 + Ncruise holds them as three contiguous blocks:
    climb-1 at [0, N1), climb-2 at [N1, N1 + N2), cruise at [N1 + N2, N). */
module Partition {

  datatype Phase = Climb1 | Climb2 | Cruise

  /** The point counts of the three phases. */
  datatype Layout = Layout(n1: nat, n2: nat, n3: nat) {

    /** Length of the shared engine-state vector. */
    function Total(): nat { n1 + n2 + n3 }

    function Count(p: Phase): nat {
      match p
      case Climb1 => n1
      case Climb2 => n2
      case Cruise => n3
    }

    /** First shared index of a phase's block. */
    function Offset(p: Phase): nat {
      match p
      case Climb1 => 0
      case Climb2 => n1
      case Cruise => n1 + n2
    }
  }

  /** The shared-vector slot of local point `i` of phase `p`. */
  function SharedIndex(l: Layout, p: Phase, i: nat): (j: nat)
    requires i < l.Count(p)
    ensures l.Offset(p) <= j < l.Offset(p) + l.Count(p) <= l.Total()
  {
    l.Offset(p) + i
  }

  /** The phase and local point that own shared slot `j`. */
  function Locate(l: Layout, j: nat): (r: (Phase, nat))
    requires j < l.Total()
    ensures r.1 < l.Count(r.0)
    ensures SharedIndex(l, r.0, r.1) == j
  {
    if j < l.n1 then (Climb1, j)
    else if j < l.n1 + l.n2 then (Climb2, j - l.n1)
    else (Cruise, j - l.n1 - l.n2)
  }

  /** Distinct local points never share a slot: SharedIndex is injective and
      Locate is its inverse, so the three blocks partition [0, N). */
  lemma LocateInvertsSharedIndex(l: Layout, p: Phase, i: nat)
    requires i < l.Count(p)
    ensures Locate(l, SharedIndex(l, p, i)) == (p, i)
  {
  }

  /** A per-point engine array sliced the way the mission does it:
      `[:N1]`, `[N1:N1+N2]` and `[N1+N2:]`. */
  function Slice<T>(l: Layout, a: seq<T>, p: Phase): (s: seq<T>)
    requires |a| == l.Total()
    ensures |s| == l.Count(p)
    ensures forall i :: 0 <= i < |s| ==> s[i] == a[SharedIndex(l, p, i)]
  {
    match p
    case Climb1 => a[..l.n1]
    case Climb2 => a[l.n1..l.n1 + l.n2]
    case Cruise => a[l.n1 + l.n2..]
  }

  /** The three slices put back together give the whole array. */
  lemma SlicesReassemble<T>(l: Layout, a: seq<T>)
    requires |a| == l.Total()
    ensures Slice(l, a, Climb1) + Slice(l, a, Climb2) + Slice(l, a, Cruise) == a
  {
    assert a == a[..l.n1] + a[l.n1..l.n1 + l.n2] + a[l.n1 + l.n2..];
  }

  /** Slicing the concatenation of three phase arrays gives each one back. */
  lemma SliceOfJoin<T>(l: Layout, x: seq<T>, y: seq<T>, z: seq<T>)
    requires |x| == l.n1 && |y| == l.n2 && |z| == l.n3
    ensures Slice(l, x + y + z, Climb1) == x
    ensures Slice(l, x + y + z, Climb2) == y
    ensures Slice(l, x + y + z, Cruise) == z
  {
    var a := x + y + z;
    assert a[..l.n1] == x;
    assert a[l.n1..l.n1 + l.n2] == y;
    assert a[l.n1 + l.n2..] == z;
  }
}
