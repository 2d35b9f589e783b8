/**
 * Coordinates, offsets and the two neighbourhood tables of the discrete
 * autopoiesis automaton, with the small distance predicates
 * (inRange, orthogonallyAdjacent, adjacent, acute) that the rules use.
 */
module Geometry {

  /** Side of the square grid. */
  const SIZE: int := 10

  /** N[1..ORTHOGONAL) is the orthogonal slice of N. */
  const ORTHOGONAL: int := 5

  /** A grid coordinate or an offset; value semantics as in the source. */
  datatype Vector = Vector(x: int, y: int) {
    function Add(v: Vector): Vector { Vector(x + v.x, y + v.y) }
    function Subtract(v: Vector): Vector { Vector(x - v.x, y - v.y) }
    function Negate(): Vector { Vector(-x, -y) }
  }

  function Abs(n: int): nat { if n < 0 then -n else n }

  function Manhattan(a: Vector, b: Vector): nat { Abs(a.x - b.x) + Abs(a.y - b.y) }

  predicate InGrid(p: Vector) { 0 <= p.x < SIZE && 0 <= p.y < SIZE }

  /** `inRange(c, n)`: the cell c + n lies on the grid. */
  predicate InRange(c: Vector, n: Vector) { InGrid(c.Add(n)) }

  /** Manhattan distance 1. */
  predicate OrthogonallyAdjacent(a: Vector, b: Vector) { Manhattan(a, b) == 1 }

  /** Orthogonally or diagonally adjacent (or equal). */
  predicate Adjacent(a: Vector, b: Vector) {
    Manhattan(a, b) <= 2 && Abs(a.x - b.x) < 2 && Abs(a.y - b.y) < 2
  }

  /** `acute(a, b)`: Manhattan distance greater than 1. */
  predicate Acute(a: Vector, b: Vector) { Manhattan(a, b) > 1 }

  /** The Moore neighbourhood: self, then the four orthogonal, then the four diagonal offsets. */
  const N: seq<Vector> :=
    [Vector(0, 0), Vector(-1, 0), Vector(0, -1), Vector(1, 0), Vector(0, 1),
     Vector(-1, 1), Vector(-1, -1), Vector(1, -1), Vector(1, 1)]

  /** The prime neighbourhood, indexed to line up with N[0..ORTHOGONAL). */
  const N_PRIME: seq<Vector> :=
    [Vector(0, 0), Vector(0, -2), Vector(-2, 0), Vector(0, 2), Vector(2, 0)]

  /** The offsets that occur in N. */
  predicate IsOffset(v: Vector) { -1 <= v.x <= 1 && -1 <= v.y <= 1 }

  /** Every offset with both components in -1..1 occurs in N. */
  lemma OffsetInN(v: Vector)
    requires IsOffset(v)
    ensures v in N
  {
    if v.x == -1 {
      if v.y == -1 { assert v == N[6]; } else if v.y == 0 { assert v == N[1]; } else { assert v == N[5]; }
    } else if v.x == 0 {
      if v.y == -1 { assert v == N[2]; } else if v.y == 0 { assert v == N[0]; } else { assert v == N[4]; }
    } else {
      if v.y == -1 { assert v == N[7]; } else if v.y == 0 { assert v == N[3]; } else { assert v == N[8]; }
    }
  }

  /** `N.index(v)`: the position of the first occurrence of v in N. */
  function IndexOf(v: Vector): (k: nat)
    requires IsOffset(v)
    ensures k < |N| && N[k] == v
  {
    OffsetInN(v);
    IndexFrom(v, 0)
  }

  /** The first index at or after i holding v. */
  function IndexFrom(v: Vector, i: nat): (k: nat)
    requires i <= |N| && v in N[i..]
    ensures i <= k < |N| && N[k] == v
    decreases |N| - i
  {
    if N[i] == v then i
    else
      assert v in N[i + 1..] by {
        assert N[i..] == [N[i]] + N[i + 1..];
      }
      IndexFrom(v, i + 1)
  }

  /** No offset occurs twice in N, so IndexOf(v) is the only k with N[k] == v. */
  lemma IndexUnique(v: Vector, k: int)
    requires 0 <= k < |N| && N[k] == v
    ensures IsOffset(v) && IndexOf(v) == k
  {
    if k == 0 {} else if k == 1 {} else if k == 2 {} else if k == 3 {}
    else if k == 4 {} else if k == 5 {} else if k == 6 {} else if k == 7 {} else {}
  }

  /** Facts about one entry of N, proved by looking the entry up. */
  lemma Table(k: int)
    requires 0 <= k < |N|
    ensures IsOffset(N[k]) && IndexOf(N[k]) == k
    ensures k == 0 <==> N[k] == Vector(0, 0)
    ensures 1 <= k < ORTHOGONAL <==> Manhattan(N[k], Vector(0, 0)) == 1
    ensures k < ORTHOGONAL ==> k == 0 || Manhattan(N[k], Vector(0, 0)) == 1
  {
    IndexUnique(N[k], k);
    if k == 0 {} else if k == 1 {} else if k == 2 {} else if k == 3 {}
    else if k == 4 {} else if k == 5 {} else if k == 6 {} else if k == 7 {} else {}
  }

  /** `v in N` holds exactly for the offsets with both components in -1..1. */
  lemma InNIffOffset(v: Vector)
    ensures v in N <==> IsOffset(v)
  {
    if v in N {
      var k :| 0 <= k < |N| && N[k] == v;
      Table(k);
    }
  }

  /** The direction pointing back, `N.index(-N[d])` in the source. */
  function Opp(d: int): (e: nat)
    requires 0 <= d < |N|
    ensures e < |N|
  {
    if d == 0 then 0
    else if d == 1 then 3 else if d == 2 then 4 else if d == 3 then 1 else if d == 4 then 2
    else if d == 5 then 7 else if d == 6 then 8 else if d == 7 then 5 else 6
  }

  /** Opp(d) is the direction of the negated offset, as `N.index(-N[d])` computes it. */
  lemma OppNegates(d: int)
    requires 0 <= d < |N|
    ensures N[Opp(d)] == N[d].Negate()
    ensures IsOffset(N[d].Negate()) && Opp(d) == IndexOf(N[d].Negate())
  {
    OppNegatesEntry(d);
    Table(Opp(d));
  }

  lemma OppNegatesEntry(d: int)
    requires 0 <= d < |N|
    ensures N[Opp(d)] == N[d].Negate()
  {
    if d == 0 {} else if d == 1 {} else if d == 2 {} else if d == 3 {}
    else if d == 4 {} else if d == 5 {} else if d == 6 {} else if d == 7 {} else {}
  }

  /** Opp is an involution on the directions 1..8 and keeps the orthogonal ones orthogonal. */
  lemma OppInvolutive(d: int)
    requires 1 <= d < |N|
    ensures 1 <= Opp(d) < |N| && Opp(Opp(d)) == d
    ensures d < ORTHOGONAL <==> Opp(d) < ORTHOGONAL
  {
    if d == 1 {} else if d == 2 {} else if d == 3 {} else if d == 4 {}
    else if d == 5 {} else if d == 6 {} else if d == 7 {} else {}
  }

  /** The direction from l to m read at m points back at l. */
  lemma DirectionBack(l: Vector, m: Vector)
    requires IsOffset(m.Subtract(l))
    ensures IsOffset(l.Subtract(m))
    ensures l.Add(N[IndexOf(m.Subtract(l))]) == m
    ensures IndexOf(l.Subtract(m)) == Opp(IndexOf(m.Subtract(l)))
    ensures l != m <==> IndexOf(m.Subtract(l)) != 0
  {
    DirectionSelf(l, m);
    DirectionOpposite(l, m);
  }

  lemma DirectionSelf(l: Vector, m: Vector)
    requires IsOffset(m.Subtract(l))
    ensures l.Add(N[IndexOf(m.Subtract(l))]) == m
    ensures l != m <==> IndexOf(m.Subtract(l)) != 0
  {
    var d := IndexOf(m.Subtract(l));
    Table(d);
    assert l == m <==> m.Subtract(l) == Vector(0, 0);
  }

  lemma DirectionOpposite(l: Vector, m: Vector)
    requires IsOffset(m.Subtract(l))
    ensures IsOffset(l.Subtract(m))
    ensures IndexOf(l.Subtract(m)) == Opp(IndexOf(m.Subtract(l)))
  {
    NegatedIndex(m.Subtract(l), l.Subtract(m));
  }

  /** The index of a negated offset is the opposite direction. */
  lemma NegatedIndex(v: Vector, w: Vector)
    requires IsOffset(v) && w == v.Negate()
    ensures IsOffset(w) && IndexOf(w) == Opp(IndexOf(v))
  {
    var d := IndexOf(v);
    OppNegatesEntry(d);
    IndexUnique(w, Opp(d));
  }

  /** Stepping along d and then along Opp(d) returns to the start. */
  lemma StepBack(p: Vector, d: int)
    requires 1 <= d < |N|
    ensures p.Add(N[d]).Add(N[Opp(d)]) == p
    ensures IsOffset(p.Subtract(p.Add(N[d]))) && IndexOf(p.Subtract(p.Add(N[d]))) == Opp(d)
    ensures IsOffset(p.Add(N[d]).Subtract(p)) && IndexOf(p.Add(N[d]).Subtract(p)) == d
  {
    Table(d);
    OppNegates(d);
    Table(Opp(d));
    assert p.Add(N[d]).Subtract(p) == N[d];
    assert p.Subtract(p.Add(N[d])) == N[Opp(d)];
  }

  /** If two cells point at each other, the two directions are opposite. */
  lemma MutualDirections(p: Vector, d: int, e: int)
    requires 1 <= d < |N| && 1 <= e < |N|
    requires p.Add(N[d]).Add(N[e]) == p
    ensures e == Opp(d)
  {
    OppNegatesEntry(d);
    assert N[e] == N[Opp(d)];
    IndexUnique(N[e], e);
    IndexUnique(N[e], Opp(d));
  }

  /** Two different directions from one cell reach two different cells. */
  lemma DistinctDirections(p: Vector, d: int, e: int)
    requires 0 <= d < |N| && 0 <= e < |N| && d != e
    ensures p.Add(N[d]) != p.Add(N[e])
  {
    Table(d);
    Table(e);
  }

  /**
   * N_PRIME[k] is not 2*N[k]: it is 2*N[k] with x and y swapped, so the
   * cell "through" an orthogonal neighbour h + N[k] that the rules inspect,
   * h + N_PRIME[k], is at Manhattan distance 3 from that neighbour and not in line with it.
   */
  lemma PrimeIsTransposed(h: Vector, k: int)
    requires 1 <= k < ORTHOGONAL
    ensures N_PRIME[k] == Vector(2 * N[k].y, 2 * N[k].x)
    ensures N_PRIME[k] != Vector(2 * N[k].x, 2 * N[k].y)
    ensures Manhattan(h.Add(N[k]), h.Add(N_PRIME[k])) == 3
  {
    if k == 1 {} else if k == 2 {} else if k == 3 {} else {}
  }

  /** Orthogonal adjacency is being one of the offsets N[1..ORTHOGONAL) apart. */
  lemma OrthogonallyAdjacentIff(a: Vector, b: Vector)
    ensures OrthogonallyAdjacent(a, b) <==> IsOffset(b.Subtract(a)) && 1 <= IndexOf(b.Subtract(a)) < ORTHOGONAL
  {
    if IsOffset(b.Subtract(a)) {
      Table(IndexOf(b.Subtract(a)));
    }
  }

  /** `adjacent` is membership in the Moore neighbourhood N (self included). */
  lemma AdjacentIffMoore(a: Vector, b: Vector)
    ensures Adjacent(a, b) <==> b.Subtract(a) in N
  {
    InNIffOffset(b.Subtract(a));
  }

  /** `acute` holds exactly for two different cells that are not orthogonally adjacent. */
  lemma AcuteIff(a: Vector, b: Vector)
    ensures Acute(a, b) <==> a != b && !OrthogonallyAdjacent(a, b)
  {
  }

  lemma AcuteSymmetric(a: Vector, b: Vector)
    ensures Acute(a, b) == Acute(b, a)
  {
  }

  /** `N[1:]`: the eight neighbours, in the order of N. */
  const MOORE: seq<Vector> :=
    [Vector(-1, 0), Vector(0, -1), Vector(1, 0), Vector(0, 1),
     Vector(-1, 1), Vector(-1, -1), Vector(1, -1), Vector(1, 1)]

  /** `N[1:ORTHOGONAL]`: the four orthogonal neighbours. */
  const ORTHO: seq<Vector> := [Vector(-1, 0), Vector(0, -1), Vector(1, 0), Vector(0, 1)]

  /** `N_PRIME[1:]`: the four cells two steps away orthogonally. */
  const PRIME: seq<Vector> := [Vector(0, -2), Vector(-2, 0), Vector(0, 2), Vector(2, 0)]

  /** The three constants are the slices of N and N_PRIME the source takes. */
  lemma Slices()
    ensures MOORE == N[1..] && ORTHO == N[1..ORTHOGONAL] && PRIME == N_PRIME[1..]
  {
  }

  /** `N[1:]` holds the eight offsets other than (0, 0), each once. */
  lemma MooreMembers(v: Vector)
    ensures v in MOORE <==> IsOffset(v) && v != Vector(0, 0)
    ensures forall i, j :: 0 <= i < j < |MOORE| ==> MOORE[i] != MOORE[j]
  {
  }

  /** `N[1:ORTHOGONAL]` holds the four offsets at Manhattan distance 1, each once, all in `N[1:]`. */
  lemma OrthoMembers(v: Vector)
    ensures v in ORTHO <==> Manhattan(v, Vector(0, 0)) == 1
    ensures forall i, j :: 0 <= i < j < |ORTHO| ==> ORTHO[i] != ORTHO[j]
    ensures forall i :: 0 <= i < |ORTHO| ==> ORTHO[i] in MOORE
  {
  }

  /** Bond direction d is one of the offsets of `N[1:]`, and of `N[1:ORTHOGONAL]` when below ORTHOGONAL. */
  lemma DirectionInHood(d: int)
    requires 1 <= d < |N|
    ensures N[d] in MOORE
    ensures d < ORTHOGONAL ==> N[d] in ORTHO
  {
    if d == 1 {} else if d == 2 {} else if d == 3 {} else if d == 4 {}
    else if d == 5 {} else if d == 6 {} else if d == 7 {} else {}
  }
}
