/**
 * Bonds between Links: `Link.bond` / `Link.unbond` on one cell,
 * `pairBond` / `pairUnbond` on the grid, `bonded`, and the invariant the
 * source keeps by convention: every Link holds at most two distinct bond
 * directions and every bond is mirrored by the partner it points at.
 */
module Bonds {
  import opened Geometry
  import opened Grid

  /** `N.index(m.subtract(l))`: the direction from l to m. */
  function Direction(l: Vector, m: Vector): (d: int)
    requires IsOffset(m.Subtract(l))
    ensures 0 <= d < |N| && l.Add(N[d]) == m
  {
    IndexOf(m.Subtract(l))
  }

  /** `list.remove(x)`: drops the first occurrence of x. */
  function RemoveFirst<T(==)>(s: seq<T>, x: T): (r: seq<T>)
    requires x in s
    ensures |r| == |s| - 1
    ensures multiset(r) == multiset(s) - multiset{x}
    ensures forall y :: y in r ==> y in s
    ensures forall y :: y in s && y != x ==> y in r
  {
    assert s == [s[0]] + s[1..];
    if s[0] == x then s[1..] else [s[0]] + RemoveFirst(s[1..], x)
  }

  /** Without duplicates, the removed element is gone. */
  lemma {:induction false} RemoveFirstGone<T>(s: seq<T>, x: T)
    requires x in s && forall i, j :: 0 <= i < j < |s| ==> s[i] != s[j]
    ensures x !in RemoveFirst(s, x)
  {
    if s[0] != x {
      RemoveFirstGone(s[1..], x);
    } else {
      assert forall j :: 0 < j < |s| ==> s[j] != s[0];
    }
  }

  /** Removing from a list without duplicates leaves one without duplicates, lacking exactly x. */
  lemma {:induction false} RemoveFirstDistinct<T>(s: seq<T>, x: T)
    requires x in s && Distinct(s)
    ensures Distinct(RemoveFirst(s, x))
    ensures forall y :: y in RemoveFirst(s, x) <==> y in s && y != x
  {
    RemoveFirstGone(s, x);
    if s[0] != x {
      assert forall j :: 0 < j < |s| ==> s[j] != s[0];
      assert forall i, j :: 0 <= i < j < |s[1..]| ==> s[1..][i] == s[i + 1] && s[1..][j] == s[j + 1];
      RemoveFirstDistinct(s[1..], x);
      var t := RemoveFirst(s[1..], x);
      assert s[0] !in t;
      assert forall j :: 0 < j < |[s[0]] + t| ==> ([s[0]] + t)[j] == t[j - 1];
    }
  }

  /** Removing an element that was just appended (and not there before) restores the list. */
  lemma {:induction false} RemoveFirstOfAppended<T>(s: seq<T>, x: T)
    requires x !in s
    ensures RemoveFirst(s + [x], x) == s
  {
    if s != [] {
      assert (s + [x])[1..] == s[1..] + [x];
      RemoveFirstOfAppended(s[1..], x);
    }
  }

  /** `Link.bond(l, m)` on the Link at l: its assertions are the precondition. */
  function LinkBond(c: Cell, l: Vector, m: Vector): (r: Cell)
    requires c.Link? && |c.bonds| < 2
    requires IsOffset(m.Subtract(l)) && Direction(l, m) !in c.bonds
    ensures r.Link? && |r.bonds| == |c.bonds| + 1 <= 2
    ensures multiset(r.bonds) == multiset(c.bonds) + multiset{Direction(l, m)}
    ensures r.bonds[|r.bonds| - 1] == Direction(l, m)
  {
    Link(c.bonds + [Direction(l, m)])
  }

  /** `Link.unbond(l, m)` on the Link at l. */
  function LinkUnbond(c: Cell, l: Vector, m: Vector): (r: Cell)
    requires c.Link? && IsOffset(m.Subtract(l)) && Direction(l, m) in c.bonds
    ensures r.Link? && |r.bonds| == |c.bonds| - 1
    ensures multiset(r.bonds) == multiset(c.bonds) - multiset{Direction(l, m)}
  {
    Link(RemoveFirst(c.bonds, Direction(l, m)))
  }

  /** unbond undoes bond. */
  lemma UnbondUndoesBond(c: Cell, l: Vector, m: Vector)
    requires c.Link? && |c.bonds| < 2
    requires IsOffset(m.Subtract(l)) && Direction(l, m) !in c.bonds
    ensures LinkUnbond(LinkBond(c, l, m), l, m) == c
  {
    RemoveFirstOfAppended(c.bonds, Direction(l, m));
  }

  /** One bond direction d held at p is sound: it points at a Link that points back. */
  predicate BondOK(g: Grid, p: Vector, d: int, orth: bool)
    requires Shaped(g) && InGrid(p)
  {
    1 <= d < |N| && (orth ==> d < ORTHOGONAL)
    && InGrid(p.Add(N[d])) && At(g, p.Add(N[d])).Link? && Opp(d) in At(g, p.Add(N[d])).bonds
  }

  /** The bond list bs held at p: at most two, distinct, each sound. */
  predicate BondsOK(g: Grid, p: Vector, bs: seq<int>, orth: bool)
    requires Shaped(g) && InGrid(p)
  {
    |bs| <= 2 && (forall i, j :: 0 <= i < j < |bs| ==> bs[i] != bs[j])
    && forall b :: b in bs ==> BondOK(g, p, b, orth)
  }

  predicate LinkOK(g: Grid, p: Vector, orth: bool)
    requires Shaped(g) && InGrid(p)
  {
    At(g, p).Link? ==> BondsOK(g, p, At(g, p).bonds, orth)
  }

  /**
   * The bond invariant of the whole grid; with orth, every bond is also one of
   * the four orthogonal directions.
   */
  ghost predicate GridOK(g: Grid, orth: bool) {
    Shaped(g) && forall p {:trigger LinkOK(g, p, orth)} :: InGrid(p) ==> LinkOK(g, p, orth)
  }

  /** `bonded(l, m)`: l holds a bond in the direction of m. */
  predicate Bonded(g: Grid, l: Vector, m: Vector)
    requires Shaped(g) && InGrid(l) && At(g, l).Link?
  {
    IsOffset(m.Subtract(l)) && Direction(l, m) in At(g, l).bonds
  }

  /** A bond points at most at one cell, so a Link is bonded to at most two cells. */
  lemma BondedNeighbour(g: Grid, l: Vector, m: Vector, orth: bool)
    requires GridOK(g, orth) && InGrid(l) && At(g, l).Link? && Bonded(g, l, m)
    ensures l != m && InGrid(m) && At(g, m).Link? && IsBonded(At(g, m))
    ensures orth ==> OrthogonallyAdjacent(l, m)
  {
    var d := Direction(l, m);
    assert LinkOK(g, l, orth);
    assert BondOK(g, l, d, orth);
    Table(d);
    Table(Opp(d));
  }

  /** Under the invariant, `bonded` is symmetric. */
  lemma BondedSymmetric(g: Grid, l: Vector, m: Vector, orth: bool)
    requires GridOK(g, orth) && InGrid(l) && InGrid(m) && At(g, l).Link? && At(g, m).Link?
    ensures Bonded(g, l, m) <==> Bonded(g, m, l)
  {
    if Bonded(g, l, m) {
      BondedBack(g, l, m, orth);
    }
    if Bonded(g, m, l) {
      BondedBack(g, m, l, orth);
    }
  }

  lemma BondedBack(g: Grid, l: Vector, m: Vector, orth: bool)
    requires GridOK(g, orth) && InGrid(l) && InGrid(m) && At(g, l).Link? && At(g, m).Link?
    requires Bonded(g, l, m)
    ensures Bonded(g, m, l)
  {
    var d := Direction(l, m);
    assert LinkOK(g, l, orth);
    assert BondOK(g, l, d, orth);
    DirectionBack(l, m);
  }

  /** Under the invariant, every bond of the Link at p reaches a Link in one step that is bonded back to p. */
  lemma BondTargets(g: Grid, p: Vector, orth: bool)
    requires GridOK(g, orth) && InGrid(p) && At(g, p).Link?
    ensures forall b :: b in At(g, p).bonds ==>
      1 <= b < |N| && InGrid(p.Add(N[b])) && At(g, p.Add(N[b])).Link?
      && IsOffset(p.Add(N[b]).Subtract(p)) && Direction(p, p.Add(N[b])) == b
      && Bonded(g, p.Add(N[b]), p)
  {
    assert LinkOK(g, p, orth);
    forall b | b in At(g, p).bonds
      ensures 1 <= b < |N| && InGrid(p.Add(N[b])) && At(g, p.Add(N[b])).Link?
      ensures IsOffset(p.Add(N[b]).Subtract(p)) && Direction(p, p.Add(N[b])) == b
      ensures Bonded(g, p.Add(N[b]), p)
    {
      assert BondOK(g, p, b, orth);
      StepBack(p, b);
    }
  }

  /** Every bond of the Link at p reaches a different cell. */
  lemma TargetsDistinct(g: Grid, p: Vector, orth: bool, b: int, c: int)
    requires GridOK(g, orth) && InGrid(p) && LinkOK(g, p, orth) && At(g, p).Link?
    requires b in At(g, p).bonds && c in At(g, p).bonds && b != c
    ensures p.Add(N[b]) != p.Add(N[c])
  {
    assert LinkOK(g, p, orth);
    assert BondOK(g, p, b, orth) && BondOK(g, p, c, orth);
    DistinctDirections(p, b, c);
  }

  /**
   * What `pairBond(l, m)` needs so that neither `Link.bond` assertion fails:
   * two different Links at an offset in N, each with room for a bond, not
   * yet bonded to each other either way.
   */
  predicate CanBond(g: Grid, l: Vector, m: Vector)
    requires Shaped(g)
  {
    InGrid(l) && InGrid(m) && l != m && IsOffset(m.Subtract(l))
    && At(g, l).Link? && At(g, m).Link?
    && |At(g, l).bonds| < 2 && |At(g, m).bonds| < 2
    && !Bonded(g, l, m) && !Bonded(g, m, l)
  }

  /** `pairBond(l, m)` on the grid. */
  function WithBond(g: Grid, l: Vector, m: Vector): (r: Grid)
    requires Shaped(g) && CanBond(g, l, m)
    ensures Shaped(r)
  {
    DirectionBack(l, m);
    var g1 := Set(g, l, LinkBond(At(g, l), l, m));
    Set(g1, m, LinkBond(At(g1, m), m, l))
  }

  /** `pairUnbond(l, m)` on the grid: both `Link.unbond` assertions hold. */
  function WithoutBond(g: Grid, l: Vector, m: Vector): (r: Grid)
    requires Shaped(g) && InGrid(l) && InGrid(m) && l != m
    requires At(g, l).Link? && At(g, m).Link? && Bonded(g, l, m) && Bonded(g, m, l)
    ensures Shaped(r)
  {
    var g1 := Set(g, l, LinkUnbond(At(g, l), l, m));
    Set(g1, m, LinkUnbond(At(g1, m), m, l))
  }

  /** The cells WithBond changes, and how. */
  lemma WithBondCells(g: Grid, l: Vector, m: Vector)
    requires Shaped(g) && CanBond(g, l, m)
    ensures IsOffset(l.Subtract(m)) && Direction(m, l) == Opp(Direction(l, m))
    ensures At(WithBond(g, l, m), l) == Link(At(g, l).bonds + [Direction(l, m)])
    ensures At(WithBond(g, l, m), m) == Link(At(g, m).bonds + [Direction(m, l)])
    ensures forall q :: InGrid(q) && q != l && q != m ==> At(WithBond(g, l, m), q) == At(g, q)
  {
    DirectionBack(l, m);
  }

  /** The cells WithoutBond changes, and how. */
  lemma WithoutBondCells(g: Grid, l: Vector, m: Vector)
    requires Shaped(g) && InGrid(l) && InGrid(m) && l != m
    requires At(g, l).Link? && At(g, m).Link? && Bonded(g, l, m) && Bonded(g, m, l)
    ensures At(WithoutBond(g, l, m), l) == Link(RemoveFirst(At(g, l).bonds, Direction(l, m)))
    ensures At(WithoutBond(g, l, m), m) == Link(RemoveFirst(At(g, m).bonds, Direction(m, l)))
    ensures forall q :: InGrid(q) && q != l && q != m ==> At(WithoutBond(g, l, m), q) == At(g, q)
  {
  }

  /** After pairBond the two cells are bonded to each other, both ways. */
  lemma WithBondBonds(g: Grid, l: Vector, m: Vector)
    requires Shaped(g) && CanBond(g, l, m)
    ensures Bonded(WithBond(g, l, m), l, m) && Bonded(WithBond(g, l, m), m, l)
  {
    WithBondCells(g, l, m);
  }

  /** pairUnbond undoes pairBond. */
  lemma PairUnbondUndoesPairBond(g: Grid, l: Vector, m: Vector)
    requires Shaped(g) && CanBond(g, l, m)
    ensures var h := WithBond(g, l, m);
            Bonded(h, l, m) && Bonded(h, m, l) && WithoutBond(h, l, m) == g
  {
    WithBondBonds(g, l, m);
    var r := WithoutBond(WithBond(g, l, m), l, m);
    UndoCells(g, l, m);
    GridExt(r, g);
  }

  lemma UndoCells(g: Grid, l: Vector, m: Vector)
    requires Shaped(g) && CanBond(g, l, m)
    requires Bonded(WithBond(g, l, m), l, m) && Bonded(WithBond(g, l, m), m, l)
    ensures forall q :: InGrid(q) ==> At(WithoutBond(WithBond(g, l, m), l, m), q) == At(g, q)
  {
    var h := WithBond(g, l, m);
    var r := WithoutBond(h, l, m);
    WithBondCells(g, l, m);
    WithoutBondCells(h, l, m);
    forall q | InGrid(q)
      ensures At(r, q) == At(g, q)
    {
      if q == l {
        RemoveFirstOfAppended(At(g, l).bonds, Direction(l, m));
      } else if q == m {
        RemoveFirstOfAppended(At(g, m).bonds, Direction(m, l));
      }
    }
  }

  /** Every Link of g is a Link of h with at least the bonds it had. */
  ghost predicate Superset(g: Grid, h: Grid)
    requires Shaped(g) && Shaped(h)
  {
    forall q :: InGrid(q) && At(g, q).Link? ==>
      At(h, q).Link? && forall x :: x in At(g, q).bonds ==> x in At(h, q).bonds
  }

  lemma BondsOKGrow(g: Grid, h: Grid, p: Vector, bs: seq<int>, orth: bool)
    requires Shaped(g) && Shaped(h) && InGrid(p) && Superset(g, h)
    requires forall b :: b in bs ==> BondOK(g, p, b, orth)
    ensures forall b :: b in bs ==> BondOK(h, p, b, orth)
  {
  }

  /** pairBond keeps the bond invariant (with orth, for an orthogonal pair). */
  lemma WithBondKeepsOK(g: Grid, l: Vector, m: Vector, orth: bool)
    requires GridOK(g, orth) && CanBond(g, l, m)
    requires orth ==> OrthogonallyAdjacent(l, m)
    ensures GridOK(WithBond(g, l, m), orth)
  {
    forall p | InGrid(p)
      ensures LinkOK(WithBond(g, l, m), p, orth)
    {
      WithBondCellOK(g, l, m, orth, p);
    }
  }

  /** One cell of the grid after pairBond satisfies the bond invariant. */
  lemma WithBondCellOK(g: Grid, l: Vector, m: Vector, orth: bool, p: Vector)
    requires GridOK(g, orth) && CanBond(g, l, m)
    requires orth ==> OrthogonallyAdjacent(l, m)
    requires InGrid(p)
    ensures LinkOK(WithBond(g, l, m), p, orth)
  {
    var h := WithBond(g, l, m);
    WithBondCells(g, l, m);
    assert Superset(g, h);
    assert LinkOK(g, p, orth);
    if p == l || p == m {
      var d := Direction(l, m);
      Table(d);
      OppInvolutive(d);
      OrthogonallyAdjacentIff(l, m);
      BondsOKGrow(g, h, p, At(g, p).bonds, orth);
      if p == l {
        assert BondOK(h, l, d, orth);
      } else {
        assert BondOK(h, m, Direction(m, l), orth);
      }
    } else if At(h, p).Link? {
      BondsOKGrow(g, h, p, At(g, p).bonds, orth);
    }
  }

  /**
   * The endpoint p of an unbonded pair (p, y): its remaining bond points
   * elsewhere than y, at a cell that did not change.
   */
  lemma UnbondedEndOK(g: Grid, h: Grid, p: Vector, y: Vector, orth: bool)
    requires GridOK(g, orth) && Shaped(h) && InGrid(p) && InGrid(y) && p != y
    requires At(g, p).Link? && Bonded(g, p, y)
    requires At(h, p) == Link(RemoveFirst(At(g, p).bonds, Direction(p, y)))
    requires forall q :: InGrid(q) && q != p && q != y ==> At(h, q) == At(g, q)
    ensures LinkOK(h, p, orth)
  {
    var bs := At(g, p).bonds;
    var x := Direction(p, y);
    assert LinkOK(g, p, orth);
    RemoveFirstGone(bs, x);
    forall b | b in At(h, p).bonds
      ensures BondOK(h, p, b, orth)
    {
      assert BondOK(g, p, b, orth);
      TargetsDistinct(g, p, orth, b, x);
      Table(b);
      DistinctDirections(p, b, 0);
    }
  }

  /** A cell other than l and m keeps its bonds, and each still points at a cell that points back. */
  lemma UnbondedOtherOK(g: Grid, h: Grid, l: Vector, m: Vector, orth: bool, p: Vector)
    requires GridOK(g, orth) && InGrid(l) && InGrid(m) && l != m
    requires At(g, l).Link? && At(g, m).Link? && Bonded(g, l, m) && Bonded(g, m, l)
    requires h == WithoutBond(g, l, m)
    requires InGrid(p) && p != l && p != m
    ensures LinkOK(h, p, orth)
  {
    WithoutBondCells(g, l, m);
    assert LinkOK(g, p, orth);
    if At(h, p).Link? {
      forall b | b in At(h, p).bonds
        ensures BondOK(h, p, b, orth)
      {
        assert BondOK(g, p, b, orth);
        var q := p.Add(N[b]);
        StepBack(p, b);
        if q == l || q == m {
          var y := if q == l then m else l;
          assert q.Add(N[Direction(q, y)]) == y;
          assert q.Add(N[Opp(b)]) == p;
          assert Opp(b) != Direction(q, y);
        }
      }
    }
  }

  /** pairUnbond keeps the bond invariant. */
  lemma WithoutBondKeepsOK(g: Grid, l: Vector, m: Vector, orth: bool)
    requires GridOK(g, orth) && InGrid(l) && InGrid(m) && l != m
    requires At(g, l).Link? && At(g, m).Link? && Bonded(g, l, m) && Bonded(g, m, l)
    ensures GridOK(WithoutBond(g, l, m), orth)
  {
    forall p | InGrid(p)
      ensures LinkOK(WithoutBond(g, l, m), p, orth)
    {
      WithoutBondCells(g, l, m);
      if p == l {
        UnbondedEndOK(g, WithoutBond(g, l, m), l, m, orth);
      } else if p == m {
        UnbondedEndOK(g, WithoutBond(g, l, m), m, l, orth);
      } else {
        UnbondedOtherOK(g, WithoutBond(g, l, m), l, m, orth, p);
      }
    }
  }
}
