/**
 * The cell moves the motion rules are built from, and what they keep: a
 * move of unbonded occupants never disturbs a bond, and a move that only
 * permutes cells keeps every count; a bond change keeps the kind counts.
 */
module Moves {
  import opened Geometry
  import opened Grid
  import opened Bonds

  /** The Hole, Substrate, Catalyst and Link counts agree. */
  ghost predicate SameKindCounts(g: Grid, h: Grid)
    requires Shaped(g) && Shaped(h)
  {
    Count(g, Cells(HoleK)) == Count(h, Cells(HoleK))
    && Count(g, Cells(SubstrateK)) == Count(h, Cells(SubstrateK))
    && Count(g, Cells(CatalystK)) == Count(h, Cells(CatalystK))
    && Count(g, Cells(LinkK)) == Count(h, Cells(LinkK))
  }

  /** Replacing two Links by Links changes one measure by the two cells' weights. */
  lemma SetTwo(g: Grid, l: Vector, c1: Cell, m: Vector, c2: Cell, w: Measure)
    requires Shaped(g) && InGrid(l) && InGrid(m) && l != m
    ensures Count(Set(Set(g, l, c1), m, c2), w) + Weight(At(g, l), w) + Weight(At(g, m), w)
            == Count(g, w) + Weight(c1, w) + Weight(c2, w)
  {
    var g1 := Set(g, l, c1);
    assert At(g1, m) == At(g, m);
    SetCount(g, l, c1, w);
    SetCount(g1, m, c2, w);
  }

  /** Replacing two Links by Links changes no kind count; the bond ends change by the lengths. */
  lemma SetTwoLinks(g: Grid, l: Vector, c1: Cell, m: Vector, c2: Cell)
    requires Shaped(g) && InGrid(l) && InGrid(m) && l != m
    requires At(g, l).Link? && At(g, m).Link? && c1.Link? && c2.Link?
    ensures SameKindCounts(g, Set(Set(g, l, c1), m, c2))
    ensures Count(Set(Set(g, l, c1), m, c2), BondEnds) + |At(g, l).bonds| + |At(g, m).bonds|
            == Count(g, BondEnds) + |c1.bonds| + |c2.bonds|
  {
    SetTwo(g, l, c1, m, c2, Cells(HoleK));
    SetTwo(g, l, c1, m, c2, Cells(SubstrateK));
    SetTwo(g, l, c1, m, c2, Cells(CatalystK));
    SetTwo(g, l, c1, m, c2, Cells(LinkK));
    SetTwo(g, l, c1, m, c2, BondEnds);
  }

  /** pairBond adds two bond ends and changes no kind count. */
  lemma WithBondCounts(g: Grid, l: Vector, m: Vector)
    requires Shaped(g) && CanBond(g, l, m)
    ensures SameKindCounts(g, WithBond(g, l, m))
    ensures Count(WithBond(g, l, m), BondEnds) == Count(g, BondEnds) + 2
  {
    DirectionBack(l, m);
    var c1 := LinkBond(At(g, l), l, m);
    var g1 := Set(g, l, c1);
    var c2 := LinkBond(At(g1, m), m, l);
    SetTwoLinks(g, l, c1, m, c2);
  }

  /** pairUnbond removes two bond ends and changes no kind count. */
  lemma WithoutBondCounts(g: Grid, l: Vector, m: Vector)
    requires Shaped(g) && InGrid(l) && InGrid(m) && l != m
    requires At(g, l).Link? && At(g, m).Link? && Bonded(g, l, m) && Bonded(g, m, l)
    ensures SameKindCounts(g, WithoutBond(g, l, m))
    ensures Count(WithoutBond(g, l, m), BondEnds) + 2 == Count(g, BondEnds)
  {
    var c1 := LinkUnbond(At(g, l), l, m);
    var g1 := Set(g, l, c1);
    var c2 := LinkUnbond(At(g1, m), m, l);
    SetTwoLinks(g, l, c1, m, c2);
  }

  /**
   * Every cell that holds a bonded Link in either grid holds the same
   * value in both: bonds neither moved nor changed.
   */
  ghost predicate BondedFixed(g: Grid, h: Grid)
    requires Shaped(g) && Shaped(h)
  {
    (forall q :: InGrid(q) && IsBonded(At(g, q)) ==> At(h, q) == At(g, q))
    && (forall q :: InGrid(q) && IsBonded(At(h, q)) ==> At(h, q) == At(g, q))
  }

  lemma BondedFixedTransitive(g: Grid, h: Grid, k: Grid)
    requires Shaped(g) && Shaped(h) && Shaped(k)
    requires BondedFixed(g, h) && BondedFixed(h, k)
    ensures BondedFixed(g, k)
  {
  }

  /** Moving unbonded occupants around keeps the bond invariant. */
  lemma BondedFixedKeepsOK(g: Grid, h: Grid, orth: bool)
    requires GridOK(g, orth) && Shaped(h) && BondedFixed(g, h)
    ensures GridOK(h, orth)
  {
    forall p | InGrid(p)
      ensures LinkOK(h, p, orth)
    {
      assert LinkOK(g, p, orth);
      if At(h, p).Link? && At(h, p).bonds != [] {
        forall b | b in At(h, p).bonds
          ensures BondOK(h, p, b, orth)
        {
          assert BondOK(g, p, b, orth);
        }
      }
    }
  }

  /** Writing an unbonded value over an unbonded cell fixes every bonded cell. */
  lemma SetUnbonded(g: Grid, p: Vector, v: Cell)
    requires Shaped(g) && InGrid(p) && !IsBonded(At(g, p)) && !IsBonded(v)
    ensures BondedFixed(g, Set(g, p, v))
  {
  }

  /** `swap = cell(q); setCell(q, cell(p)); setCell(p, swap)`. */
  function Swap(g: Grid, p: Vector, q: Vector): (r: Grid)
    requires Shaped(g) && InGrid(p) && InGrid(q)
    ensures Shaped(r)
  {
    Set(Set(g, q, At(g, p)), p, At(g, q))
  }

  /**
   * The rotation of `displaceS`: the cell at s moves into p, the cell at z
   * into s, and z becomes a hole.
   */
  function Rotate(g: Grid, z: Vector, s: Vector, p: Vector): (r: Grid)
    requires Shaped(g) && InGrid(z) && InGrid(s) && InGrid(p)
    ensures Shaped(r)
  {
    var g1 := Set(g, p, At(g, s));
    var g2 := Set(g1, s, At(g1, z));
    Set(g2, z, Hole)
  }

  /** A swap exchanges two cells and leaves every other cell alone. */
  lemma SwapCells(g: Grid, p: Vector, q: Vector)
    requires Shaped(g) && InGrid(p) && InGrid(q)
    ensures At(Swap(g, p, q), p) == At(g, q) && At(Swap(g, p, q), q) == At(g, p)
    ensures forall x :: InGrid(x) && x != p && x != q ==> At(Swap(g, p, q), x) == At(g, x)
  {
  }

  /** A swap of two unbonded cells keeps every count and every bonded cell. */
  lemma SwapKeeps(g: Grid, p: Vector, q: Vector)
    requires Shaped(g) && InGrid(p) && InGrid(q)
    requires !IsBonded(At(g, p)) && !IsBonded(At(g, q))
    ensures forall m :: Count(Swap(g, p, q), m) == Count(g, m)
    ensures BondedFixed(g, Swap(g, p, q))
  {
    var g1 := Set(g, q, At(g, p));
    CountAfterSet(g, q, At(g, p));
    CountAfterSet(g1, p, At(g, q));
    if p != q {
      assert At(g1, p) == At(g, p);
    }
    SetUnbonded(g, q, At(g, p));
    SetUnbonded(g1, p, At(g, q));
    BondedFixedTransitive(g, g1, Swap(g, p, q));
  }

  /** The cells a rotation changes, and how. */
  lemma RotateCells(g: Grid, z: Vector, s: Vector, p: Vector)
    requires Shaped(g) && InGrid(z) && InGrid(s) && InGrid(p)
    requires z != s && s != p && p != z
    ensures At(Rotate(g, z, s, p), p) == At(g, s)
    ensures At(Rotate(g, z, s, p), s) == At(g, z)
    ensures At(Rotate(g, z, s, p), z) == Hole
    ensures forall x :: InGrid(x) && x != z && x != s && x != p ==> At(Rotate(g, z, s, p), x) == At(g, x)
  {
  }

  /** Rotating unbonded cells through a hole keeps every count and every bonded cell. */
  lemma RotateKeeps(g: Grid, z: Vector, s: Vector, p: Vector)
    requires Shaped(g) && InGrid(z) && InGrid(s) && InGrid(p)
    requires z != s && s != p && p != z && At(g, p) == Hole
    requires !IsBonded(At(g, z)) && !IsBonded(At(g, s))
    ensures forall m :: Count(Rotate(g, z, s, p), m) == Count(g, m)
    ensures BondedFixed(g, Rotate(g, z, s, p))
  {
    var g1 := Set(g, p, At(g, s));
    var g2 := Set(g1, s, At(g1, z));
    CountAfterSet(g, p, At(g, s));
    CountAfterSet(g1, s, At(g1, z));
    CountAfterSet(g2, z, Hole);
    SetUnbonded(g, p, At(g, s));
    SetUnbonded(g1, s, At(g1, z));
    SetUnbonded(g2, z, Hole);
    BondedFixedTransitive(g, g1, g2);
    BondedFixedTransitive(g, g2, Rotate(g, z, s, p));
  }

  /** `setCell(h, cell(q)); setCell(q, None)`: the occupant of q moves into h. */
  function Fill(g: Grid, h: Vector, q: Vector): (r: Grid)
    requires Shaped(g) && InGrid(h) && InGrid(q)
    ensures Shaped(r)
  {
    Set(Set(g, h, At(g, q)), q, Hole)
  }

  /** Moving an unbonded occupant into a hole keeps every count and every bonded cell. */
  lemma FillKeeps(g: Grid, h: Vector, q: Vector)
    requires Shaped(g) && InGrid(h) && InGrid(q) && h != q
    requires At(g, h).Hole? && !IsBonded(At(g, q))
    ensures At(Fill(g, h, q), h) == At(g, q) && At(Fill(g, h, q), q) == Hole
    ensures forall x :: InGrid(x) && x != h && x != q ==> At(Fill(g, h, q), x) == At(g, x)
    ensures forall m :: Count(Fill(g, h, q), m) == Count(g, m)
    ensures BondedFixed(g, Fill(g, h, q))
  {
    var g1 := Set(g, h, At(g, q));
    CountAfterSet(g, h, At(g, q));
    CountAfterSet(g1, q, Hole);
    SetUnbonded(g, h, At(g, q));
    SetUnbonded(g1, q, Hole);
    BondedFixedTransitive(g, g1, Fill(g, h, q));
  }

  /**
   * Moving a Catalyst onto a Substrate destroys the Substrate: one
   * Substrate fewer, one hole more, every other count kept.
   */
  lemma FillOverSubstrate(g: Grid, h: Vector, q: Vector)
    requires Shaped(g) && InGrid(h) && InGrid(q) && h != q
    requires At(g, h).Substrate? && At(g, q).Catalyst?
    ensures At(Fill(g, h, q), h) == Catalyst && At(Fill(g, h, q), q) == Hole
    ensures forall x :: InGrid(x) && x != h && x != q ==> At(Fill(g, h, q), x) == At(g, x)
    ensures Count(Fill(g, h, q), Cells(SubstrateK)) + 1 == Count(g, Cells(SubstrateK))
    ensures Count(Fill(g, h, q), Cells(HoleK)) == Count(g, Cells(HoleK)) + 1
    ensures Count(Fill(g, h, q), Cells(CatalystK)) == Count(g, Cells(CatalystK))
    ensures Count(Fill(g, h, q), Cells(LinkK)) == Count(g, Cells(LinkK))
    ensures Count(Fill(g, h, q), BondEnds) == Count(g, BondEnds)
    ensures BondedFixed(g, Fill(g, h, q))
  {
    CatalystOverSubstrateCounts(g, h, q);
    var g1 := Set(g, h, At(g, q));
    SetUnbonded(g, h, Catalyst);
    SetUnbonded(g1, q, Hole);
    BondedFixedTransitive(g, g1, Fill(g, h, q));
  }

  lemma CatalystOverSubstrateCounts(g: Grid, h: Vector, q: Vector)
    requires Shaped(g) && InGrid(h) && InGrid(q) && h != q
    requires At(g, h).Substrate? && At(g, q).Catalyst?
    ensures var r := Set(Set(g, h, Catalyst), q, Hole);
      Count(r, Cells(SubstrateK)) + 1 == Count(g, Cells(SubstrateK))
      && Count(r, Cells(HoleK)) == Count(g, Cells(HoleK)) + 1
      && Count(r, Cells(CatalystK)) == Count(g, Cells(CatalystK))
      && Count(r, Cells(LinkK)) == Count(g, Cells(LinkK))
      && Count(r, BondEnds) == Count(g, BondEnds)
  {
    SetTwo(g, h, Catalyst, q, Hole, Cells(SubstrateK));
    SetTwo(g, h, Catalyst, q, Hole, Cells(HoleK));
    SetTwo(g, h, Catalyst, q, Hole, Cells(CatalystK));
    SetTwo(g, h, Catalyst, q, Hole, Cells(LinkK));
    SetTwo(g, h, Catalyst, q, Hole, BondEnds);
  }

  /**
   * h differs from g only in bonds added to Links: no cell changes kind,
   * and every Link keeps its bond list as a prefix.
   */
  ghost predicate BondsAdded(g: Grid, h: Grid)
    requires Shaped(g) && Shaped(h)
  {
    forall q :: InGrid(q) ==>
      if At(g, q).Link? then At(h, q).Link? && At(g, q).bonds <= At(h, q).bonds
      else At(h, q) == At(g, q)
  }

  lemma BondsAddedTransitive(g: Grid, h: Grid, k: Grid)
    requires Shaped(g) && Shaped(h) && Shaped(k) && BondsAdded(g, h) && BondsAdded(h, k)
    ensures BondsAdded(g, k)
  {
    forall q | InGrid(q) && At(g, q).Link?
      ensures At(g, q).bonds <= At(k, q).bonds
    {
      var x, y, z := At(g, q).bonds, At(h, q).bonds, At(k, q).bonds;
      assert x == y[..|x|] && y == z[..|y|];
      assert z[..|y|][..|x|] == z[..|x|];
    }
  }

  /** pairBond only adds bonds. */
  lemma WithBondAdds(g: Grid, l: Vector, m: Vector)
    requires Shaped(g) && CanBond(g, l, m)
    ensures BondsAdded(g, WithBond(g, l, m))
  {
    WithBondCells(g, l, m);
    forall q | InGrid(q) && At(g, q).Link?
      ensures At(g, q).bonds <= At(WithBond(g, l, m), q).bonds
    {
      if q == l || q == m {
        var bs := At(g, q).bonds;
        assert (bs + [Direction(l, m)])[..|bs|] == bs;
        assert (bs + [Direction(m, l)])[..|bs|] == bs;
      }
    }
  }

  /** Every bonded Link of g is still a Link at the same place, with at least its bonds. */
  ghost predicate BondedStay(g: Grid, h: Grid)
    requires Shaped(g) && Shaped(h)
  {
    forall q :: InGrid(q) && IsBonded(At(g, q)) ==> At(h, q).Link? && At(g, q).bonds <= At(h, q).bonds
  }

  lemma BondedStayTransitive(g: Grid, h: Grid, k: Grid)
    requires Shaped(g) && Shaped(h) && Shaped(k) && BondedStay(g, h) && BondedStay(h, k)
    ensures BondedStay(g, k)
  {
    forall q | InGrid(q) && IsBonded(At(g, q))
      ensures At(k, q).Link? && At(g, q).bonds <= At(k, q).bonds
    {
      var x, y, z := At(g, q).bonds, At(h, q).bonds, At(k, q).bonds;
      assert |y| >= |x| > 0;
      assert x == y[..|x|] && y == z[..|y|];
      assert z[..|y|][..|x|] == z[..|x|];
    }
  }

  lemma FixedStay(g: Grid, h: Grid)
    requires Shaped(g) && Shaped(h) && BondedFixed(g, h)
    ensures BondedStay(g, h)
  {
  }

  lemma AddedStay(g: Grid, h: Grid)
    requires Shaped(g) && Shaped(h) && BondsAdded(g, h)
    ensures BondedStay(g, h)
  {
  }
}
