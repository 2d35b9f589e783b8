/**
 * The pure parts of the motion, production, disintegration and rebond
 * rules: what one hole of rule 1 does to the grid, the candidate lists of
 * production, the cell a bond break leaves, the hole disintegration
 * prefers, and the candidate pairs of rebond.
 */
module Rules {
  import opened Geometry
  import opened Grid
  import opened Bonds
  import opened Moves
  import opened Selection

  /**
   * Rule 1.3 for the hole h and the direction d (1..4), before bonding: if
   * h is still a hole and h + N[d] is occupied, its occupant moves into h;
   * a bonded Link stays, and instead the Substrate at h + N_PRIME[d], if
   * there is one, passes through into h.
   */
  function HoleMove(g: Grid, h: Vector, d: int): (r: Grid)
    requires Shaped(g) && InGrid(h) && 1 <= d < ORTHOGONAL
    ensures Shaped(r)
    ensures !At(g, h).Hole? ==> r == g
    ensures forall q :: InGrid(q) && q != h && q != h.Add(N[d]) && q != h.Add(N_PRIME[d]) ==> At(r, q) == At(g, q)
  {
    var ni := h.Add(N[d]);
    if !InGrid(ni) || At(g, ni).Hole? || !At(g, h).Hole? then g
    else if IsBonded(At(g, ni)) then
      var np := h.Add(N_PRIME[d]);
      if InGrid(np) && At(g, np).Substrate? then Fill(g, h, np) else g
    else Fill(g, h, ni)
  }

  /** Rule 1.4 applies: the occupant that moves into h is a Link (necessarily a free one). */
  predicate MovesLink(g: Grid, h: Vector, d: int)
    requires Shaped(g) && 1 <= d < ORTHOGONAL
  {
    InGrid(h) && InGrid(h.Add(N[d])) && At(g, h).Hole?
    && At(g, h.Add(N[d])).Link? && !IsBonded(At(g, h.Add(N[d])))
  }

  /**
   * A hole move keeps every count (one occupant moves, one cell is vacated),
   * never moves or changes a bonded Link, acts only on a cell that is still
   * a hole, and brings a Link into h exactly when rule 1.4 applies.
   */
  lemma HoleMoveKeeps(g: Grid, h: Vector, d: int)
    requires Shaped(g) && InGrid(h) && 1 <= d < ORTHOGONAL
    ensures forall m :: Count(HoleMove(g, h, d), m) == Count(g, m)
    ensures BondedFixed(g, HoleMove(g, h, d))
    ensures !At(g, h).Hole? ==> HoleMove(g, h, d) == g
    ensures MovesLink(g, h, d) <==> At(g, h).Hole? && At(HoleMove(g, h, d), h).Link?
    ensures MovesLink(g, h, d) ==> At(HoleMove(g, h, d), h) == Link([])
  {
    var ni := h.Add(N[d]);
    Table(d);
    PrimeIsTransposed(h, d);
    if !InGrid(ni) || At(g, ni).Hole? || !At(g, h).Hole? {
    } else if IsBonded(At(g, ni)) {
      var np := h.Add(N_PRIME[d]);
      if InGrid(np) && At(g, np).Substrate? {
        FillKeeps(g, h, np);
      }
    } else {
      FillKeeps(g, h, ni);
    }
  }

  /** `reduce(or, map(lambda w: orthogonallyAdjacent(v, w), s))`. */
  function AnyAdjacent(v: Vector, s: seq<Vector>): (r: bool)
    ensures r <==> exists w :: w in s && OrthogonallyAdjacent(v, w)
  {
    if s == [] then false
    else
      assert forall w :: w in s ==> w == s[0] || w in s[1..];
      OrthogonallyAdjacent(v, s[0]) || AnyAdjacent(v, s[1..])
  }

  /** `[v for v in xs if <v orthogonally adjacent to some w in n>]`. */
  function KeepAdjacent(xs: seq<Vector>, n: seq<Vector>): (r: seq<Vector>)
    ensures forall v {:trigger v in r} :: v in r <==> v in xs && AnyAdjacent(v, n)
  {
    if xs == [] then []
    else
      assert forall v :: v in xs ==> v == xs[0] || v in xs[1..];
      (if AnyAdjacent(xs[0], n) then [xs[0]] else []) + KeepAdjacent(xs[1..], n)
  }

  /**
   * Rule 4.1 and 4.1.1: the Substrate neighbours of c at the offsets hood
   * that have an orthogonally adjacent Substrate neighbour in the same list.
   */
  function Fertile(g: Grid, c: Vector, hood: seq<Vector>): (r: seq<Vector>)
    requires Shaped(g)
    ensures forall v :: v in r ==> InGrid(v) && At(g, v).Substrate? && v.Subtract(c) in hood
  {
    var n := Around(g, c, hood, SubstrateK);
    KeepAdjacent(n, n)
  }

  /** A fertile position is a Substrate of the neighbourhood with a Substrate of the neighbourhood next to it. */
  lemma FertileMembers(g: Grid, c: Vector, hood: seq<Vector>, v: Vector)
    requires Shaped(g)
    ensures v in Fertile(g, c, hood) <==>
      v in Around(g, c, hood, SubstrateK) && AnyAdjacent(v, Around(g, c, hood, SubstrateK))
    ensures v in Fertile(g, c, hood) ==> InGrid(v) && At(g, v).Substrate? && v.Subtract(c) in hood
  {
  }

  /** The partner that keeps a position fertile is fertile itself, so rule 4.2.1 always finds one. */
  lemma FertilePartner(g: Grid, c: Vector, hood: seq<Vector>, v: Vector)
    requires Shaped(g) && v in Fertile(g, c, hood)
    ensures AnyAdjacent(v, Fertile(g, c, hood))
  {
    KeptPartner(Around(g, c, hood, SubstrateK), v);
  }

  lemma KeptPartner(n: seq<Vector>, v: Vector)
    requires v in KeepAdjacent(n, n)
    ensures AnyAdjacent(v, KeepAdjacent(n, n))
  {
    var k := KeepAdjacent(n, n);
    assert v in n && AnyAdjacent(v, n);
    var w :| w in n && OrthogonallyAdjacent(v, w);
    assert OrthogonallyAdjacent(w, v);
    assert AnyAdjacent(w, n);
    assert w in k;
  }

  /** `[v for v in n if orthogonallyAdjacent(p, v)]`. */
  function AdjacentTo(n: seq<Vector>, p: Vector): (r: seq<Vector>)
    ensures forall v :: v in r <==> v in n && OrthogonallyAdjacent(p, v)
  {
    if n == [] then []
    else
      assert forall v :: v in n ==> v == n[0] || v in n[1..];
      (if OrthogonallyAdjacent(p, n[0]) then [n[0]] else []) + AdjacentTo(n[1..], p)
  }

  /** Rule 4.2: the Substrate at p becomes a free Link, the Substrate at q a hole. */
  function Produce(g: Grid, p: Vector, q: Vector): (r: Grid)
    requires Shaped(g) && InGrid(p) && InGrid(q)
    ensures Shaped(r) && At(r, q) == Hole && (p != q ==> At(r, p) == Link([]))
    ensures forall x :: InGrid(x) && x != p && x != q ==> At(r, x) == At(g, x)
  {
    Set(Set(g, p, Link([])), q, Hole)
  }

  /**
   * Production turns two Substrates into a Link and a hole: two Substrates
   * fewer, one Link and one hole more, no bond and no bonded cell touched.
   */
  lemma ProduceCounts(g: Grid, p: Vector, q: Vector)
    requires Shaped(g) && InGrid(p) && InGrid(q) && p != q
    requires At(g, p).Substrate? && At(g, q).Substrate?
    ensures var r := Produce(g, p, q);
      At(r, p) == Link([]) && At(r, q) == Hole
      && (forall x :: InGrid(x) && x != p && x != q ==> At(r, x) == At(g, x))
      && Count(r, Cells(SubstrateK)) + 2 == Count(g, Cells(SubstrateK))
      && Count(r, Cells(LinkK)) == Count(g, Cells(LinkK)) + 1
      && Count(r, Cells(HoleK)) == Count(g, Cells(HoleK)) + 1
      && Count(r, Cells(CatalystK)) == Count(g, Cells(CatalystK))
      && Count(r, BondEnds) == Count(g, BondEnds)
      && BondedFixed(g, r)
  {
    var g1 := Set(g, p, Link([]));
    assert At(g1, q) == At(g, q);
    CountAfterSet(g, p, Link([]));
    CountAfterSet(g1, q, Hole);
    SetUnbonded(g, p, Link([]));
    SetUnbonded(g1, q, Hole);
    BondedFixedTransitive(g, g1, Produce(g, p, q));
  }

  /** The cell q after `breakBonds(c)`: a Link bonded to c has lost that one bond. */
  function Unbonded(g: Grid, c: Vector, q: Vector): (r: Cell)
    requires Shaped(g) && InGrid(q)
    ensures r.Link? == At(g, q).Link? && (!At(g, q).Link? ==> r == At(g, q))
    ensures At(g, q).Link? ==> multiset(r.bonds) <= multiset(At(g, q).bonds)
                               && |r.bonds| == |At(g, q).bonds| - (if Bonded(g, q, c) then 1 else 0)
  {
    if At(g, q).Link? && Bonded(g, q, c) then Link(RemoveFirst(At(g, q).bonds, Direction(q, c)))
    else At(g, q)
  }

  /**
   * Rule 5's choice of the hole p for the second Substrate of a
   * disintegrating li: a Moore neighbour if any is a hole, else a prime
   * neighbour if any is a hole, else any hole.
   */
  predicate HolePreferred(g: Grid, li: Vector, p: Vector)
    requires Shaped(g)
  {
    var nh := Around(g, li, MOORE, HoleK);
    var nx := Around(g, li, PRIME, HoleK);
    InGrid(p) && At(g, p).Hole?
    && (p in nh || (nh == [] && (p in nx || nx == [])))
  }

  /** A neighbour list depends only on which cells have the kind asked for. */
  lemma {:induction false} AroundSameKind(g: Grid, h: Grid, c: Vector, offs: seq<Vector>, k: Kind)
    requires Shaped(g) && Shaped(h)
    requires forall q :: InGrid(q) ==> Is(At(g, q), k) == Is(At(h, q), k)
    ensures Around(g, c, offs, k) == Around(h, c, offs, k)
  {
    if offs != [] {
      AroundSameKind(g, h, c, offs[1..], k);
    }
  }

  /** `[(x, y) for y in ys if orthogonallyAdjacent(x, y) and not bonded(x, y)]`. */
  function PairsWith(g: Grid, x: Vector, ys: seq<Vector>): (r: seq<Pair>)
    requires Shaped(g) && InGrid(x) && At(g, x).Link?
    ensures forall pr :: pr in r <==> pr.0 == x && pr.1 in ys && OrthogonallyAdjacent(x, pr.1) && !Bonded(g, x, pr.1)
  {
    if ys == [] then []
    else
      assert forall y :: y in ys ==> y == ys[0] || y in ys[1..];
      (if OrthogonallyAdjacent(x, ys[0]) && !Bonded(g, x, ys[0]) then [(x, ys[0])] else [])
      + PairsWith(g, x, ys[1..])
  }

  /**
   * Rule 7.2: `[(m[i], m[j]) for i in range(len(m)-1) for j in range(i+1, len(m))
   * if orthogonallyAdjacent(m[i], m[j]) and not bonded(m[i], m[j])]`.
   */
  function CandidatePairs(g: Grid, m: seq<Vector>): (r: seq<Pair>)
    requires Shaped(g) && forall q :: q in m ==> InGrid(q) && At(g, q).Link?
    ensures forall pr :: pr in r ==>
      pr.0 in m && pr.1 in m && OrthogonallyAdjacent(pr.0, pr.1) && !Bonded(g, pr.0, pr.1)
    ensures forall i, j ::
              0 <= i < j < |m| && OrthogonallyAdjacent(m[i], m[j]) && !Bonded(g, m[i], m[j]) ==> (m[i], m[j]) in r
  {
    if |m| <= 1 then []
    else
      var rest := CandidatePairs(g, m[1..]);
      assert forall i, j :: 1 <= i < j < |m| ==> m[i] == m[1..][i - 1] && m[j] == m[1..][j - 1];
      PairsWith(g, m[0], m[1..]) + rest
  }
}
