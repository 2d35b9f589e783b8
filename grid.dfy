/**
 * The cells of the automaton and the SIZE x SIZE grid that holds them
 * (`self.a` in `CA`, the module-level `a` in the twin), with the queries
 * `cell` and `neighbour`, the row-major position lists the phases start
 * from, and the cell counts that the counters of `CA` track.
 */
module Grid {
  import opened Geometry

  /**
   * A cell: a hole (`None`), a Substrate, a Catalyst, or a Link with its list
   * of bond directions (indices into N). A `Link` object is never held by two
   * cells at once, so a link is represented by the value of its bond list.
   */
  datatype Cell = Hole | Substrate | Catalyst | Link(bonds: seq<int>)

  /** `a[y][x]`, rows first as in the source. */
  type Grid = seq<seq<Cell>>

  predicate Shaped(g: Grid) {
    |g| == SIZE && forall y :: 0 <= y < |g| ==> |g[y]| == SIZE
  }

  /** `cell(c)`. */
  function At(g: Grid, p: Vector): Cell
    requires Shaped(g) && InGrid(p)
  {
    g[p.y][p.x]
  }

  /** `setCell(c, v)`: only cell c changes. */
  function Set(g: Grid, p: Vector, v: Cell): (r: Grid)
    requires Shaped(g) && InGrid(p)
    ensures Shaped(r)
    ensures At(r, p) == v
    ensures forall q :: InGrid(q) && q != p ==> At(r, q) == At(g, q)
  {
    g[p.y := g[p.y][p.x := v]]
  }

  /** Two shaped grids that agree on every cell are equal. */
  lemma {:induction false} GridExt(g: Grid, h: Grid)
    requires Shaped(g) && Shaped(h)
    requires forall q :: InGrid(q) ==> At(g, q) == At(h, q)
    ensures g == h
  {
    forall y | 0 <= y < SIZE
      ensures g[y] == h[y]
    {
      forall x | 0 <= x < SIZE
        ensures g[y][x] == h[y][x]
      {
        assert At(g, Vector(x, y)) == At(h, Vector(x, y));
      }
    }
  }

  /**
   * `neighbour(c, n)`: the cell at c + n, or a hole (`None`) when c + n is
   * off the grid. The source does not tell these two apart; every caller
   * either checks `inRange` first or asks for a kind a hole is not.
   */
  function Neighbour(g: Grid, c: Vector, n: Vector): (r: Cell)
    requires Shaped(g)
    ensures !InRange(c, n) ==> r == Hole
    ensures InRange(c, n) ==> r == At(g, c.Add(n))
  {
    if InRange(c, n) then At(g, c.Add(n)) else Hole
  }

  /** A Link with at least one bond (a "bonded L"). */
  predicate IsBonded(c: Cell) { c.Link? && |c.bonds| > 0 }

  /** The cell kinds the rules select on (`isinstance` plus the bond count). */
  datatype Kind = HoleK | SubstrateK | CatalystK | LinkK | FreeK | SingleK | BondedK

  predicate Is(c: Cell, k: Kind) {
    match k
    case HoleK => c.Hole?
    case SubstrateK => c.Substrate?
    case CatalystK => c.Catalyst?
    case LinkK => c.Link?
    case FreeK => c.Link? && |c.bonds| == 0
    case SingleK => c.Link? && |c.bonds| == 1
    case BondedK => IsBonded(c)
  }

  /** Row-major order, the order of `for i in range(SIZE) for j in range(SIZE)`: p is visited before q. */
  predicate Before(p: Vector, q: Vector) {
    p.y < q.y || (p.y == q.y && p.x < q.x)
  }

  /** The positions (x, y) of row r, left to right, whose cell has kind k. */
  function WhereRow(r: seq<Cell>, y: int, k: Kind): (s: seq<Vector>)
    ensures forall q :: q in s <==> q.y == y && 0 <= q.x < |r| && Is(r[q.x], k)
    ensures forall a, b :: 0 <= a < b < |s| ==> s[a].x < s[b].x
  {
    if r == [] then []
    else
      var n := |r| - 1;
      assert forall x :: 0 <= x < n ==> r[..n][x] == r[x];
      WhereRow(r[..n], y, k) + (if Is(r[n], k) then [Vector(n, y)] else [])
  }

  /** The positions of the rows g, row by row, whose cell has kind k. */
  function WhereRows(g: seq<seq<Cell>>, k: Kind): (s: seq<Vector>)
    ensures forall q :: q in s <==> 0 <= q.y < |g| && 0 <= q.x < |g[q.y]| && Is(g[q.y][q.x], k)
    ensures forall a, b :: 0 <= a < b < |s| ==> Before(s[a], s[b])
  {
    if g == [] then []
    else
      var n := |g| - 1;
      assert forall y :: 0 <= y < n ==> g[..n][y] == g[y];
      WhereRows(g[..n], k) + WhereRow(g[n], n, k)
  }

  /**
   * `[Vector(j,i) for i in range(SIZE) for j in range(SIZE) if <kind test>]`:
   * the cells of kind k, each once, in row-major order.
   */
  function Where(g: Grid, k: Kind): (r: seq<Vector>)
    requires Shaped(g)
    ensures forall q :: q in r <==> InGrid(q) && Is(At(g, q), k)
    ensures forall a, b :: 0 <= a < b < |r| ==> Before(r[a], r[b])
  {
    WhereRows(g, k)
  }

  /** What the counters count: cells of one kind, or bond ends (twice the bonds). */
  datatype Measure = Cells(kind: Kind) | BondEnds

  function Weight(c: Cell, m: Measure): nat {
    match m
    case Cells(k) => if Is(c, k) then 1 else 0
    case BondEnds => if c.Link? then |c.bonds| else 0
  }

  /** The measure m summed over one row. */
  function RowCount(r: seq<Cell>, m: Measure): nat {
    if r == [] then 0 else RowCount(r[..|r| - 1], m) + Weight(r[|r| - 1], m)
  }

  /** The measure m summed over the rows g. */
  function RowsCount(g: seq<seq<Cell>>, m: Measure): nat {
    if g == [] then 0 else RowsCount(g[..|g| - 1], m) + RowCount(g[|g| - 1], m)
  }

  /** The measure m summed over the grid. */
  function Count(g: Grid, m: Measure): nat {
    RowsCount(g, m)
  }

  lemma {:induction false} RowCountUpdate(r: seq<Cell>, x: int, v: Cell, m: Measure)
    requires 0 <= x < |r|
    ensures RowCount(r[x := v], m) == RowCount(r, m) - Weight(r[x], m) + Weight(v, m)
    ensures RowCount(r, m) >= Weight(r[x], m)
    decreases |r|
  {
    var n := |r| - 1;
    if x < n {
      assert r[x := v][..n] == r[..n][x := v];
      RowCountUpdate(r[..n], x, v, m);
    } else {
      assert r[x := v][..n] == r[..n];
    }
  }

  lemma {:induction false} RowsCountUpdate(g: seq<seq<Cell>>, y: int, r: seq<Cell>, m: Measure)
    requires 0 <= y < |g|
    ensures RowsCount(g[y := r], m) == RowsCount(g, m) - RowCount(g[y], m) + RowCount(r, m)
    ensures RowsCount(g, m) >= RowCount(g[y], m)
    decreases |g|
  {
    var n := |g| - 1;
    if y < n {
      assert g[y := r][..n] == g[..n][y := r];
      RowsCountUpdate(g[..n], y, r, m);
    } else {
      assert g[y := r][..n] == g[..n];
    }
  }

  /** Setting one cell changes the count by exactly that cell's old and new weights. */
  lemma SetCount(g: Grid, p: Vector, v: Cell, m: Measure)
    requires Shaped(g) && InGrid(p)
    ensures Count(g, m) >= Weight(At(g, p), m)
    ensures Count(Set(g, p, v), m) == Count(g, m) - Weight(At(g, p), m) + Weight(v, m)
  {
    RowCountUpdate(g[p.y], p.x, v, m);
    RowsCountUpdate(g, p.y, g[p.y][p.x := v], m);
  }

  /** Setting one cell changes every count by exactly that cell's old and new weights. */
  lemma CountAfterSet(g: Grid, p: Vector, v: Cell)
    requires Shaped(g) && InGrid(p)
    ensures forall m :: Count(Set(g, p, v), m) == Count(g, m) - Weight(At(g, p), m) + Weight(v, m)
    ensures forall m :: Count(g, m) >= Weight(At(g, p), m)
  {
    forall m
      ensures Count(Set(g, p, v), m) == Count(g, m) - Weight(At(g, p), m) + Weight(v, m)
      ensures Count(g, m) >= Weight(At(g, p), m)
    {
      SetCount(g, p, v, m);
    }
  }

  lemma {:induction false} WhereRowCount(r: seq<Cell>, y: int, k: Kind)
    ensures |WhereRow(r, y, k)| == RowCount(r, Cells(k))
    decreases |r|
  {
    if r != [] {
      WhereRowCount(r[..|r| - 1], y, k);
    }
  }

  lemma {:induction false} WhereRowsCount(g: seq<seq<Cell>>, k: Kind)
    ensures |WhereRows(g, k)| == RowsCount(g, Cells(k))
    decreases |g|
  {
    if g != [] {
      WhereRowsCount(g[..|g| - 1], k);
      WhereRowCount(g[|g| - 1], |g| - 1, k);
    }
  }

  /** A kind list is exactly as long as the count of that kind. */
  lemma WhereCount(g: Grid, k: Kind)
    requires Shaped(g)
    ensures |Where(g, k)| == Count(g, Cells(k))
  {
    WhereRowsCount(g, k);
  }

  lemma {:induction false} RowPartition(r: seq<Cell>)
    ensures RowCount(r, Cells(HoleK)) + RowCount(r, Cells(SubstrateK))
            + RowCount(r, Cells(CatalystK)) + RowCount(r, Cells(LinkK)) == |r|
    decreases |r|
  {
    if r != [] {
      RowPartition(r[..|r| - 1]);
    }
  }

  lemma {:induction false} RowsPartition(g: seq<seq<Cell>>)
    requires forall y :: 0 <= y < |g| ==> |g[y]| == SIZE
    ensures RowsCount(g, Cells(HoleK)) + RowsCount(g, Cells(SubstrateK))
            + RowsCount(g, Cells(CatalystK)) + RowsCount(g, Cells(LinkK)) == |g| * SIZE
    decreases |g|
  {
    if g != [] {
      var n := |g| - 1;
      assert forall y :: 0 <= y < n ==> g[..n][y] == g[y];
      RowsPartition(g[..n]);
      RowPartition(g[n]);
    }
  }

  /** Holes, Substrates, Catalysts and Links partition the grid. */
  lemma CellsPartition(g: Grid)
    requires Shaped(g)
    ensures Count(g, Cells(HoleK)) + Count(g, Cells(SubstrateK))
            + Count(g, Cells(CatalystK)) + Count(g, Cells(LinkK)) == SIZE * SIZE
  {
    RowsPartition(g);
  }

  predicate Distinct<T(==)>(s: seq<T>) {
    forall i, j :: 0 <= i < j < |s| ==> s[i] != s[j]
  }

  /** A row-major list has no repeated position. */
  lemma WhereDistinct(g: Grid, k: Kind)
    requires Shaped(g)
    ensures Distinct(Where(g, k))
  {
  }

  /**
   * `[c.add(v) for v in offs if inRange(c, v) and <kind test on neighbour(c, v)>]`:
   * the neighbours of c at the offsets offs, in that order, that have kind k.
   */
  function Around(g: Grid, c: Vector, offs: seq<Vector>, k: Kind): (r: seq<Vector>)
    requires Shaped(g)
    ensures |r| <= |offs|
    ensures forall q :: q in r ==> InGrid(q) && Is(At(g, q), k) && q.Subtract(c) in offs
    ensures forall v {:trigger c.Add(v)} :: v in offs && InRange(c, v) && Is(At(g, c.Add(v)), k) ==> c.Add(v) in r
  {
    if offs == [] then []
    else
      var rest := Around(g, c, offs[1..], k);
      assert forall v :: v in offs ==> v == offs[0] || v in offs[1..];
      if InRange(c, offs[0]) && Is(Neighbour(g, c, offs[0]), k) then [c.Add(offs[0])] + rest else rest
  }

  /** `[c.add(v) for v in offs if inRange(c, v)]`: the neighbours of c on the grid. */
  function InRangeAround(c: Vector, offs: seq<Vector>): (r: seq<Vector>)
    ensures forall q :: q in r ==> InGrid(q) && q.Subtract(c) in offs
    ensures forall v {:trigger c.Add(v)} :: v in offs && InRange(c, v) ==> c.Add(v) in r
  {
    if offs == [] then []
    else
      var rest := InRangeAround(c, offs[1..]);
      assert forall v :: v in offs ==> v == offs[0] || v in offs[1..];
      if InRange(c, offs[0]) then [c.Add(offs[0])] + rest else rest
  }

  /** Distinct offsets give distinct neighbours. */
  lemma {:induction false} AroundDistinct(g: Grid, c: Vector, offs: seq<Vector>, k: Kind)
    requires Shaped(g) && Distinct(offs)
    ensures Distinct(Around(g, c, offs, k))
  {
    if offs != [] {
      AroundDistinct(g, c, offs[1..], k);
      assert forall j :: 0 <= j < |offs[1..]| ==> offs[1..][j] != offs[0];
      assert c.Add(offs[0]).Subtract(c) == offs[0];
    }
  }

  /**
   * q lies opposite a bonded orthogonal neighbour of s in the sense of the
   * source: q = s + N_PRIME[k] while s + N[k] holds a bonded Link.
   */
  predicate OppositeBond(g: Grid, s: Vector, q: Vector)
    requires Shaped(g)
  {
    exists k :: 1 <= k < ORTHOGONAL && q == s.Add(N_PRIME[k])
      && InRange(s, N[k]) && IsBonded(At(g, s.Add(N[k])))
  }

  /**
   * `b = [N_PRIME[N.index(v)] for v in N[1:5] if <s + v holds a bonded L>]`,
   * then `[s.add(v) for v in b if inRange(s, v) and neighbour(s, v) is None]`,
   * written from direction k on.
   */
  function ThroughFrom(g: Grid, s: Vector, k: int): (r: seq<Vector>)
    requires Shaped(g) && 1 <= k <= ORTHOGONAL
    ensures forall q :: q in r ==> InGrid(q) && At(g, q).Hole? && OppositeBond(g, s, q)
    ensures forall j :: k <= j < ORTHOGONAL && InRange(s, N[j]) && IsBonded(At(g, s.Add(N[j])))
              && InRange(s, N_PRIME[j]) && At(g, s.Add(N_PRIME[j])).Hole?
              ==> s.Add(N_PRIME[j]) in r
    decreases ORTHOGONAL - k
  {
    if k == ORTHOGONAL then []
    else
      var rest := ThroughFrom(g, s, k + 1);
      if InRange(s, N[k]) && IsBonded(Neighbour(g, s, N[k]))
         && InRange(s, N_PRIME[k]) && Neighbour(g, s, N_PRIME[k]).Hole? then
        [s.Add(N_PRIME[k])] + rest
      else rest
  }

  /** The holes reachable from s through a bonded orthogonal neighbour. */
  function Through(g: Grid, s: Vector): (r: seq<Vector>)
    requires Shaped(g)
    ensures forall q :: q in r ==> InGrid(q) && At(g, q).Hole? && OppositeBond(g, s, q)
    ensures forall j :: 1 <= j < ORTHOGONAL && InRange(s, N[j]) && IsBonded(At(g, s.Add(N[j])))
              && InRange(s, N_PRIME[j]) && At(g, s.Add(N_PRIME[j])).Hole?
              ==> s.Add(N_PRIME[j]) in r
  {
    ThroughFrom(g, s, 1)
  }

  lemma {:induction false} RowNone(r: seq<Cell>, m: Measure)
    requires forall x :: 0 <= x < |r| ==> Weight(r[x], m) == 0
    ensures RowCount(r, m) == 0
    decreases |r|
  {
    if r != [] {
      RowNone(r[..|r| - 1], m);
    }
  }

  lemma {:induction false} RowsNone(g: seq<seq<Cell>>, m: Measure)
    requires forall y, x :: 0 <= y < |g| && 0 <= x < |g[y]| ==> Weight(g[y][x], m) == 0
    ensures RowsCount(g, m) == 0
    decreases |g|
  {
    if g != [] {
      var n := |g| - 1;
      assert forall y :: 0 <= y < n ==> g[..n][y] == g[y];
      RowsNone(g[..n], m);
      RowNone(g[n], m);
    }
  }

  /** A measure that weighs nothing on every cell counts nothing. */
  lemma CountNone(g: Grid, m: Measure)
    requires Shaped(g) && forall q :: InGrid(q) ==> Weight(At(g, q), m) == 0
    ensures Count(g, m) == 0
  {
    forall y, x | 0 <= y < |g| && 0 <= x < |g[y]|
      ensures Weight(g[y][x], m) == 0
    {
      assert At(g, Vector(x, y)) == g[y][x];
    }
    RowsNone(g, m);
  }

  /** The all-hole grid the constructor starts from. */
  function Holes(): (r: Grid)
    ensures Shaped(r) && forall q :: InGrid(q) ==> At(r, q) == Hole
  {
    seq(SIZE, _ => seq(SIZE, _ => Hole))
  }
}
