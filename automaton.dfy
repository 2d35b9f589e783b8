/**
 * The discrete autopoiesis automaton: class CA of VarelaCA/ca.py, whose
 * rules VarelaCA/varela.py repeats over a module-level grid. One class
 * serves both; a Config records the four places where the two differ.
 *
 * Random choices (`randint`, `shuffle`, the disintegration test) are `:|`
 * choices or parameters. Where the source fails an `assert`, the model
 * returns AssertionFailed instead of corrupting the grid.
 */
module Automaton {
  import opened Geometry
  import opened Grid
  import opened Bonds
  import opened Moves
  import opened Selection
  import opened Rules

  /** What distinguishes the two programs. */
  datatype Config = Config(
    productionHood: seq<Vector>,   // offsets production takes Substrate from
    orthogonalBonding: bool,       // bonding looks at N[1:ORTHOGONAL] only
    catalystMotion: bool,          // the step runs motionK
    bondAfterCatalystMove: bool)   // motionK bonds the Link it displaced

  /** ca.py: Moore and prime production neighbourhood, Moore bonding, no motionK in Step. */
  const CA_CONFIG: Config := Config(MOORE + PRIME, false, false, true)

  /** varela.py: Moore production neighbourhood, orthogonal bonding, motionK in step. */
  const VARELA_CONFIG: Config := Config(MOORE, true, true, false)

  /** How a phase ended: normally, or where the source's `assert` fails. */
  datatype Status = Done | AssertionFailed

  /** The offsets `bonding` looks at. */
  function BondingHood(cfg: Config): seq<Vector> {
    if cfg.orthogonalBonding then ORTHO else MOORE
  }

  /** v is an offset of BondingHood(cfg), stated without the sequence. */
  predicate InHood(cfg: Config, v: Vector) {
    if cfg.orthogonalBonding then Manhattan(v, Vector(0, 0)) == 1 else IsOffset(v) && v != Vector(0, 0)
  }

  lemma HoodIff(cfg: Config, v: Vector)
    ensures v in BondingHood(cfg) <==> InHood(cfg, v)
  {
    OrthoMembers(v);
    MooreMembers(v);
  }

  /** A bonding neighbour is one step away, orthogonally when bonding is orthogonal. */
  lemma HoodFacts(cfg: Config, li: Vector, q: Vector)
    requires InHood(cfg, q.Subtract(li))
    ensures IsOffset(q.Subtract(li)) && q != li
    ensures cfg.orthogonalBonding ==> OrthogonallyAdjacent(li, q)
  {
  }

  /** `acute(li, v.add(N[cell(v).bonds[0]]))`: v's existing bond leaves an angle of 90 degrees or more at v. */
  predicate AcuteAway(g: Grid, li: Vector, v: Vector)
    requires Shaped(g)
  {
    InGrid(v) && At(g, v).Link? && |At(g, v).bonds| >= 1 && 0 <= At(g, v).bonds[0] < |N|
    && Acute(li, v.Add(N[At(g, v).bonds[0]]))
  }

  /** `[v for v in m if acute(li, v.add(N[cell(v).bonds[0]]))]` */
  function KeepAcuteAway(g: Grid, li: Vector, m: seq<Vector>): (r: seq<Vector>)
    requires Shaped(g)
    ensures forall v :: v in r <==> v in m && AcuteAway(g, li, v)
  {
    if m == [] then []
    else
      assert forall v :: v in m ==> v == m[0] || v in m[1..];
      (if AcuteAway(g, li, m[0]) then [m[0]] else []) + KeepAcuteAway(g, li, m[1..])
  }

  /** `[v for v in n if acute(v, x)]` */
  function AcuteTo(n: seq<Vector>, x: Vector): (r: seq<Vector>)
    ensures forall v :: v in r <==> v in n && Acute(v, x)
  {
    if n == [] then []
    else
      assert forall v :: v in n ==> v == n[0] || v in n[1..];
      (if Acute(n[0], x) then [n[0]] else []) + AcuteTo(n[1..], x)
  }

  /** x and y may both bond to the same Link: `acute(x, y) and not bonded(x, y)`. */
  predicate PairOK(g: Grid, x: Vector, y: Vector)
    requires Shaped(g)
  {
    InGrid(x) && At(g, x).Link? && Acute(x, y) && !Bonded(g, x, y)
  }

  /** The pairing loop of 6.3 finds a pair in m. */
  predicate HasPair(g: Grid, m: seq<Vector>)
    requires Shaped(g)
  {
    exists i, j :: 0 <= i < |m| && 0 <= j < |m| && PairOK(g, m[i], m[j])
  }

  /** The singly bonded candidates of 6.1 and 6.2. */
  function Singles(g: Grid, li: Vector, hood: seq<Vector>): (r: seq<Vector>)
    requires Shaped(g)
    ensures forall q :: q in r ==> InGrid(q) && Is(At(g, q), SingleK) && q.Subtract(li) in hood && AcuteAway(g, li, q)
  {
    KeepAcuteAway(g, li, Around(g, li, hood, SingleK))
  }

  /** q may take a bond from li: a Link in the bonding neighbourhood with at most one bond. */
  predicate Candidate(g: Grid, li: Vector, q: Vector, cfg: Config)
    requires Shaped(g)
  {
    InGrid(q) && InHood(cfg, q.Subtract(li)) && At(g, q).Link? && |At(g, q).bonds| <= 1
  }

  /** A singly bonded candidate is a Link in the bonding neighbourhood with one bond. */
  lemma SingleFacts(g: Grid, li: Vector, cfg: Config, x: Vector)
    requires Shaped(g) && x in Singles(g, li, BondingHood(cfg))
    ensures Candidate(g, li, x, cfg) && |At(g, x).bonds| == 1
  {
    var s := Around(g, li, BondingHood(cfg), SingleK);
    assert x in s;
    HoodIff(cfg, x.Subtract(li));
  }

  /** Every free neighbour `bonding` lists is a candidate. */
  lemma FreeFacts(g: Grid, li: Vector, cfg: Config)
    requires Shaped(g)
    ensures forall q :: q in Around(g, li, BondingHood(cfg), FreeK) ==> Candidate(g, li, q, cfg) && At(g, q).bonds == []
  {
    forall q | q in Around(g, li, BondingHood(cfg), FreeK)
      ensures Candidate(g, li, q, cfg) && At(g, q).bonds == []
    {
      HoodIff(cfg, q.Subtract(li));
    }
  }

  /**
   * When `bonding(li)` forms no bond: no free neighbour, and either no
   * singly bonded candidate or two or more of them with no acceptable pair.
   */
  predicate NoPartner(g: Grid, li: Vector, hood: seq<Vector>)
    requires Shaped(g)
  {
    var m := Singles(g, li, hood);
    Around(g, li, hood, FreeK) == [] && (|m| == 0 || (|m| >= 2 && !HasPair(g, m)))
  }

  /** A free Link can bond to any neighbour with room for a bond. */
  lemma FirstBond(g: Grid, li: Vector, q: Vector, cfg: Config)
    requires GridOK(g, cfg.orthogonalBonding) && InGrid(li) && At(g, li) == Link([])
    requires Candidate(g, li, q, cfg)
    ensures CanBond(g, li, q) && (cfg.orthogonalBonding ==> OrthogonallyAdjacent(li, q))
  {
    HoodFacts(cfg, li, q);
    BondedSymmetric(g, li, q, cfg.orthogonalBonding);
  }

  /** After its first bond, a Link that was free can still bond to a second, different neighbour. */
  lemma SecondBond(g: Grid, li: Vector, p: Vector, q: Vector, cfg: Config)
    requires GridOK(g, cfg.orthogonalBonding) && InGrid(li) && At(g, li) == Link([])
    requires CanBond(g, li, p) && p != q
    requires Candidate(g, li, q, cfg)
    ensures CanBond(WithBond(g, li, p), li, q) && (cfg.orthogonalBonding ==> OrthogonallyAdjacent(li, q))
  {
    FirstBond(g, li, q, cfg);
    WithBondCells(g, li, p);
  }

  /**
   * h is g after `bonding(li)` bonded li to the partners ps, chosen in the
   * bonding neighbourhood among Links with room for a bond: li holds exactly
   * those bonds, each mirrored, and every other cell is untouched.
   */
  ghost predicate BondedTo(g: Grid, h: Grid, li: Vector, ps: seq<Vector>, cfg: Config)
    requires Shaped(g) && Shaped(h)
  {
    InGrid(li) && |ps| <= 2 && (|ps| == 2 ==> Acute(ps[0], ps[1]))
    && At(h, li).Link? && |At(h, li).bonds| == |ps|
    && (forall q :: q in ps ==>
          Candidate(g, li, q, cfg)
          && At(h, q).Link? && Bonded(h, li, q) && Bonded(h, q, li))
    && (forall q :: InGrid(q) && q != li && q !in ps ==> At(h, q) == At(g, q))
  }

  /**
   * Steps 6.4.1 to 6.4.3 after the first partner ps[0]: a second partner
   * is taken exactly when one of the free neighbours n lies at an acute
   * angle to ps[0], and it is one of those.
   */
  predicate SecondFrom(n: seq<Vector>, ps: seq<Vector>)
    requires |ps| >= 1
  {
    (|ps| == 2 <==> exists v :: v in n && Acute(v, ps[0]))
    && (|ps| == 2 ==> ps[1] in n && Acute(ps[1], ps[0]))
  }

  /**
   * The partners rule 6 picks for li in g: an acceptable pair of singly
   * bonded candidates when there is one (6.3); otherwise the only singly
   * bonded candidate (6.4) or, failing that, a free neighbour (6.6), then a
   * second one as SecondFrom says; no partner when neither exists (6.5).
   */
  ghost predicate RuleSixPartners(g: Grid, li: Vector, ps: seq<Vector>, cfg: Config)
    requires Shaped(g)
  {
    var hood := BondingHood(cfg);
    var m := Singles(g, li, hood);
    var n := Around(g, li, hood, FreeK);
    if |m| >= 2 && HasPair(g, m) then
      |ps| == 2 && ps[0] in m && ps[1] in m && PairOK(g, ps[0], ps[1])
    else if |m| == 1 then
      |ps| >= 1 && ps[0] == m[0] && SecondFrom(n, ps)
    else if n == [] then
      ps == []
    else
      |ps| >= 1 && ps[0] in n && SecondFrom(n, ps)
  }

  /** h is what `bonding(li)` makes of g: li bonded to the partners rule 6 picks, nothing else changed. */
  ghost predicate BondingRan(g: Grid, h: Grid, li: Vector, cfg: Config)
    requires Shaped(g) && Shaped(h)
  {
    exists ps :: BondedTo(g, h, li, ps, cfg) && RuleSixPartners(g, li, ps, cfg)
  }

  /** A neighbour other than the one `n.pop()` took is still in the list. */
  lemma InRest<T>(n: seq<T>, k: int, y: T)
    requires 0 <= k < |n| && y in n && y != n[k]
    ensures y in n[..k] + n[k + 1..]
  {
    var i :| 0 <= i < |n| && n[i] == y;
    if i < k {
      assert (n[..k] + n[k + 1..])[i] == y;
    } else {
      assert (n[..k] + n[k + 1..])[i - 1] == y;
    }
  }

  /** Forming no bond is bonding to no partners. */
  lemma NoBond(g: Grid, li: Vector, cfg: Config)
    requires Shaped(g) && InGrid(li) && At(g, li) == Link([])
    ensures BondsAdded(g, g) && SameKindCounts(g, g) && BondedTo(g, g, li, [], cfg)
  {
  }

  /** One bond from a free Link: what `bonding` leaves when it forms a single bond. */
  lemma OneBond(g: Grid, li: Vector, x: Vector, cfg: Config)
    requires GridOK(g, cfg.orthogonalBonding) && InGrid(li) && At(g, li) == Link([])
    requires Candidate(g, li, x, cfg)
    ensures CanBond(g, li, x) && (cfg.orthogonalBonding ==> OrthogonallyAdjacent(li, x))
    ensures BondedTo(g, WithBond(g, li, x), li, [x], cfg)
    ensures li.Add(N[At(WithBond(g, li, x), li).bonds[0]]) == x
  {
    FirstBond(g, li, x, cfg);
    WithBondCells(g, li, x);
    WithBondBonds(g, li, x);
  }

  /** An element of n with its k-th entry dropped is an element of n. */
  lemma InDropped<T>(n: seq<T>, k: int, y: T)
    requires 0 <= k < |n| && y in n[..k] + n[k + 1..]
    ensures y in n
  {
    assert y in n[..k] || y in n[k + 1..];
  }

  /** Two bonds from a free Link to two neighbours at an acute angle. */
  lemma TwoBonds(g: Grid, li: Vector, x: Vector, y: Vector, cfg: Config)
    requires GridOK(g, cfg.orthogonalBonding) && InGrid(li) && At(g, li) == Link([])
    requires Candidate(g, li, x, cfg)
    requires Candidate(g, li, y, cfg)
    requires Acute(x, y)
    ensures CanBond(g, li, x) && (cfg.orthogonalBonding ==> OrthogonallyAdjacent(li, x))
    ensures CanBond(WithBond(g, li, x), li, y) && (cfg.orthogonalBonding ==> OrthogonallyAdjacent(li, y))
    ensures BondedTo(g, WithBond(WithBond(g, li, x), li, y), li, [x, y], cfg)
  {
    FirstBond(g, li, x, cfg);
    SecondBond(g, li, x, y, cfg);
    var g1 := WithBond(g, li, x);
    SecondKeepsFirst(g, li, x, y);
    WithBondCells(g, li, x);
    WithBondCells(g1, li, y);
    WithBondBonds(g1, li, y);
  }

  /** A second bond from the free Link li leaves the first in place and li with two bonds. */
  lemma SecondKeepsFirst(g: Grid, li: Vector, x: Vector, y: Vector)
    requires Shaped(g) && CanBond(g, li, x) && At(g, li) == Link([]) && CanBond(WithBond(g, li, x), li, y)
    requires x != y
    ensures var h := WithBond(WithBond(g, li, x), li, y);
            At(h, x).Link? && Bonded(h, li, x) && Bonded(h, x, li) && |At(h, li).bonds| == 2
  {
    var g1 := WithBond(g, li, x);
    WithBondCells(g, li, x);
    WithBondCells(g1, li, y);
  }

  /** The cell `CA(c)` puts at p. */
  function Initial(cats: seq<Vector>, p: Vector): Cell {
    if p in cats then Catalyst else Substrate
  }

  /**
   * The constructor's loops have filled every cell before `at` in row-major
   * order and left the rest holes.
   */
  ghost predicate FilledTo(g: Grid, cats: seq<Vector>, at: Vector) {
    Shaped(g) && forall p :: InGrid(p) ==> At(g, p) == if Before(p, at) then Initial(cats, p) else Hole
  }

  /** Filling the cell at p moves the frontier one cell on and counts one Substrate unless p is a Catalyst. */
  lemma FillStep(g: Grid, cats: seq<Vector>, p: Vector)
    requires InGrid(p) && FilledTo(g, cats, p)
    ensures FilledTo(Set(g, p, Initial(cats, p)), cats, Vector(p.x + 1, p.y))
    ensures Count(Set(g, p, Initial(cats, p)), Cells(SubstrateK)) == Count(g, Cells(SubstrateK)) + (if p in cats then 0 else 1)
    ensures Count(Set(g, p, Initial(cats, p)), Cells(LinkK)) == Count(g, Cells(LinkK))
    ensures Count(Set(g, p, Initial(cats, p)), BondEnds) == Count(g, BondEnds)
  {
    SetCount(g, p, Initial(cats, p), Cells(SubstrateK));
    SetCount(g, p, Initial(cats, p), Cells(LinkK));
    SetCount(g, p, Initial(cats, p), BondEnds);
  }

  /** The end of one row is the start of the next. */
  lemma NextRow(g: Grid, cats: seq<Vector>, i: int)
    requires FilledTo(g, cats, Vector(SIZE, i))
    ensures FilledTo(g, cats, Vector(0, i + 1))
  {
    forall p | InGrid(p)
      ensures Before(p, Vector(SIZE, i)) == Before(p, Vector(0, i + 1))
    {
    }
  }

  /** Once every cell is filled there are no holes, so none fewer than the zero Links. */
  lemma InitialCounts(g: Grid, cats: seq<Vector>)
    requires FilledTo(g, cats, Vector(0, SIZE))
    ensures Count(g, Cells(HoleK)) == 0 && forall p :: InGrid(p) ==> At(g, p) == Initial(cats, p)
  {
    CountNone(g, Cells(HoleK));
  }

  /**
   * What `displaceS(z, s, allowExchange)` did to g, giving h: the Substrate at
   * s moved into a hole p next to it if there was one, else into a hole p
   * opposite a bonded orthogonal neighbour of s if there was one, and z moved
   * into s and left a hole; else, with allowExchange, z and s swapped; else
   * nothing changed and moved is false.
   */
  ghost predicate Displaced(g: Grid, h: Grid, z: Vector, s: Vector, allowExchange: bool, moved: bool, p: Vector)
    requires Shaped(g) && Shaped(h) && InGrid(z) && InGrid(s)
  {
    var nh := Around(g, s, MOORE, HoleK);
    var th := Through(g, s);
    if nh != [] then moved && p in nh && h == Rotate(g, z, s, p)
    else if th != [] then moved && p in th && h == Rotate(g, z, s, p)
    else if allowExchange then moved && h == Swap(g, z, s)
    else !moved && h == g
  }

  /**
   * The counts motionK keeps: Catalysts, Links and bond ends unchanged,
   * Substrates and holes together unchanged, Substrates never more (a
   * Catalyst that takes the cell of a swapped Substrate destroys it).
   */
  ghost predicate KCounts(g: Grid, h: Grid)
    requires Shaped(g) && Shaped(h)
  {
    Count(h, Cells(CatalystK)) == Count(g, Cells(CatalystK))
    && Count(h, Cells(LinkK)) == Count(g, Cells(LinkK))
    && Count(h, Cells(SubstrateK)) + Count(h, Cells(HoleK)) == Count(g, Cells(SubstrateK)) + Count(g, Cells(HoleK))
    && Count(h, Cells(SubstrateK)) <= Count(g, Cells(SubstrateK))
  }

  /** A cell `moveL(…, False)` moves a Link into: a Substrate (displaced) or a hole. */
  predicate Pushable(g: Grid, q: Vector)
    requires Shaped(g)
  {
    InGrid(q) && (At(g, q).Substrate? || At(g, q).Hole?)
  }

  lemma KCountsTransitive(g: Grid, h: Grid, k: Grid)
    requires Shaped(g) && Shaped(h) && Shaped(k) && KCounts(g, h) && KCounts(h, k)
    ensures KCounts(g, k)
  {
  }

  /** Equal counts are counts motionK keeps. */
  lemma SameCountsK(g: Grid, h: Grid)
    requires Shaped(g) && Shaped(h) && forall m :: Count(h, m) == Count(g, m)
    ensures KCounts(g, h) && SameKindCounts(g, h)
  {
  }

  /**
   * A move of the free Link at ni that leaves every other Link and
   * Catalyst where it was and every count as it was keeps the Catalyst at
   * ci's counts, bonds and other Catalysts as rule 3.3.2 requires.
   */
  lemma KLinkKeeps(g: Grid, h: Grid, ci: Vector, ni: Vector)
    requires Shaped(g) && Shaped(h) && InGrid(ni) && At(g, ni) == Link([])
    requires forall q :: InGrid(q) && q != ni && (At(g, q).Link? || At(g, q).Catalyst?) ==> At(h, q) == At(g, q)
    requires (forall m :: Count(h, m) == Count(g, m)) && BondedFixed(g, h)
    ensures KCounts(g, h) && BondedStay(g, h)
    ensures forall q :: InGrid(q) && q != ci && At(g, q).Catalyst? ==> At(h, q).Catalyst?
    ensures Count(h, Cells(SubstrateK)) == Count(g, Cells(SubstrateK))
    ensures Count(h, Cells(LinkK)) == Count(g, Cells(LinkK)) && Count(h, BondEnds) == Count(g, BondEnds)
  {
    SameCountsK(g, h);
    FixedStay(g, h);
  }

  /** With no hole to take the Substrate at s, a displacement with exchange puts it at z. */
  lemma DisplacedBySwap(g: Grid, h: Grid, z: Vector, s: Vector, p: Vector)
    requires Shaped(g) && Shaped(h) && InGrid(z) && InGrid(s)
    requires Displaced(g, h, z, s, true, true, p)
    requires Around(g, s, MOORE, HoleK) == [] && Through(g, s) == []
    ensures At(h, z) == At(g, s)
  {
    SwapCells(g, z, s);
  }

  /** Some neighbour of the free Link at ni is one `moveL(ni, h, False)` accepts. */
  predicate CanPush(g: Grid, ni: Vector)
    requires Shaped(g)
  {
    exists q :: q in InRangeAround(ni, MOORE) && Pushable(g, q)
  }

  /** h is g after one production at pi: two Substrates fewer, one Link and one hole more. */
  ghost predicate ProducedOne(g: Grid, h: Grid, pi: Vector)
    requires Shaped(g) && Shaped(h)
  {
    InGrid(pi) && At(h, pi) == Link([])
    && Count(h, Cells(SubstrateK)) + 2 == Count(g, Cells(SubstrateK))
    && Count(h, Cells(LinkK)) == Count(g, Cells(LinkK)) + 1
    && Count(h, Cells(HoleK)) == Count(g, Cells(HoleK)) + 1
    && Count(h, Cells(CatalystK)) == Count(g, Cells(CatalystK))
    && Count(h, BondEnds) == Count(g, BondEnds)
    && forall q :: InGrid(q) && At(g, q).Link? ==> At(h, q) == At(g, q)
  }

  ghost predicate ProducedNone(g: Grid, h: Grid)
    requires Shaped(g) && Shaped(h)
  {
    h == g
  }

  /** The counters after k productions. */
  ghost predicate Shifted(s0: int, l0: int, s: int, l: int, k: nat)
  {
    s == s0 - 2 * k && l == l0 + k
  }

  /** Every position of l holds a free Link. */
  ghost predicate FreshLinks(g: Grid, l: seq<Vector>)
    requires Shaped(g)
  {
    forall q :: q in l ==> InGrid(q) && At(g, q) == Link([])
  }

  lemma FreshLinksStep(g: Grid, h: Grid, l: seq<Vector>, pi: Vector)
    requires Shaped(g) && Shaped(h) && FreshLinks(g, l) && ProducedOne(g, h, pi)
    ensures FreshLinks(h, l + [pi])
  {
  }

  /** No Catalyst of cs has a fertile Substrate around it. */
  ghost predicate Barren(g: Grid, cs: seq<Vector>, hood: seq<Vector>)
    requires Shaped(g)
  {
    cs == [] || (Barren(g, cs[..|cs| - 1], hood) && Fertile(g, cs[|cs| - 1], hood) == [])
  }

  lemma BarrenStep(g: Grid, cs: seq<Vector>, i: nat, hood: seq<Vector>)
    requires Shaped(g) && i < |cs|
    ensures Barren(g, cs[..i + 1], hood) <==> Barren(g, cs[..i], hood) && Fertile(g, cs[i], hood) == []
  {
    assert cs[..i + 1][..i] == cs[..i];
  }

  lemma {:induction false} BarrenIff(g: Grid, cs: seq<Vector>, hood: seq<Vector>)
    requires Shaped(g)
    ensures Barren(g, cs, hood) <==> forall c :: c in cs ==> Fertile(g, c, hood) == []
    decreases |cs|
  {
    if cs != [] {
      var init := cs[..|cs| - 1];
      BarrenIff(g, init, hood);
      assert cs == init + [cs[|cs| - 1]];
      assert forall c :: c in cs <==> c in init || c == cs[|cs| - 1];
    }
  }

  /** h is g after k productions. */
  ghost predicate ProducedMany(g: Grid, h: Grid, k: nat)
    requires Shaped(g) && Shaped(h)
  {
    Count(h, Cells(SubstrateK)) + 2 * k == Count(g, Cells(SubstrateK))
    && Count(h, Cells(LinkK)) == Count(g, Cells(LinkK)) + k
    && Count(h, Cells(HoleK)) == Count(g, Cells(HoleK)) + k
    && Count(h, Cells(CatalystK)) == Count(g, Cells(CatalystK))
    && Count(h, BondEnds) == Count(g, BondEnds)
  }

  lemma ProducedManyNone(g: Grid)
    requires Shaped(g)
    ensures ProducedMany(g, g, 0)
  {
  }

  lemma ProducedManyStep(g: Grid, h: Grid, k: Grid, n: nat, pi: Vector)
    requires Shaped(g) && Shaped(h) && Shaped(k) && ProducedMany(g, h, n) && ProducedOne(h, k, pi)
    ensures ProducedMany(g, k, n + 1)
  {
  }

  lemma ProducedManyStay(g: Grid, h: Grid, k: Grid, n: nat)
    requires Shaped(g) && Shaped(h) && Shaped(k) && ProducedMany(g, h, n) && ProducedNone(h, k)
    ensures ProducedMany(g, k, n)
  {
  }

  /**
   * Rules 4.2 and 4.2.1: a random fertile Substrate pi, then a random fertile
   * Substrate q orthogonally adjacent to it (the only one when there is one).
   */
  method ChooseProduction(g: Grid, ci: Vector, hood: seq<Vector>) returns (pi: Vector, q: Vector)
    requires Shaped(g) && Fertile(g, ci, hood) != []
    ensures pi in Fertile(g, ci, hood) && q in Fertile(g, ci, hood) && OrthogonallyAdjacent(pi, q)
  {
    var n := Fertile(g, ci, hood);
    var k :| 0 <= k < |n|;
    pi := n[k];
    var adj := AdjacentTo(n, pi);
    PartnerExists(g, ci, hood, pi);
    if |adj| == 1 {
      q := adj[0];
    } else {
      var j :| 0 <= j < |adj|;
      q := adj[j];
    }
  }

  /** Rule 4.2.1 always finds a partner: the list orthogonally adjacent to a fertile pi is non-empty. */
  lemma PartnerExists(g: Grid, ci: Vector, hood: seq<Vector>, pi: Vector)
    requires Shaped(g) && pi in Fertile(g, ci, hood)
    ensures |AdjacentTo(Fertile(g, ci, hood), pi)| > 0
  {
    FertilePartner(g, ci, hood, pi);
    var w :| w in Fertile(g, ci, hood) && OrthogonallyAdjacent(pi, w);
    assert w in AdjacentTo(Fertile(g, ci, hood), pi);
  }

  /**
   * One production at the fertile pi with the fertile partner q keeps the
   * bond invariant and changes the counts as ProducedOne says.
   */
  lemma ProduceKeeps(g: Grid, ci: Vector, hood: seq<Vector>, pi: Vector, q: Vector, orth: bool)
    requires GridOK(g, orth)
    requires pi in Fertile(g, ci, hood) && q in Fertile(g, ci, hood) && OrthogonallyAdjacent(pi, q)
    ensures InGrid(pi) && InGrid(q) && pi != q
    ensures GridOK(Produce(g, pi, q), orth) && ProducedOne(g, Produce(g, pi, q), pi)
  {
    FertileMembers(g, ci, hood, pi);
    FertileMembers(g, ci, hood, q);
    ProduceCounts(g, pi, q);
    BondedFixedKeepsOK(g, Produce(g, pi, q), orth);
  }

  /** A bond of ni that reaches c is the bond between them, and pairUnbond removes it. */
  lemma UnbondFound(g: Grid, ni: Vector, c: Vector, b: int, orth: bool)
    requires GridOK(g, orth) && InGrid(ni) && InGrid(c) && ni != c && At(g, ni).Link? && At(g, c).Link?
    requires b in At(g, ni).bonds && 0 <= b < |N| && ni.Add(N[b]) == c
    ensures Bonded(g, ni, c) && Bonded(g, c, ni)
    ensures At(WithoutBond(g, ni, c), ni).Link? && !Bonded(WithoutBond(g, ni, c), ni, c)
  {
    BondTargets(g, ni, orth);
    BondedBack(g, ni, c, orth);
    WithoutBondCells(g, ni, c);
    assert LinkOK(g, ni, orth);
    RemoveFirstGone(At(g, ni).bonds, Direction(ni, c));
  }

  /** No bond of ni reaches c: ni is not bonded to c. */
  lemma UnbondAbsent(g: Grid, ni: Vector, c: Vector)
    requires Shaped(g) && InGrid(ni) && At(g, ni).Link?
    requires forall j :: 0 <= j < |At(g, ni).bonds| ==>
      0 <= At(g, ni).bonds[j] < |N| && ni.Add(N[At(g, ni).bonds[j]]) != c
    ensures !Bonded(g, ni, c)
  {
  }

  /**
   * `breakBonds(c)` after the neighbours in d: each of them has lost its
   * bond to c, every other cell but c is as in g0, and c keeps only bonds
   * of g0 towards cells outside d.
   */
  ghost predicate Breaking(g0: Grid, g: Grid, c: Vector, d: seq<Vector>)
    requires Shaped(g0) && Shaped(g) && InGrid(c)
  {
    At(g0, c).Link? && At(g, c).Link? && BrokenCells(g0, g, c, d) && BrokenBonds(g0, g, c, d)
  }

  ghost predicate BrokenCells(g0: Grid, g: Grid, c: Vector, d: seq<Vector>)
    requires Shaped(g0) && Shaped(g) && InGrid(c)
  {
    forall q :: InGrid(q) && q != c ==> At(g, q) == (if q in d then Unbonded(g0, c, q) else At(g0, q))
  }

  ghost predicate BrokenBonds(g0: Grid, g: Grid, c: Vector, d: seq<Vector>)
    requires Shaped(g0) && Shaped(g) && InGrid(c) && At(g0, c).Link? && At(g, c).Link?
  {
    forall b :: b in At(g, c).bonds ==> b in At(g0, c).bonds && 0 <= b < |N| && c.Add(N[b]) !in d
  }

  lemma BreakingStart(g: Grid, c: Vector, orth: bool)
    requires GridOK(g, orth) && InGrid(c) && At(g, c).Link?
    ensures Breaking(g, g, c, [])
  {
    BondTargets(g, c, orth);
  }

  /** The neighbours of c are Links other than c, listed once each. */
  lemma AroundLinks(g: Grid, c: Vector)
    requires Shaped(g) && InGrid(c)
    ensures var n := Around(g, c, MOORE, LinkK);
      Distinct(n) && forall q :: q in n ==> InGrid(q) && q != c && At(g, q).Link?
  {
    var n := Around(g, c, MOORE, LinkK);
    MooreMembers(Vector(0, 0));
    AroundDistinct(g, c, MOORE, LinkK);
    forall q | q in n
      ensures q != c
    {
      assert q.Subtract(c) in MOORE;
    }
  }

  /** `breakBonds`' inner loop for the Link ni not yet visited keeps Breaking and removes at most one bond of c. */
  lemma BreakingStep(g0: Grid, g: Grid, h: Grid, c: Vector, d: seq<Vector>, ni: Vector, orth: bool)
    requires GridOK(g, orth) && Shaped(g0) && Shaped(h) && InGrid(c)
    requires Breaking(g0, g, c, d) && ni !in d
    requires InGrid(ni) && ni != c && At(g0, ni).Link?
    requires At(g, ni) == At(g0, ni)
    requires Bonded(g, ni, c) ==> Bonded(g, c, ni) && h == WithoutBond(g, ni, c)
    requires !Bonded(g, ni, c) ==> h == g
    ensures Breaking(g0, h, c, d + [ni])
    ensures |At(h, c).bonds| == |At(g, c).bonds| - (if Bonded(g, ni, c) then 1 else 0)
  {
    if Bonded(g, ni, c) {
      WithoutBondCells(g, ni, c);
      UnbondCells(g0, g, c, d, ni);
      assert LinkOK(g, c, orth);
      UnbondBonds(g0, g, c, d, ni);
    } else {
      SkipCells(g0, g, c, d, ni);
      SkipBonds(g0, g, c, d, ni, orth);
    }
  }

  lemma UnbondCells(g0: Grid, g: Grid, c: Vector, d: seq<Vector>, ni: Vector)
    requires Shaped(g0) && Shaped(g) && InGrid(c) && BrokenCells(g0, g, c, d) && ni !in d
    requires InGrid(ni) && ni != c && At(g, ni) == At(g0, ni) && At(g, ni).Link? && At(g, c).Link?
    requires Bonded(g, ni, c) && Bonded(g, c, ni)
    ensures BrokenCells(g0, WithoutBond(g, ni, c), c, d + [ni])
  {
    WithoutBondCells(g, ni, c);
  }

  lemma UnbondBonds(g0: Grid, g: Grid, c: Vector, d: seq<Vector>, ni: Vector)
    requires Shaped(g0) && Shaped(g) && InGrid(c) && At(g0, c).Link? && At(g, c).Link?
    requires BrokenBonds(g0, g, c, d)
    requires InGrid(ni) && ni != c && At(g, ni).Link?
    requires Bonded(g, ni, c) && Bonded(g, c, ni) && Distinct(At(g, c).bonds)
    ensures BrokenBonds(g0, WithoutBond(g, ni, c), c, d + [ni])
    ensures |At(WithoutBond(g, ni, c), c).bonds| == |At(g, c).bonds| - 1
  {
    var h := WithoutBond(g, ni, c);
    var e := Direction(c, ni);
    var bs := At(g, c).bonds;
    WithoutBondCells(g, ni, c);
    assert At(h, c).bonds == RemoveFirst(bs, e);
    RemoveFirstGone(bs, e);
    forall b | b in RemoveFirst(bs, e)
      ensures b in At(g0, c).bonds && 0 <= b < |N| && c.Add(N[b]) !in d + [ni]
    {
      assert b in bs && b != e;
      assert b in At(g0, c).bonds && 0 <= b < |N| && c.Add(N[b]) !in d;
      DistinctDirections(c, b, e);
    }
  }

  lemma SkipCells(g0: Grid, g: Grid, c: Vector, d: seq<Vector>, ni: Vector)
    requires Shaped(g0) && Shaped(g) && InGrid(c) && BrokenCells(g0, g, c, d) && ni !in d
    requires InGrid(ni) && ni != c && At(g, ni) == At(g0, ni) && At(g, ni).Link? && !Bonded(g, ni, c)
    ensures BrokenCells(g0, g, c, d + [ni])
  {
  }

  lemma SkipBonds(g0: Grid, g: Grid, c: Vector, d: seq<Vector>, ni: Vector, orth: bool)
    requires GridOK(g, orth) && Shaped(g0) && InGrid(c) && At(g0, c).Link? && At(g, c).Link?
    requires BrokenBonds(g0, g, c, d)
    requires InGrid(ni) && At(g, ni).Link? && !Bonded(g, ni, c)
    ensures BrokenBonds(g0, g, c, d + [ni])
  {
    BondTargets(g, c, orth);
  }

  /** When every neighbour is done, c holds no bond and each neighbour has lost its bond to c. */
  lemma BreakingDone(g0: Grid, g: Grid, c: Vector, orth: bool)
    requires GridOK(g0, orth) && Shaped(g) && InGrid(c)
    requires Breaking(g0, g, c, Around(g0, c, MOORE, LinkK))
    ensures At(g, c) == Link([])
    ensures forall q :: InGrid(q) && q != c ==> At(g, q) == Unbonded(g0, c, q)
  {
    var n := Around(g0, c, MOORE, LinkK);
    forall q | InGrid(q) && At(g0, q).Link? && Bonded(g0, q, c)
      ensures q in n
    {
      BondedNeighbour(g0, q, c, orth);
      BondedBack(g0, q, c, orth);
      var e := Direction(c, q);
      DirectionSelf(c, q);
      DirectionInHood(e);
      assert c.Add(N[e]) == q;
    }
    BreakingEmpty(g0, g, c, orth);
  }

  lemma BreakingEmpty(g0: Grid, g: Grid, c: Vector, orth: bool)
    requires GridOK(g0, orth) && Shaped(g) && InGrid(c)
    requires Breaking(g0, g, c, Around(g0, c, MOORE, LinkK))
    ensures At(g, c).bonds == []
  {
    var n := Around(g0, c, MOORE, LinkK);
    var bs := At(g, c).bonds;
    if bs != [] {
      var b := bs[0];
      assert b in bs;
      BondTargets(g0, c, orth);
      DirectionInHood(b);
    }
  }

  /**
   * The pairs s join orthogonally adjacent Links of c's Moore neighbourhood,
   * as every pair rebond lists does.
   */
  ghost predicate NearPairs(g: Grid, c: Vector, s: seq<Pair>)
    requires Shaped(g)
  {
    forall pr :: pr in s ==>
      InGrid(pr.0) && InGrid(pr.1) && At(g, pr.0).Link? && At(g, pr.1).Link?
      && OrthogonallyAdjacent(pr.0, pr.1) && pr.0.Subtract(c) in MOORE && pr.1.Subtract(c) in MOORE
  }

  /** h agrees with g outside c and its Moore neighbourhood. */
  ghost predicate SameOutside(g: Grid, h: Grid, c: Vector)
    requires Shaped(g) && Shaped(h)
  {
    forall q :: InGrid(q) && q != c && q.Subtract(c) !in MOORE ==> At(h, q) == At(g, q)
  }

  /**
   * What rebond does to g around c: h only adds bonds, n of them, and
   * nothing outside c's neighbourhood changes.
   */
  ghost predicate BondedAround(g: Grid, h: Grid, c: Vector, n: int)
    requires Shaped(g) && Shaped(h)
  {
    BondsAdded(g, h) && SameKindCounts(g, h) && SameOutside(g, h, c)
    && Count(h, BondEnds) == Count(g, BondEnds) + 2 * n
  }

  lemma BondedAroundTransitive(g0: Grid, g1: Grid, g2: Grid, c: Vector, n1: int, n2: int)
    requires Shaped(g0) && Shaped(g1) && Shaped(g2)
    requires BondedAround(g0, g1, c, n1) && BondedAround(g1, g2, c, n2)
    ensures BondedAround(g0, g2, c, n1 + n2)
  {
    BondsAddedTransitive(g0, g1, g2);
  }

  /** One more pair near c bonds: rebond's state moves on to the next pair. */
  lemma JoinedMore(g0: Grid, g: Grid, h: Grid, c: Vector, s: seq<Pair>, i: int)
    requires Shaped(g0) && Shaped(g) && Shaped(h) && NearPairs(g0, c, s)
    requires BondedAround(g0, g, c, i) && JoinedSoFar(g0, g, s, i)
    requires i < |s| && CanBond(g, s[i].0, s[i].1) && h == WithBond(g, s[i].0, s[i].1)
    requires SameKindCounts(g, h) && BondsAdded(g, h) && Count(h, BondEnds) == Count(g, BondEnds) + 2
    ensures BondedAround(g0, h, c, i + 1) && JoinedSoFar(g0, h, s, i + 1)
  {
    JoinedNext(g0, g, s, i);
    assert s[i] in s;
    PairBondedAround(g, h, c, s[i].0, s[i].1);
    BondedAroundTransitive(g0, g, h, c, i, 1);
  }

  /** Bonding one pair of c's Moore neighbours is a rebond around c that forms one bond. */
  lemma PairBondedAround(g: Grid, h: Grid, c: Vector, x: Vector, y: Vector)
    requires Shaped(g) && Shaped(h) && CanBond(g, x, y) && h == WithBond(g, x, y)
    requires x.Subtract(c) in MOORE && y.Subtract(c) in MOORE
    requires SameKindCounts(g, h) && BondsAdded(g, h) && Count(h, BondEnds) == Count(g, BondEnds) + 2
    ensures BondedAround(g, h, c, 1)
  {
    WithBondCells(g, x, y);
  }

  /**
   * Rebond's first list m and its selection s: m holds distinct singly
   * bonded Links around c, and s pairs near Links drawn from m.
   */
  ghost predicate RebondInput(g: Grid, c: Vector, m: seq<Vector>, s: seq<Pair>)
    requires Shaped(g)
  {
    Distinct(m) && NearPairs(g, c, s)
    && (forall q :: q in m ==> InGrid(q) && At(g, q).Link? && |At(g, q).bonds| == 1 && q.Subtract(c) in MOORE)
    && (forall pr :: pr in s ==> pr.0 in m && pr.1 in m)
  }

  /** The singly bonded Moore neighbours of c and their selected pairs are such an input. */
  lemma RebondInputHolds(g: Grid, c: Vector)
    requires Shaped(g) && InGrid(c)
    ensures var m := Around(g, c, MOORE, SingleK);
            RebondInput(g, c, m, SelectAsWritten(CandidatePairs(g, m)))
  {
    var m := Around(g, c, MOORE, SingleK);
    MooreMembers(Vector(0, 0));
    AroundDistinct(g, c, MOORE, SingleK);
    SelectedNear(g, c, m);
  }

  /** What rebond selects from Links m around c joins near pairs drawn from m. */
  lemma SelectedNear(g: Grid, c: Vector, m: seq<Vector>)
    requires Shaped(g) && forall q :: q in m ==> InGrid(q) && At(g, q).Link? && q.Subtract(c) in MOORE
    ensures var s := SelectAsWritten(CandidatePairs(g, m));
            NearPairs(g, c, s) && forall pr :: pr in s ==> pr.0 in m && pr.1 in m
  {
    SelectionIsSubset(CandidatePairs(g, m));
  }

  /** Adding bonds keeps near pairs near. */
  lemma NearPairsStay(g: Grid, h: Grid, c: Vector, s: seq<Pair>)
    requires Shaped(g) && Shaped(h) && BondsAdded(g, h) && NearPairs(g, c, s)
    ensures NearPairs(h, c, s)
  {
    forall pr | pr in s
      ensures At(h, pr.0).Link? && At(h, pr.1).Link?
    {
      assert At(g, pr.0).Link? && At(g, pr.1).Link?;
    }
  }

  /**
   * The `pairBond` calls of step 7.3 or 7.5 over the selection s, in order,
   * up to the first pair whose `Link.bond` assertions would fail: whether
   * every pair bonded, the grid they leave, and how many pairs bonded.
   */
  function JoinPairs(g: Grid, s: seq<Pair>): (r: (bool, Grid, nat))
    requires Shaped(g)
    ensures Shaped(r.1) && r.2 <= |s| && (r.0 <==> r.2 == |s|)
    decreases |s|
  {
    if s == [] then (true, g, 0)
    else if !CanBond(g, s[0].0, s[0].1) then (false, g, 0)
    else
      var t := JoinPairs(WithBond(g, s[0].0, s[0].1), s[1..]);
      (t.0, t.1, t.2 + 1)
  }

  /** JoinPairs from the i-th pair on: that pair bonds and the rest follow, or it stops there. */
  lemma JoinPairsStep(g: Grid, s: seq<Pair>, i: int)
    requires Shaped(g) && 0 <= i < |s|
    ensures JoinPairs(g, s[i..]) ==
      if CanBond(g, s[i].0, s[i].1) then
        var t := JoinPairs(WithBond(g, s[i].0, s[i].1), s[i + 1..]); (t.0, t.1, t.2 + 1)
      else (false, g, 0)
  {
    assert s[i..][0] == s[i] && s[i..][1..] == s[i + 1..];
  }

  /** r, an outcome of JoinPairs, is (ok, g, n); stated by components. */
  ghost predicate Ended(r: (bool, Grid, nat), ok: bool, g: Grid, n: int) {
    r.0 == ok && r.1 == g && r.2 == n
  }

  /** JoinPairs over s from g0 is JoinPairs over s[i..] from g, with i more pairs bonded. */
  ghost predicate JoinedSoFar(g0: Grid, g: Grid, s: seq<Pair>, i: int)
    requires Shaped(g0) && Shaped(g)
  {
    0 <= i <= |s| && var r, t := JoinPairs(g0, s), JoinPairs(g, s[i..]); r.0 == t.0 && r.1 == t.1 && r.2 == t.2 + i
  }

  /** One more pair that bonds: JoinedSoFar moves on. */
  lemma JoinedNext(g0: Grid, g: Grid, s: seq<Pair>, i: int)
    requires Shaped(g0) && Shaped(g) && JoinedSoFar(g0, g, s, i) && i < |s| && CanBond(g, s[i].0, s[i].1)
    ensures JoinedSoFar(g0, WithBond(g, s[i].0, s[i].1), s, i + 1)
  {
    JoinPairsStep(g, s, i);
  }

  /** A pair that cannot bond: JoinPairs from g0 stops there. */
  lemma JoinedStops(g0: Grid, g: Grid, s: seq<Pair>, i: int)
    requires Shaped(g0) && Shaped(g) && JoinedSoFar(g0, g, s, i) && i < |s| && !CanBond(g, s[i].0, s[i].1)
    ensures Ended(JoinPairs(g0, s), false, g, i)
  {
    JoinPairsStep(g, s, i);
  }

  /** JoinedSoFar at the start and at the end of s. */
  lemma JoinedEnds(g0: Grid, g: Grid, s: seq<Pair>)
    requires Shaped(g0) && Shaped(g)
    ensures JoinedSoFar(g0, g0, s, 0)
    ensures JoinedSoFar(g0, g, s, |s|) ==> Ended(JoinPairs(g0, s), true, g, |s|)
  {
    assert s[0..] == s && s[|s|..] == [];
  }

  /** The pairs of s bond only existing Links: no kind changes, and two bond ends per pair bonded. */
  lemma {:induction false} JoinPairsAdds(g: Grid, s: seq<Pair>)
    requires Shaped(g)
    ensures var r := JoinPairs(g, s);
            BondsAdded(g, r.1) && SameKindCounts(g, r.1) && Count(r.1, BondEnds) == Count(g, BondEnds) + 2 * r.2
    decreases |s|
  {
    if s != [] && CanBond(g, s[0].0, s[0].1) {
      var w := WithBond(g, s[0].0, s[0].1);
      WithBondAdds(g, s[0].0, s[0].1);
      WithBondCounts(g, s[0].0, s[0].1);
      JoinPairsAdds(w, s[1..]);
      BondsAddedTransitive(g, w, JoinPairs(w, s[1..]).1);
    }
  }

  /** q is an end of no pair of s. */
  predicate Untouched(q: Vector, s: seq<Pair>) {
    forall pr :: pr in s ==> q != pr.0 && q != pr.1
  }

  /** Cells no pair of s names keep their contents. */
  lemma {:induction false} JoinPairsFrame(g: Grid, s: seq<Pair>, q: Vector)
    requires Shaped(g) && InGrid(q) && Untouched(q, s)
    ensures At(JoinPairs(g, s).1, q) == At(g, q)
    decreases |s|
  {
    if s != [] && CanBond(g, s[0].0, s[0].1) {
      assert s[0] in s;
      var w := WithBond(g, s[0].0, s[0].1);
      WithBondCells(g, s[0].0, s[0].1);
      JoinPairsFrame(w, s[1..], q);
    }
  }

  /** Joining the pairs s keeps the invariant when, with orthogonal bonding, every pair is orthogonally adjacent. */
  lemma {:induction false} JoinPairsKeepsOK(g: Grid, s: seq<Pair>, orth: bool)
    requires GridOK(g, orth) && forall pr :: pr in s ==> OrthogonallyAdjacent(pr.0, pr.1)
    ensures GridOK(JoinPairs(g, s).1, orth)
    decreases |s|
  {
    if s != [] && CanBond(g, s[0].0, s[0].1) {
      assert s[0] in s;
      WithBondKeepsOK(g, s[0].0, s[0].1, orth);
      JoinPairsKeepsOK(WithBond(g, s[0].0, s[0].1), s[1..], orth);
    }
  }

  /** x and y are orthogonally adjacent Links of c's Moore neighbourhood. */
  predicate Near(c: Vector, x: Vector, y: Vector) {
    OrthogonallyAdjacent(x, y) && x.Subtract(c) in MOORE && y.Subtract(c) in MOORE
  }

  /** The k-th bond of q in h was not there in g. */
  ghost predicate NewBond(g: Grid, h: Grid, q: Vector, k: int)
    requires Shaped(g) && Shaped(h)
  {
    InGrid(q) && At(h, q).Link? && 0 <= k < |At(h, q).bonds| && !(At(g, q).Link? && k < |At(g, q).bonds|)
  }

  /** Every bond h has that g had not joins two near cells around c. */
  ghost predicate AddedNear(g: Grid, h: Grid, c: Vector)
    requires Shaped(g) && Shaped(h)
  {
    forall q, k :: NewBond(g, h, q, k) ==>
      0 <= At(h, q).bonds[k] < |N| && Near(c, q, q.Add(N[At(h, q).bonds[k]]))
  }

  lemma AddedNearTransitive(g: Grid, h: Grid, k: Grid, c: Vector)
    requires Shaped(g) && Shaped(h) && Shaped(k) && BondsAdded(g, h) && BondsAdded(h, k)
    requires AddedNear(g, h, c) && AddedNear(h, k, c)
    ensures AddedNear(g, k, c)
  {
    forall q, i | NewBond(g, k, q, i)
      ensures 0 <= At(k, q).bonds[i] < |N| && Near(c, q, q.Add(N[At(k, q).bonds[i]]))
    {
      if At(h, q).Link? && i < |At(h, q).bonds| {
        assert At(k, q).bonds[i] == At(h, q).bonds[i];
        assert NewBond(g, h, q, i);
      } else {
        assert NewBond(h, k, q, i);
      }
    }
  }

  /** Bonding near pairs adds only bonds between near cells. */
  /** The bond between two near cells x and y around c is a bond near c. */
  lemma WithBondNear(g: Grid, c: Vector, x: Vector, y: Vector)
    requires Shaped(g) && CanBond(g, x, y) && Near(c, x, y)
    ensures AddedNear(g, WithBond(g, x, y), c)
  {
    var w := WithBond(g, x, y);
    WithBondCells(g, x, y);
    forall q, i | NewBond(g, w, q, i)
      ensures 0 <= At(w, q).bonds[i] < |N| && Near(c, q, q.Add(N[At(w, q).bonds[i]]))
    {
      DirectionBack(x, y);
    }
  }

  lemma {:induction false} JoinPairsNear(g: Grid, c: Vector, s: seq<Pair>)
    requires Shaped(g) && NearPairs(g, c, s)
    ensures AddedNear(g, JoinPairs(g, s).1, c)
    decreases |s|
  {
    if s != [] && CanBond(g, s[0].0, s[0].1) {
      var x, y := s[0].0, s[0].1;
      assert s[0] in s;
      var w := WithBond(g, x, y);
      WithBondNear(g, c, x, y);
      WithBondAdds(g, x, y);
      NearPairsStay(g, w, c, s);
      assert NearPairs(w, c, s[1..]) by {
        forall pr | pr in s[1..] ensures pr in s { }
      }
      JoinPairsNear(w, c, s[1..]);
      JoinPairsAdds(w, s[1..]);
      AddedNearTransitive(g, w, JoinPairs(w, s[1..]).1, c);
    }
  }

  /** The Link at q holds exactly one bond. */
  predicate Single(g: Grid, q: Vector)
    requires Shaped(g)
  {
    InGrid(q) && At(g, q).Link? && |At(g, q).bonds| == 1
  }

  /**
   * A pair step 7.3 can meet once earlier pairs have bonded: orthogonally
   * adjacent Links with one or two bonds each, not bonded to each other
   * while both still have one.
   */
  ghost predicate PassPair(g: Grid, pr: Pair)
    requires Shaped(g)
  {
    InGrid(pr.0) && InGrid(pr.1) && At(g, pr.0).Link? && At(g, pr.1).Link? && OrthogonallyAdjacent(pr.0, pr.1)
    && 1 <= |At(g, pr.0).bonds| <= 2 && 1 <= |At(g, pr.1).bonds| <= 2
    && (Single(g, pr.0) && Single(g, pr.1) ==> !Bonded(g, pr.0, pr.1) && !Bonded(g, pr.1, pr.0))
  }

  /** After the two single Links of p bond, they hold two bonds; every other cell is as it was. */
  lemma SingleAfter(g: Grid, p: Pair, q: Vector)
    requires Shaped(g) && PassPair(g, p) && Single(g, p.0) && Single(g, p.1) && InGrid(q)
    ensures CanBond(g, p.0, p.1)
    ensures Single(WithBond(g, p.0, p.1), q) <==> q != p.0 && q != p.1 && Single(g, q)
    ensures q != p.0 && q != p.1 ==> At(WithBond(g, p.0, p.1), q) == At(g, q)
    ensures (q == p.0 || q == p.1) ==> At(WithBond(g, p.0, p.1), q).Link? && |At(WithBond(g, p.0, p.1), q).bonds| == 2
  {
    WithBondCells(g, p.0, p.1);
  }

  /** The pairs after p still meet PassPair once p has bonded. */
  lemma PassPairsAfter(g: Grid, p: Pair, t: seq<Pair>)
    requires Shaped(g) && PassPair(g, p) && Single(g, p.0) && Single(g, p.1)
    requires forall pr :: pr in t ==> PassPair(g, pr)
    ensures CanBond(g, p.0, p.1)
    ensures forall pr :: pr in t ==> PassPair(WithBond(g, p.0, p.1), pr)
  {
    SingleAfter(g, p, p.0);
    forall pr | pr in t
      ensures PassPair(WithBond(g, p.0, p.1), pr)
    {
      SingleAfter(g, p, pr.0);
      SingleAfter(g, p, pr.1);
    }
  }

  /** Once p has bonded, the later pairs are all single exactly when none shares a cell with p and all were single. */
  lemma SinglesAfter(g: Grid, p: Pair, t: seq<Pair>)
    requires Shaped(g) && PassPair(g, p) && Single(g, p.0) && Single(g, p.1)
    requires forall pr :: pr in t ==> PassPair(g, pr)
    ensures CanBond(g, p.0, p.1)
    ensures (forall pr :: pr in t ==> Single(WithBond(g, p.0, p.1), pr.0) && Single(WithBond(g, p.0, p.1), pr.1))
        <==> (forall pr :: pr in t ==> !Shares(p, pr) && Single(g, pr.0) && Single(g, pr.1))
  {
    SingleAfter(g, p, p.0);
    forall pr | pr in t
      ensures (Single(WithBond(g, p.0, p.1), pr.0) && Single(WithBond(g, p.0, p.1), pr.1))
          <==> (!Shares(p, pr) && Single(g, pr.0) && Single(g, pr.1))
    {
      SingleAfter(g, p, pr.0);
      SingleAfter(g, p, pr.1);
    }
  }

  /**
   * Over such pairs, every `pairBond` succeeds exactly when no two pairs
   * share a cell and every cell still holds a single bond.
   */
  lemma {:induction false} JoinPairsIff(g: Grid, s: seq<Pair>)
    requires Shaped(g) && forall pr :: pr in s ==> PassPair(g, pr)
    ensures JoinPairs(g, s).0 <==> !Overlapping(s) && forall pr :: pr in s ==> Single(g, pr.0) && Single(g, pr.1)
    decreases |s|
  {
    if s != [] {
      var p, t := s[0], s[1..];
      assert p in s;
      assert forall pr :: pr in s <==> pr == p || pr in t;
      if Single(g, p.0) && Single(g, p.1) {
        PassPairsAfter(g, p, t);
        SinglesAfter(g, p, t);
        JoinPairsIff(WithBond(g, p.0, p.1), t);
      }
    }
  }

  /** Pairs that can each bond now and share no cell all bond. */
  lemma {:induction false} JoinsWhenDisjoint(g: Grid, s: seq<Pair>)
    requires Shaped(g) && !Overlapping(s) && forall pr :: pr in s ==> CanBond(g, pr.0, pr.1)
    ensures JoinPairs(g, s).0
    decreases |s|
  {
    if s != [] {
      var p := s[0];
      assert p in s;
      var w := WithBond(g, p.0, p.1);
      WithBondCells(g, p.0, p.1);
      forall pr | pr in s[1..]
        ensures CanBond(w, pr.0, pr.1)
      {
        assert pr in s && !Shares(p, pr);
      }
      JoinsWhenDisjoint(w, s[1..]);
    }
  }

  /** `list.remove(x)` when x is present; otherwise the list. */
  function Drop(m: seq<Vector>, x: Vector): (r: seq<Vector>)
    ensures forall q :: q in r ==> q in m
  {
    if x in m then RemoveFirst(m, x) else m
  }

  /** Rebond's list m after the `m.remove` of both cells of every pair of s in step 7.3. */
  function Unpaired(m: seq<Vector>, s: seq<Pair>): (r: seq<Vector>)
    ensures forall q :: q in r ==> q in m
    decreases |s|
  {
    if s == [] then m else Unpaired(Drop(Drop(m, s[0].0), s[0].1), s[1..])
  }

  /** Unpaired from the i-th pair on, one pair at a time. */
  lemma UnpairedStep(m: seq<Vector>, s: seq<Pair>, i: int)
    requires 0 <= i < |s|
    ensures Unpaired(m, s[i..]) == Unpaired(Drop(Drop(m, s[i].0), s[i].1), s[i + 1..])
  {
    assert s[i..][0] == s[i] && s[i..][1..] == s[i + 1..];
  }

  /** From a list without duplicates, Unpaired leaves exactly the cells no pair names. */
  lemma {:induction false} UnpairedAvoids(m: seq<Vector>, s: seq<Pair>)
    requires Distinct(m)
    ensures forall q :: q in Unpaired(m, s) <==> q in m && Untouched(q, s)
    decreases |s|
  {
    if s != [] {
      var m1 := Drop(m, s[0].0);
      if s[0].0 in m { RemoveFirstDistinct(m, s[0].0); }
      var m2 := Drop(m1, s[0].1);
      if s[0].1 in m1 { RemoveFirstDistinct(m1, s[0].1); }
      UnpairedAvoids(m2, s[1..]);
      forall q
        ensures q in Unpaired(m, s) <==> q in m && Untouched(q, s)
      {
        if q in m && Untouched(q, s[1..]) && q != s[0].0 && q != s[0].1 {
          forall pr | pr in s ensures q != pr.0 && q != pr.1 {
            if pr != s[0] { assert pr in s[1..]; }
          }
        }
        if Untouched(q, s) {
          assert s[0] in s;
          forall pr | pr in s[1..] ensures q != pr.0 && q != pr.1 { assert pr in s; }
        }
      }
    }
  }

  /** The selection of step 7.3: the candidate pairs of the singly bonded Moore neighbours of c. */
  function FirstSelection(g: Grid, c: Vector): seq<Pair>
    requires Shaped(g)
  {
    SelectAsWritten(CandidatePairs(g, Around(g, c, MOORE, SingleK)))
  }

  /** The grid after step 7.3. */
  function FirstPassGrid(g: Grid, c: Vector): (r: Grid)
    requires Shaped(g)
    ensures Shaped(r)
  {
    JoinPairs(g, FirstSelection(g, c)).1
  }

  /** Step 7.4's list: what step 7.3 left of the singles, then the free Moore neighbours of c after it. */
  function SecondList(g: Grid, c: Vector): seq<Vector>
    requires Shaped(g)
  {
    Unpaired(Around(g, c, MOORE, SingleK), FirstSelection(g, c)) + Around(FirstPassGrid(g, c), c, MOORE, FreeK)
  }

  /** The cells of step 7.4's list are Moore neighbours of c that are Links after step 7.3. */
  lemma SecondListLinks(g: Grid, c: Vector)
    requires Shaped(g)
    ensures forall q :: q in SecondList(g, c) ==>
      InGrid(q) && At(FirstPassGrid(g, c), q).Link? && q.Subtract(c) in MOORE
  {
    forall q | q in SecondList(g, c)
      ensures InGrid(q) && At(FirstPassGrid(g, c), q).Link? && q.Subtract(c) in MOORE
    {
      SecondListCell(g, c, q);
    }
  }

  /** A cell of step 7.4's list: a Moore neighbour of c holding, after step 7.3, a Link with room for a bond. */
  lemma SecondListCell(g: Grid, c: Vector, q: Vector)
    requires Shaped(g) && q in SecondList(g, c)
    ensures InGrid(q) && At(FirstPassGrid(g, c), q).Link? && |At(FirstPassGrid(g, c), q).bonds| <= 1
    ensures q.Subtract(c) in MOORE
  {
    var g1 := FirstPassGrid(g, c);
    var u := Unpaired(Around(g, c, MOORE, SingleK), FirstSelection(g, c));
    var f := Around(g1, c, MOORE, FreeK);
    assert q in u || q in f;
    if q in u {
      UnpairedKept(g, c, q);
      assert Single(g, q) && At(g1, q) == At(g, q);
    } else {
      assert Is(At(g1, q), FreeK);
    }
  }

  /** The selection of step 7.5. */
  function SecondSelection(g: Grid, c: Vector): seq<Pair>
    requires Shaped(g)
  {
    SecondListLinks(g, c);
    SelectAsWritten(CandidatePairs(FirstPassGrid(g, c), SecondList(g, c)))
  }

  /**
   * `rebond(c)` on g: whether it ends without a failed `Link.bond`
   * assertion, and the grid it leaves (where it stops, on failure).
   */
  function Rebonded(g: Grid, c: Vector): (r: (bool, Grid))
    requires Shaped(g)
    ensures Shaped(r.1)
  {
    var j1 := JoinPairs(g, FirstSelection(g, c));
    if !j1.0 then (false, j1.1)
    else
      var j2 := JoinPairs(j1.1, SecondSelection(g, c));
      (j2.0, j2.1)
  }

  /** h only adds bonds to g, keeps every count of kinds, and every added bond is near c. */
  ghost predicate AddsNear(g: Grid, h: Grid, c: Vector)
    requires Shaped(g) && Shaped(h)
  {
    BondsAdded(g, h) && SameKindCounts(g, h) && AddedNear(g, h, c)
  }

  /** Rebond only adds bonds, and only between near cells around c. */
  lemma RebondedNear(g: Grid, c: Vector)
    requires Shaped(g)
    ensures AddsNear(g, Rebonded(g, c).1, c)
  {
    var g1 := FirstPassGrid(g, c);
    FirstPassNear(g, c);
    if JoinPairs(g, FirstSelection(g, c)).0 {
      SecondPassNear(g, c);
      PassesNear(g, g1, JoinPairs(g1, SecondSelection(g, c)).1, c);
    }
  }

  /** Step 7.3 only adds bonds near c. */
  lemma FirstPassNear(g: Grid, c: Vector)
    requires Shaped(g)
    ensures AddsNear(g, FirstPassGrid(g, c), c)
  {
    PassNear(g, c, Around(g, c, MOORE, SingleK));
  }

  /** Step 7.5 only adds bonds near c. */
  lemma SecondPassNear(g: Grid, c: Vector)
    requires Shaped(g)
    ensures AddsNear(FirstPassGrid(g, c), JoinPairs(FirstPassGrid(g, c), SecondSelection(g, c)).1, c)
  {
    SecondListLinks(g, c);
    PassNear(FirstPassGrid(g, c), c, SecondList(g, c));
  }

  /** Two passes that each only add bonds near c make one that does. */
  lemma PassesNear(g: Grid, g1: Grid, h: Grid, c: Vector)
    requires Shaped(g) && Shaped(g1) && Shaped(h) && AddsNear(g, g1, c) && AddsNear(g1, h, c)
    ensures AddsNear(g, h, c)
  {
    BondsAddedTransitive(g, g1, h);
    AddedNearTransitive(g, g1, h, c);
  }

  /** One pass of rebond over Links m near c only adds bonds, and only near c. */
  lemma PassNear(g: Grid, c: Vector, m: seq<Vector>)
    requires Shaped(g) && forall q :: q in m ==> InGrid(q) && At(g, q).Link? && q.Subtract(c) in MOORE
    ensures AddsNear(g, JoinPairs(g, SelectAsWritten(CandidatePairs(g, m))).1, c)
  {
    var s := SelectAsWritten(CandidatePairs(g, m));
    SelectedNear(g, c, m);
    JoinPairsAdds(g, s);
    JoinPairsNear(g, c, s);
  }

  /** Step 7.3 fails exactly when two selected pairs share a cell. */
  lemma FirstPassFails(g: Grid, c: Vector, orth: bool)
    requires GridOK(g, orth)
    ensures !JoinPairs(g, FirstSelection(g, c)).0 <==> Overlapping(FirstSelection(g, c))
  {
    FirstSelectionSingles(g, c, orth);
    JoinPairsIff(g, FirstSelection(g, c));
  }

  /** Every pair step 7.3 selects is a pair of singles that PassPair admits. */
  lemma FirstSelectionSingles(g: Grid, c: Vector, orth: bool)
    requires GridOK(g, orth)
    ensures forall pr :: pr in FirstSelection(g, c) ==> PassPair(g, pr) && Single(g, pr.0) && Single(g, pr.1)
  {
    var m := Around(g, c, MOORE, SingleK);
    SelectionIsSubset(CandidatePairs(g, m));
    forall pr | pr in FirstSelection(g, c)
      ensures PassPair(g, pr) && Single(g, pr.0) && Single(g, pr.1)
    {
      BondedSymmetric(g, pr.0, pr.1, orth);
    }
  }

  /**
   * Rebond fails when the first selection has two pairs sharing a cell,
   * and otherwise only when the second does.
   */
  lemma RebondFails(g: Grid, c: Vector, orth: bool)
    requires GridOK(g, orth)
    ensures Overlapping(FirstSelection(g, c)) ==> !Rebonded(g, c).0
    ensures !Rebonded(g, c).0 ==> Overlapping(FirstSelection(g, c)) || Overlapping(SecondSelection(g, c))
  {
    FirstPassFails(g, c, orth);
    var s1 := FirstSelection(g, c);
    if JoinPairs(g, s1).0 && !Overlapping(SecondSelection(g, c)) {
      SecondPassJoins(g, c, orth);
    }
  }

  /** Every cell of step 7.4's list has room for a bond after step 7.3. */
  lemma SecondListRoom(g: Grid, c: Vector)
    requires Shaped(g)
    ensures forall q :: q in SecondList(g, c) ==>
      InGrid(q) && At(FirstPassGrid(g, c), q).Link? && |At(FirstPassGrid(g, c), q).bonds| <= 1
  {
    forall q | q in SecondList(g, c)
      ensures InGrid(q) && At(FirstPassGrid(g, c), q).Link? && |At(FirstPassGrid(g, c), q).bonds| <= 1
    {
      SecondListCell(g, c, q);
    }
  }

  /** A single that step 7.3 did not pair is unchanged by it. */
  lemma UnpairedKept(g: Grid, c: Vector, q: Vector)
    requires Shaped(g) && q in Unpaired(Around(g, c, MOORE, SingleK), FirstSelection(g, c))
    ensures InGrid(q) && Single(g, q) && At(FirstPassGrid(g, c), q) == At(g, q) && q.Subtract(c) in MOORE
  {
    var m := Around(g, c, MOORE, SingleK);
    var s1 := FirstSelection(g, c);
    assert q in m && Untouched(q, s1) by {
      MooreMembers(Vector(0, 0));
      AroundDistinct(g, c, MOORE, SingleK);
      UnpairedAvoids(m, s1);
    }
    assert Is(At(g, q), SingleK);
    JoinPairsFrame(g, s1, q);
  }

  /** After a complete step 7.3, a second selection without shared cells bonds completely. */
  lemma SecondPassJoins(g: Grid, c: Vector, orth: bool)
    requires GridOK(g, orth) && !Overlapping(SecondSelection(g, c))
    ensures JoinPairs(FirstPassGrid(g, c), SecondSelection(g, c)).0
  {
    FirstPassOK(g, c, orth);
    SecondSelectionCanBond(g, c, orth);
    JoinsWhenDisjoint(FirstPassGrid(g, c), SecondSelection(g, c));
  }

  /** Step 7.3 keeps the invariant. */
  lemma FirstPassOK(g: Grid, c: Vector, orth: bool)
    requires GridOK(g, orth)
    ensures GridOK(FirstPassGrid(g, c), orth)
  {
    SelectionIsSubset(CandidatePairs(g, Around(g, c, MOORE, SingleK)));
    JoinPairsKeepsOK(g, FirstSelection(g, c), orth);
  }

  /** After step 7.3, on a grid that keeps the invariant, every pair of the second selection can bond. */
  lemma SecondSelectionCanBond(g: Grid, c: Vector, orth: bool)
    requires Shaped(g) && GridOK(FirstPassGrid(g, c), orth)
    ensures forall pr :: pr in SecondSelection(g, c) ==> CanBond(FirstPassGrid(g, c), pr.0, pr.1)
  {
    var g1 := FirstPassGrid(g, c);
    var m2 := SecondList(g, c);
    SecondListRoom(g, c);
    SelectionIsSubset(CandidatePairs(g1, m2));
    forall pr | pr in SecondSelection(g, c)
      ensures CanBond(g1, pr.0, pr.1)
    {
      assert pr in CandidatePairs(g1, m2);
      BondedSymmetric(g1, pr.0, pr.1, orth);
    }
  }

  /** Outside the cells x, every Link of g is still a Link in h and every other cell is as it was. */
  ghost predicate LinksKept(g: Grid, h: Grid, x: set<Vector>)
    requires Shaped(g) && Shaped(h)
  {
    forall q :: InGrid(q) && q !in x ==> if At(g, q).Link? then At(h, q).Link? else At(h, q) == At(g, q)
  }

  /** Grids whose cells were kept this way have the same holes around li, so the hole choice agrees. */
  lemma HolesKept(g: Grid, h: Grid, li: Vector, p: Vector)
    requires Shaped(g) && Shaped(h) && InGrid(li) && !At(g, li).Hole? && !At(h, li).Hole?
    requires LinksKept(g, h, {li})
    requires HolePreferred(h, li, p)
    ensures HolePreferred(g, li, p)
  {
    forall q | InGrid(q)
      ensures Is(At(g, q), HoleK) == Is(At(h, q), HoleK)
    {
      if q != li {
        assert At(g, q).Link? ==> At(h, q).Link?;
      }
    }
    AroundSameKind(g, h, li, MOORE, HoleK);
    AroundSameKind(g, h, li, PRIME, HoleK);
  }

  /**
   * Rule 5.1.1's choice of the hole for the second Substrate: a random
   * Moore neighbour that is a hole, else a prime neighbour, else any hole.
   * With a hole on the grid, the last list is never empty.
   */
  method ChooseHole(g: Grid, li: Vector) returns (p: Vector)
    requires Shaped(g) && Count(g, Cells(HoleK)) > 0
    ensures HolePreferred(g, li, p)
  {
    var nh := Around(g, li, MOORE, HoleK);
    var nx := Around(g, li, PRIME, HoleK);
    if |nh| > 0 {
      var k :| 0 <= k < |nh|;
      p := nh[k];
    } else if |nx| > 0 {
      var k :| 0 <= k < |nx|;
      p := nx[k];
    } else {
      var h := Where(g, HoleK);
      WhereCount(g, HoleK);
      var k :| 0 <= k < |h|;
      p := h[k];
    }
  }

  /**
   * What is left of rebond's list m of singly bonded Links (as they were in
   * g0) after step 7.3's removals: the list cur, without duplicates, whose
   * cells are untouched in g; a cell removed from it holds two bonds.
   */
  ghost predicate Remaining(g0: Grid, g: Grid, m: seq<Vector>, cur: seq<Vector>)
    requires Shaped(g0) && Shaped(g)
  {
    Distinct(cur) && (forall q :: q in cur ==> q in m)
    && (forall q :: q in m ==> InGrid(q) && At(g0, q).Link? && |At(g0, q).bonds| == 1)
    && (forall q :: q in m ==>
          if q in cur then At(g, q) == At(g0, q) else At(g, q).Link? && |At(g, q).bonds| == 2)
  }

  /**
   * A pair of m that can still bond is still in the list, so both
   * `m.remove` calls find their cell, and after the bond the list is again
   * what is left.
   */
  lemma RemainingStep(g0: Grid, g: Grid, m: seq<Vector>, cur: seq<Vector>, x: Vector, y: Vector)
    requires Shaped(g0) && Shaped(g) && Remaining(g0, g, m, cur) && x in m && y in m && CanBond(g, x, y)
    ensures x in cur && y in RemoveFirst(cur, x)
    ensures Remaining(g0, WithBond(g, x, y), m, RemoveFirst(RemoveFirst(cur, x), y))
  {
    WithBondCells(g, x, y);
    RemoveFirstDistinct(cur, x);
    var c1 := RemoveFirst(cur, x);
    RemoveFirstDistinct(c1, y);
  }

  /** The Links of l, in order, whose random draw `d <= Pd` made them disintegrate. */
  function Decayed(l: seq<Vector>, decays: set<Vector>): (r: seq<Vector>)
    ensures |r| <= |l|
    ensures forall q :: q in r <==> q in l && q in decays
  {
    if l == [] then []
    else Decayed(l[..|l| - 1], decays) + (if l[|l| - 1] in decays then [l[|l| - 1]] else [])
  }

  /** One more Link of l considered: it joins the decayed ones exactly when it drew a decay. */
  lemma DecayedStep(l: seq<Vector>, decays: set<Vector>, i: int)
    requires 0 <= i < |l|
    ensures Decayed(l[..i + 1], decays) == Decayed(l[..i], decays) + (if l[i] in decays then [l[i]] else [])
  {
    assert l[..i + 1][..i] == l[..i];
  }

  /**
   * After the i-th Link li of l disintegrates (into the Substrate at li and
   * one at the former hole p), the Links of l left are those not yet
   * decayed.
   */
  lemma DecayFrame(g: Grid, h: Grid, l: seq<Vector>, decays: set<Vector>, i: int, p: Vector)
    requires Shaped(g) && Shaped(h) && Distinct(l) && 0 <= i < |l| && l[i] in decays
    requires forall j :: 0 <= j < |l| ==> InGrid(l[j])
    requires forall j :: 0 <= j < |l| ==> (At(g, l[j]).Link? <==> !(j < i && l[j] in decays))
    requires LinksKept(g, h, {l[i], p}) && At(h, l[i]) == Substrate && InGrid(p) && At(g, p).Hole? && At(h, p) == Substrate
    ensures forall j :: 0 <= j < |l| ==> (At(h, l[j]).Link? <==> !(j < i + 1 && l[j] in decays))
  {
    forall j | 0 <= j < |l|
      ensures At(h, l[j]).Link? <==> !(j < i + 1 && l[j] in decays)
    {
      if j != i {
        assert l[j] != l[i];
      }
    }
  }

  /**
   * The grid g with counters cs and cl (lc: the Link counters agree) after
   * `disintegration()` judged the first i Links of l, the Links of g0.
   */
  ghost predicate DecayState(g0: Grid, s0: int, l0: int, lc0: bool, l: seq<Vector>, decays: set<Vector>, i: int,
                             g: Grid, cs: int, cl: int, lc: bool)
  {
    Shaped(g0) && Shaped(g) && 0 <= i <= |l| && l == Where(g0, LinkK)
    && (forall j :: 0 <= j < |l| ==> (At(g, l[j]).Link? <==> !(j < i && l[j] in decays)))
    && var k := |Decayed(l[..i], decays)|;
       Count(g, Cells(LinkK)) == Count(g0, Cells(LinkK)) - k
       && Count(g, Cells(HoleK)) == Count(g0, Cells(HoleK)) - k
       && Count(g, Cells(SubstrateK)) == Count(g0, Cells(SubstrateK)) + 2 * k
       && Count(g, Cells(CatalystK)) == Count(g0, Cells(CatalystK))
       && cs == s0 + 2 * k && cl == l0 - k && (lc0 ==> lc)
  }

  /** A disintegration of the i-th Link of l moves the state of rule 5.1 on by one. */
  lemma DecayStateStep(g0: Grid, s0: int, l0: int, lc0: bool, l: seq<Vector>, decays: set<Vector>, i: int,
                       g: Grid, cs: int, cl: int, lc: bool, h: Grid, lch: bool, p: Vector)
    requires DecayState(g0, s0, l0, lc0, l, decays, i, g, cs, cl, lc) && i < |l| && l[i] in decays
    requires InGrid(l[i]) && Shaped(h) && Disintegrated(g, h, l[i], p) && (lc ==> lch)
    ensures DecayState(g0, s0, l0, lc0, l, decays, i + 1, h, cs + 2, cl - 1, lch)
  {
    WhereDistinct(g0, LinkK);
    DecayedStep(l, decays, i);
    DecayFrame(g, h, l, decays, i, p);
  }

  /** Rule 5.1 judged every Link of g0: the decayed ones are gone and every count moved by their number. */
  lemma DecayStateDone(g0: Grid, s0: int, l0: int, lc0: bool, l: seq<Vector>, decays: set<Vector>,
                       g: Grid, cs: int, cl: int, lc: bool)
    requires DecayState(g0, s0, l0, lc0, l, decays, |l|, g, cs, cl, lc)
    ensures forall q :: InGrid(q) && At(g0, q).Link? ==> (At(g, q).Link? <==> q !in decays)
    ensures var k := |Decayed(l, decays)|;
            Count(g, Cells(LinkK)) == Count(g0, Cells(LinkK)) - k
            && Count(g, Cells(HoleK)) == Count(g0, Cells(HoleK)) - k
            && Count(g, Cells(SubstrateK)) == Count(g0, Cells(SubstrateK)) + 2 * k
            && Count(g, Cells(CatalystK)) == Count(g0, Cells(CatalystK))
            && cs == s0 + 2 * k && cl == l0 - k && (lc0 ==> lc)
  {
    assert l[..|l|] == l;
    DecaysJudged(g0, g, l, decays);
  }

  /** When every Link of l = Where(g, LinkK) is judged, the Links of g left in h are those without a decay. */
  lemma DecaysJudged(g: Grid, h: Grid, l: seq<Vector>, decays: set<Vector>)
    requires Shaped(g) && Shaped(h) && l == Where(g, LinkK)
    requires forall j :: 0 <= j < |l| ==> (At(h, l[j]).Link? <==> !(l[j] in decays))
    ensures forall q :: InGrid(q) && At(g, q).Link? ==> (At(h, q).Link? <==> q !in decays)
  {
    forall q | InGrid(q) && At(g, q).Link?
      ensures At(h, q).Link? <==> q !in decays
    {
      assert q in l;
      var j :| 0 <= j < |l| && l[j] == q;
    }
  }

  /** Only Moore neighbours of c can be bonded to c, so `breakBonds(c)` changes nothing further away. */
  lemma UnbondedOutside(g: Grid, c: Vector, orth: bool)
    requires GridOK(g, orth) && InGrid(c) && At(g, c).Link?
    ensures forall q :: InGrid(q) && q != c && q.Subtract(c) !in MOORE ==> Unbonded(g, c, q) == At(g, q)
  {
    forall q | InGrid(q) && q != c && At(g, q).Link? && Bonded(g, q, c)
      ensures q.Subtract(c) in MOORE
    {
      BondedNeighbour(g, q, c, orth);
      BondedBack(g, q, c, orth);
      var e := Direction(c, q);
      DirectionSelf(c, q);
      DirectionInHood(e);
      assert c.Add(N[e]) == q;
    }
  }

  /** `breakBonds(li)` then `setCell(li, Substrate())`: li is a Substrate, other Links stay Links. */
  lemma UnlinkFrame(g0: Grid, g1: Grid, li: Vector, orth: bool)
    requires GridOK(g0, orth) && Shaped(g1) && InGrid(li) && At(g0, li).Link?
    requires forall q :: InGrid(q) && q != li ==> At(g1, q) == Unbonded(g0, li, q)
    ensures var g2 := Set(g1, li, Substrate);
            At(g2, li) == Substrate && LinksKept(g0, g2, {li}) && SameOutside(g0, g2, li)
  {
    UnbondedOutside(g0, li, orth);
  }

  /** Unlinking li and then only adding bonds keeps every Link but li, and nothing outside li's neighbourhood changes. */
  lemma DisintegratedKept(g0: Grid, g1: Grid, g2: Grid, li: Vector)
    requires Shaped(g0) && Shaped(g1) && Shaped(g2) && InGrid(li)
    requires LinksKept(g0, g1, {li}) && SameOutside(g0, g1, li) && BondsAdded(g1, g2) && SameOutside(g1, g2, li)
    ensures LinksKept(g0, g2, {li}) && SameOutside(g0, g2, li)
  {
  }

  /** The hole p filled last completes rule 5.1.1's frame. */
  lemma DisintegratedFilled(g0: Grid, g2: Grid, g3: Grid, li: Vector, p: Vector)
    requires Shaped(g0) && Shaped(g2) && InGrid(li) && InGrid(p) && At(g2, li) == Substrate
    requires LinksKept(g0, g2, {li}) && SameOutside(g0, g2, li)
    requires At(g2, p).Hole? && g3 == Set(g2, p, Substrate)
    ensures p != li && At(g3, li) == Substrate && At(g3, p) == Substrate
    ensures LinksKept(g0, g3, {li, p})
    ensures forall q :: InGrid(q) && q != p && q != li && q.Subtract(li) !in MOORE ==> At(g3, q) == At(g0, q)
  {
  }

  /**
   * The grid h after `breakBonds(li)` and `setCell(li, Substrate())` of g,
   * and any bonding around li after that: li is a Substrate, the other
   * Links are still Links, nothing outside li's neighbourhood changed, and
   * one Link became one Substrate.
   */
  ghost predicate Unlinked(g: Grid, h: Grid, li: Vector)
    requires Shaped(g) && Shaped(h) && InGrid(li)
  {
    At(h, li) == Substrate && LinksKept(g, h, {li}) && SameOutside(g, h, li)
    && Count(h, Cells(LinkK)) == Count(g, Cells(LinkK)) - 1
    && Count(h, Cells(HoleK)) == Count(g, Cells(HoleK))
    && Count(h, Cells(SubstrateK)) == Count(g, Cells(SubstrateK)) + 1
    && Count(h, Cells(CatalystK)) == Count(g, Cells(CatalystK))
  }

  /**
   * Rule 5.1.1 done for the Link li of g: li and the hole p that
   * HolePreferred picked are Substrates, the other Links are still Links,
   * nothing else outside li's neighbourhood changed, and one Link and one
   * hole became two Substrates.
   */
  ghost predicate Disintegrated(g: Grid, h: Grid, li: Vector, p: Vector)
    requires Shaped(g) && Shaped(h) && InGrid(li)
  {
    HolePreferred(g, li, p) && p != li && At(h, li) == Substrate && At(h, p) == Substrate
    && LinksKept(g, h, {li, p})
    && (forall q :: InGrid(q) && q != p && q != li && q.Subtract(li) !in MOORE ==> At(h, q) == At(g, q))
    && Count(h, Cells(LinkK)) == Count(g, Cells(LinkK)) - 1
    && Count(h, Cells(HoleK)) == Count(g, Cells(HoleK)) - 1
    && Count(h, Cells(SubstrateK)) == Count(g, Cells(SubstrateK)) + 2
    && Count(h, Cells(CatalystK)) == Count(g, Cells(CatalystK))
  }

  /** Rebond after the unlinking only adds bonds around li, so the grid is still unlinked. */
  lemma RebondUnlinked(g0: Grid, g1: Grid, g2: Grid, li: Vector, n: int)
    requires Shaped(g0) && Shaped(g1) && Shaped(g2) && InGrid(li)
    requires Unlinked(g0, g1, li) && BondedAround(g1, g2, li, n)
    ensures Unlinked(g0, g2, li)
  {
    DisintegratedKept(g0, g1, g2, li);
  }

  /** Filling the hole HolePreferred picks in the unlinked grid completes rule 5.1.1. */
  lemma FilledDisintegrated(g0: Grid, g2: Grid, g3: Grid, li: Vector, p: Vector)
    requires Shaped(g0) && Shaped(g2) && InGrid(li) && At(g0, li).Link?
    requires Unlinked(g0, g2, li) && HolePreferred(g2, li, p) && g3 == Set(g2, p, Substrate)
    ensures Shaped(g3) && Disintegrated(g0, g3, li, p)
  {
    HolesKept(g0, g2, li, p);
    DisintegratedFilled(g0, g2, g3, li, p);
    CountAfterSet(g2, p, Substrate);
  }

  /** g after `breakBonds(li)` and `setCell(li, Substrate())`. */
  function Unlinking(g: Grid, li: Vector): (r: Grid)
    requires Shaped(g) && InGrid(li)
    ensures Shaped(r) && At(r, li) == Substrate
    ensures forall q :: InGrid(q) && q != li ==> At(r, q) == Unbonded(g, li, q)
  {
    seq(SIZE, y requires 0 <= y < SIZE =>
      seq(SIZE, x requires 0 <= x < SIZE => if Vector(x, y) == li then Substrate else Unbonded(g, li, Vector(x, y))))
  }

  /**
   * h is g after rule 5.1.1 for the Link li: the unlinking, `rebond(li)`,
   * and, when rebond ended without a failed assertion (ok), the second
   * Substrate in the hole HolePreferred picks; when it failed, the grid
   * rebond left.
   */
  ghost predicate Disintegrates(g: Grid, h: Grid, li: Vector, ok: bool)
    requires Shaped(g) && Shaped(h) && InGrid(li)
  {
    var r := Rebonded(Unlinking(g, li), li);
    ok == r.0 && if r.0 then exists p :: RefilledAt(g, h, li, p) else h == r.1
  }

  /** Rule 5.1.1 after a rebond that succeeded: the second Substrate went into the hole p. */
  ghost predicate RefilledAt(g: Grid, h: Grid, li: Vector, p: Vector)
    requires Shaped(g) && InGrid(li)
  {
    var r := Rebonded(Unlinking(g, li), li);
    HolePreferred(r.1, li, p) && h == Set(r.1, p, Substrate)
  }

  /** The turn of rule 5.1 for the Link li: it disintegrates when it is in decays, else nothing happens. */
  ghost predicate DecayTurn(g: Grid, h: Grid, li: Vector, decays: set<Vector>, ok: bool)
    requires Shaped(g) && Shaped(h)
  {
    InGrid(li) && if li in decays then Disintegrates(g, h, li, ok) else ok && h == g
  }

  /** h is g after the turns of rule 5.1 for the Links l, in order, none of them failing. */
  ghost predicate DecaysRan(g: Grid, h: Grid, l: seq<Vector>, decays: set<Vector>)
    requires Shaped(g) && Shaped(h)
    decreases |l|
  {
    if l == [] then h == g
    else exists g1 :: Shaped(g1) && DecaysRan(g, g1, l[..|l| - 1], decays) && DecayTurn(g1, h, l[|l| - 1], decays, true)
  }

  /** The two ends of rule 5.1.1 stated as Disintegrates. */
  lemma DisintegratesEnds(g: Grid, h: Grid, li: Vector, p: Vector)
    requires Shaped(g) && Shaped(h) && InGrid(li)
    ensures var r := Rebonded(Unlinking(g, li), li);
            (!r.0 && h == r.1 ==> Disintegrates(g, h, li, false))
            && (r.0 && RefilledAt(g, h, li, p) ==> Disintegrates(g, h, li, true))
  {
  }

  /** Rule 5.1 ran through the first k Links of l and failed at the next. */
  ghost predicate DecaysStopped(g: Grid, h: Grid, l: seq<Vector>, decays: set<Vector>, k: int)
    requires Shaped(g) && Shaped(h)
  {
    0 <= k < |l| && exists g1 :: Shaped(g1) && DecaysRan(g, g1, l[..k], decays) && DecayTurn(g1, h, l[k], decays, false)
  }

  lemma DecaysRanStep(g: Grid, g1: Grid, h: Grid, l: seq<Vector>, decays: set<Vector>, i: int)
    requires Shaped(g) && Shaped(g1) && Shaped(h) && 0 <= i < |l|
    requires DecaysRan(g, g1, l[..i], decays) && DecayTurn(g1, h, l[i], decays, true)
    ensures DecaysRan(g, h, l[..i + 1], decays)
  {
    assert l[..i + 1][..i] == l[..i];
  }

  /** The Substrate held on the grid, a Link counting for the two Substrates it was made of. */
  ghost function Material(g: Grid): int
    requires Shaped(g)
  {
    Count(g, Cells(SubstrateK)) + 2 * Count(g, Cells(LinkK))
  }

  /** Trading two Substrates for one Link (n times; n < 0 the other way) keeps Material. */
  lemma MaterialTraded(g: Grid, h: Grid, n: int)
    requires Shaped(g) && Shaped(h)
    requires Count(h, Cells(SubstrateK)) + 2 * n == Count(g, Cells(SubstrateK))
    requires Count(h, Cells(LinkK)) == Count(g, Cells(LinkK)) + n
    ensures Material(h) == Material(g)
  {
  }

  /**
   * Rule 2.3, `moveL(l, ni, …)` for the free Link at l, as its effect on
   * the grid: a Substrate at ni is displaced (the source always allows the
   * exchange), a hole at ni receives the Link, and anything else stops it.
   */
  ghost predicate LinkMoved(g: Grid, h: Grid, l: Vector, ni: Vector)
    requires Shaped(g) && Shaped(h) && InGrid(l) && InGrid(ni)
  {
    if At(g, ni).Substrate? then exists p :: Displaced(g, h, l, ni, true, true, p)
    else if At(g, ni).Hole? then h == Fill(g, ni, l)
    else h == g
  }

  /**
   * The Catalyst at ci follows the Link that left ni for q: it takes ni
   * (overwriting the Substrate a swap left there), ci becomes a hole, and
   * ca.py then bonds the Link at q.
   */
  ghost predicate KFollowed(g: Grid, h: Grid, ci: Vector, ni: Vector, q: Vector, cfg: Config)
    requires Shaped(g) && Shaped(h) && InGrid(ci) && InGrid(ni)
  {
    var f := Fill(g, ni, ci);
    if cfg.bondAfterCatalystMove then BondingRan(f, h, q, cfg) else h == f
  }

  /** Rule 3.3.2 with the neighbour q of ni: the Link at ni is moved to q and the Catalyst at ci follows. */
  ghost predicate KPushed(g: Grid, h: Grid, ci: Vector, ni: Vector, q: Vector, cfg: Config)
    requires Shaped(g) && Shaped(h) && InGrid(ci) && InGrid(ni) && InGrid(q)
  {
    exists g1 :: Shaped(g1) && LinkMoved(g, g1, ni, q) && KFollowed(g1, h, ci, ni, q, cfg)
  }

  /**
   * Rules 3.3.2 and 3.3.4 for the Catalyst at ci and the free Link at ni:
   * pushed to a neighbour that lets it move, else swapped with the
   * Catalyst (ca.py then bonds it at ci).
   */
  ghost predicate KMetLink(g: Grid, h: Grid, ci: Vector, ni: Vector, cfg: Config)
    requires Shaped(g) && Shaped(h) && InGrid(ci) && InGrid(ni)
  {
    if CanPush(g, ni) then
      exists q :: q in InRangeAround(ni, MOORE) && Pushable(g, q) && KPushed(g, h, ci, ni, q, cfg)
    else
      var w := Swap(g, ci, ni);
      if cfg.bondAfterCatalystMove then BondingRan(w, h, ci, cfg) else h == w
  }

  /**
   * Rule 3.3 for the Catalyst at ci and the direction d, ni = ci + N[d]:
   * off the grid, a bonded Link or a Catalyst, nothing; a free Link that
   * some neighbour lets move is pushed there, else it swaps places with
   * the Catalyst (ca.py then bonds it at ci); a Substrate is displaced
   * with exchange; a hole receives the Catalyst.
   */
  ghost predicate CatalystMoved(g: Grid, h: Grid, ci: Vector, d: int, cfg: Config)
    requires Shaped(g) && Shaped(h) && InGrid(ci) && 1 <= d < ORTHOGONAL
  {
    var ni := ci.Add(N[d]);
    if !InGrid(ni) then h == g
    else if At(g, ni) == Link([]) then KMetLink(g, h, ci, ni, cfg)
    else if At(g, ni).Substrate? then exists p :: Displaced(g, h, ci, ni, true, true, p)
    else if At(g, ni).Hole? then h == Fill(g, ni, ci)
    else h == g
  }

  /** The phases of `Step()` that take one turn per cell of a list. */
  datatype Rule = HoleRule | LinkRule | BondRule | CatalystRule | ProduceRule

  /**
   * One turn of a phase, for the cell at: a hole or a free Link or a
   * Catalyst with the direction d drawn for it, a Link to bond, or a
   * Catalyst producing, with the Substrates pi (made a Link) and q (made a
   * hole) it picked when it could.
   */
  datatype Turn =
    | HoleTurn(at: Vector, d: int)
    | LinkTurn(at: Vector, d: int)
    | BondTurn(at: Vector)
    | CatalystTurn(at: Vector, d: int)
    | ProduceTurn(at: Vector, pi: Vector, q: Vector)
  {
    function RuleOf(): Rule {
      match this
      case HoleTurn(_, _) => HoleRule
      case LinkTurn(_, _) => LinkRule
      case BondTurn(_) => BondRule
      case CatalystTurn(_, _) => CatalystRule
      case ProduceTurn(_, _, _) => ProduceRule
    }
  }

  /**
   * h is g after the turn t: rules 1.3 and 1.4 for a hole, 2.3 for a free
   * Link, 2.4 or 4.3 for a Link to bond (bonding only a free one), 3.3 for
   * a moving Catalyst, and 4.1 and 4.2 for a producing one.
   */
  ghost predicate Turned(g: Grid, h: Grid, t: Turn, cfg: Config)
    requires Shaped(g) && Shaped(h)
  {
    InGrid(t.at) &&
    match t
    case HoleTurn(c, d) =>
      1 <= d < ORTHOGONAL
      && var m := HoleMove(g, c, d);
         if MovesLink(g, c, d) then BondingRan(m, h, c, cfg) else h == m
    case LinkTurn(c, d) =>
      1 <= d < ORTHOGONAL
      && var ni := c.Add(N[d]);
         if InGrid(ni) then LinkMoved(g, h, c, ni) else h == g
    case BondTurn(c) =>
      if At(g, c) == Link([]) then BondingRan(g, h, c, cfg) else h == g
    case CatalystTurn(c, d) =>
      1 <= d < ORTHOGONAL && CatalystMoved(g, h, c, d, cfg)
    case ProduceTurn(c, pi, q) =>
      var n := Fertile(g, c, cfg.productionHood);
      if n == [] then h == g
      else pi in n && q in n && OrthogonallyAdjacent(pi, q) && h == Produce(g, pi, q)
  }

  /** The grids gs[0], gs[1], … are the grids before and after each of the turns ts: the last turn took the last but one grid to the last. */
  ghost predicate Trace(gs: seq<Grid>, ts: seq<Turn>, cfg: Config)
    decreases |ts|
  {
    |gs| == |ts| + 1 && (forall i :: 0 <= i < |gs| ==> Shaped(gs[i]))
    && (ts != [] ==> Trace(gs[..|ts|], ts[..|ts| - 1], cfg) && Turned(gs[|ts| - 1], gs[|ts|], ts[|ts| - 1], cfg))
  }

  /** A phase under rule ran from g to h: one turn per cell of l, in order, with the grids gs in between. */
  ghost predicate Sweep(g: Grid, h: Grid, rule: Rule, l: seq<Vector>, cfg: Config, gs: seq<Grid>, ts: seq<Turn>)
  {
    Trace(gs, ts, cfg) && gs[0] == g && gs[|ts|] == h && Visits(ts, rule, l)
  }

  /** The turns ts are under rule, one for each cell of l, in order. */
  predicate Visits(ts: seq<Turn>, rule: Rule, l: seq<Vector>)
  {
    |ts| == |l| && forall i :: 0 <= i < |ts| ==> ts[i].RuleOf() == rule && ts[i].at == l[i]
  }

  /** What a turn taken in g adds to its phase's list: the new place of a Link that moved, a produced Link. */
  function Yield(g: Grid, t: Turn, cfg: Config): (r: seq<Vector>)
    requires Shaped(g)
    ensures |r| <= 1
  {
    match t
    case LinkTurn(c, d) =>
      if 1 <= d < ORTHOGONAL && Pushable(g, c.Add(N[d])) then [c.Add(N[d])] else []
    case ProduceTurn(c, pi, _) => if Fertile(g, c, cfg.productionHood) != [] then [pi] else []
    case _ => []
  }

  /** The list `motionL()` (moved Links) or `production()` (produced Links) builds over the turns ts. */
  ghost function Outputs(gs: seq<Grid>, ts: seq<Turn>, cfg: Config): (r: seq<Vector>)
    requires |gs| == |ts| + 1 && forall i :: 0 <= i < |gs| ==> Shaped(gs[i])
    ensures |r| <= |ts|
    decreases |ts|
  {
    if ts == [] then []
    else Outputs(gs[..|ts|], ts[..|ts| - 1], cfg) + Yield(gs[|ts| - 1], ts[|ts| - 1], cfg)
  }

  /**
   * A phase of rules 2 or 4: the sweep under rule over l took g to the grid
   * gs2[0], and then the first |ts2| places it listed (moved or produced
   * Links) each had a bond turn, in order, ending in h.
   */
  ghost predicate SweepThenBond(g: Grid, h: Grid, rule: Rule, l: seq<Vector>, cfg: Config,
                                gs1: seq<Grid>, ts1: seq<Turn>, gs2: seq<Grid>, ts2: seq<Turn>)
  {
    |gs2| >= 1 && Sweep(g, gs2[0], rule, l, cfg, gs1, ts1)
    && |ts2| <= |Outputs(gs1, ts1, cfg)| && Sweep(gs2[0], h, BondRule, Outputs(gs1, ts1, cfg)[..|ts2|], cfg, gs2, ts2)
  }

  /** SweepThenBond where every listed place had its bond turn. */
  ghost predicate SweptAndBonded(g: Grid, h: Grid, rule: Rule, l: seq<Vector>, cfg: Config,
                                 gs1: seq<Grid>, ts1: seq<Turn>, gs2: seq<Grid>, ts2: seq<Turn>)
  {
    SweepThenBond(g, h, rule, l, cfg, gs1, ts1, gs2, ts2) && |ts2| == |Outputs(gs1, ts1, cfg)|
  }

  /** The cell at p holds a free Link: what rule 4.3 asserts of each produced Link. */
  predicate FreeLinkAt(g: Grid, p: Vector)
    requires Shaped(g)
  {
    InGrid(p) && At(g, p) == Link([])
  }

  /**
   * Rule 4 from g to h: the production sweep over the Catalysts of g, then
   * the bond turns of 4.3 for the produced Links, each of which the source
   * asserts is still a free Link when its turn comes; ok says every
   * assertion held, and when one failed, h is the grid it failed on.
   */
  ghost predicate ProductionRan(g: Grid, h: Grid, cfg: Config, ok: bool,
                                gs1: seq<Grid>, ts1: seq<Turn>, gs2: seq<Grid>, ts2: seq<Turn>)
  {
    Shaped(g) && Shaped(h) && SweepThenBond(g, h, ProduceRule, Where(g, CatalystK), cfg, gs1, ts1, gs2, ts2)
    && var out := Outputs(gs1, ts1, cfg);
       (forall j :: 0 <= j < |ts2| ==> FreeLinkAt(gs2[j], out[j]))
       && (ok <==> |ts2| == |out|)
       && (!ok ==> !FreeLinkAt(h, out[|ts2|]))
  }

  /** The free Links m[i+1..] stay free when only the Link at m[i] may have moved. */
  lemma FreeRest(g: Grid, h: Grid, m: seq<Vector>, i: int)
    requires Shaped(g) && Shaped(h) && 0 <= i < |m| && Distinct(m)
    requires forall j :: i <= j < |m| ==> InGrid(m[j]) && At(g, m[j]) == Link([])
    requires forall q :: InGrid(q) && q != m[i] && At(g, q).Link? ==> At(h, q) == At(g, q)
    ensures forall j :: i + 1 <= j < |m| ==> InGrid(m[j]) && At(h, m[j]) == Link([])
  {
    forall j | i + 1 <= j < |m|
      ensures InGrid(m[j]) && At(h, m[j]) == Link([])
    {
      assert m[j] != m[i];
    }
  }

  /** A sweep under rule, then a bond turn for every place it listed: a complete phase of rule 2 or 4. */
  lemma SweepsJoin(g: Grid, k: Grid, h: Grid, rule: Rule, m: seq<Vector>, cfg: Config,
                   gs1: seq<Grid>, ts1: seq<Turn>, gs2: seq<Grid>, ts2: seq<Turn>)
    requires Sweep(g, k, rule, m, cfg, gs1, ts1) && Sweep(k, h, BondRule, Outputs(gs1, ts1, cfg), cfg, gs2, ts2)
    ensures SweptAndBonded(g, h, rule, m, cfg, gs1, ts1, gs2, ts2)
  {
    var out := Outputs(gs1, ts1, cfg);
    assert gs2[0] == k && |ts2| == |out|;
    assert out[..|ts2|] == out;
  }

  /** Moving free Links and then bonding some keeps the kind counts, and every bonded Link stays bonded. */
  lemma MovedThenBonded(g: Grid, k: Grid, h: Grid)
    requires Shaped(g) && Shaped(k) && Shaped(h)
    requires (forall x :: Count(k, x) == Count(g, x)) && BondedFixed(g, k)
    requires SameKindCounts(k, h) && BondedStay(k, h)
    ensures SameKindCounts(g, h) && BondedStay(g, h)
  {
    FixedStay(g, k);
    BondedStayTransitive(g, k, h);
  }

  /** The empty sweep over the empty prefix of l. */
  lemma SweepStart(g: Grid, rule: Rule, l: seq<Vector>, cfg: Config)
    requires Shaped(g)
    ensures Sweep(g, g, rule, l[..0], cfg, [g], []) && Outputs([g], [], cfg) == []
  {
  }

  /** One more turn, for l[i], extends a sweep over l[..i] and its list. */
  lemma SweepStep(g: Grid, rule: Rule, l: seq<Vector>, cfg: Config, gs: seq<Grid>, ts: seq<Turn>,
                  k: Grid, h: Grid, t: Turn, i: int)
    requires 0 <= i < |l| && Sweep(g, k, rule, l[..i], cfg, gs, ts)
    requires Shaped(k) && Shaped(h) && Turned(k, h, t, cfg) && t.RuleOf() == rule && t.at == l[i]
    ensures Sweep(g, h, rule, l[..i + 1], cfg, gs + [h], ts + [t])
    ensures Outputs(gs + [h], ts + [t], cfg) == Outputs(gs, ts, cfg) + Yield(k, t, cfg)
  {
    SweepExtend(g, rule, l, cfg, gs, ts, k, h, t, i);
    OutputsStep(gs, ts, h, t, cfg);
  }

  /** One more turn, for l[i], extends a sweep over l[..i]. */
  lemma SweepExtend(g: Grid, rule: Rule, l: seq<Vector>, cfg: Config, gs: seq<Grid>, ts: seq<Turn>,
                    k: Grid, h: Grid, t: Turn, i: int)
    requires 0 <= i < |l| && Sweep(g, k, rule, l[..i], cfg, gs, ts)
    requires Shaped(k) && Shaped(h) && Turned(k, h, t, cfg) && t.RuleOf() == rule && t.at == l[i]
    ensures Sweep(g, h, rule, l[..i + 1], cfg, gs + [h], ts + [t])
  {
    var gs', ts' := gs + [h], ts + [t];
    TraceStep(gs, ts, h, t, cfg);
    VisitsStep(ts, rule, l, t, i);
    assert gs'[0] == g && gs'[|ts'|] == h;
  }

  /** One more turn under rule, for l[i], extends the turns for l[..i]. */
  lemma VisitsStep(ts: seq<Turn>, rule: Rule, l: seq<Vector>, t: Turn, i: int)
    requires 0 <= i < |l| && Visits(ts, rule, l[..i]) && t.RuleOf() == rule && t.at == l[i]
    ensures Visits(ts + [t], rule, l[..i + 1])
  {
    var ts' := ts + [t];
    forall j | 0 <= j < |ts'|
      ensures ts'[j].RuleOf() == rule && ts'[j].at == l[..i + 1][j]
    {
      if j < |ts| {
        assert ts'[j] == ts[j] && l[..i + 1][j] == l[..i][j];
      }
    }
  }

  /** A trace extended by one more turn from its last grid. */
  lemma TraceStep(gs: seq<Grid>, ts: seq<Turn>, h: Grid, t: Turn, cfg: Config)
    requires Trace(gs, ts, cfg) && Shaped(h) && Turned(gs[|ts|], h, t, cfg)
    ensures Trace(gs + [h], ts + [t], cfg)
  {
    var gs', ts' := gs + [h], ts + [t];
    assert gs'[..|ts'|] == gs && ts'[..|ts'| - 1] == ts;
    assert gs'[|ts'| - 1] == gs[|ts|] && gs'[|ts'|] == h && ts'[|ts'| - 1] == t;
    forall j | 0 <= j < |gs'|
      ensures Shaped(gs'[j])
    {
      if j < |gs| {
        assert gs'[j] == gs[j];
      }
    }
  }

  /** One more turn adds its yield to the list of a trace. */
  lemma OutputsStep(gs: seq<Grid>, ts: seq<Turn>, h: Grid, t: Turn, cfg: Config)
    requires |gs| == |ts| + 1 && Shaped(h) && forall i :: 0 <= i < |gs| ==> Shaped(gs[i])
    ensures Outputs(gs + [h], ts + [t], cfg) == Outputs(gs, ts, cfg) + Yield(gs[|ts|], t, cfg)
  {
    var gs', ts' := gs + [h], ts + [t];
    assert gs'[..|ts'|] == gs && ts'[..|ts'| - 1] == ts;
  }

  /** Rule 1 took g to h: one turn per hole of g. */
  ghost predicate MotionRan(g: Grid, h: Grid, cfg: Config)
  {
    Shaped(g) && exists gs, ts :: Sweep(g, h, HoleRule, Where(g, HoleK), cfg, gs, ts)
  }

  /** Rule 2 took g to h: one turn per free Link of g, then a bond turn per Link that moved. */
  ghost predicate MotionLRan(g: Grid, h: Grid, cfg: Config)
  {
    Shaped(g) && exists gs1, ts1, gs2, ts2 :: SweptAndBonded(g, h, LinkRule, Where(g, FreeK), cfg, gs1, ts1, gs2, ts2)
  }

  /** Rule 3 took g to h: one turn per Catalyst of g. */
  ghost predicate MotionKRan(g: Grid, h: Grid, cfg: Config)
  {
    Shaped(g) && exists gs, ts :: Sweep(g, h, CatalystRule, Where(g, CatalystK), cfg, gs, ts)
  }

  /** Rule 4 took g to h and produced n Links; ok says its assertions held. */
  ghost predicate ProductionMade(g: Grid, h: Grid, cfg: Config, ok: bool, n: int)
  {
    exists gs1, ts1, gs2, ts2 :: ProductionRan(g, h, cfg, ok, gs1, ts1, gs2, ts2) && n == |Outputs(gs1, ts1, cfg)|
  }

  /** Rule 5 took g to h: every Link of g had its turn (ok), or the turns stopped at a failed assertion. */
  ghost predicate DisintegrationRan(g: Grid, h: Grid, decays: set<Vector>, ok: bool)
  {
    Shaped(g) && Shaped(h)
    && if ok then DecaysRan(g, h, Where(g, LinkK), decays) else exists k :: DecaysStopped(g, h, Where(g, LinkK), decays, k)
  }

  /** The grids a tick passes through: after motion, Link motion, catalyst motion and production. */
  datatype Phases = Phases(moved: Grid, linksMoved: Grid, catalystsMoved: Grid, produced: Grid)

  /**
   * One tick from g to h, through the grids ph (catalystsMoved is
   * linksMoved when the program has no catalyst motion); production made n
   * Links, pok says its assertions held, ok that the whole tick did. A
   * failed production assertion ends the tick.
   */
  ghost predicate StepRan(g: Grid, h: Grid, decays: set<Vector>, cfg: Config, ph: Phases, n: int, pok: bool, ok: bool)
  {
    Shaped(g) && Shaped(h) && Shaped(ph.moved) && Shaped(ph.linksMoved) && Shaped(ph.catalystsMoved) && Shaped(ph.produced)
    && MotionRan(g, ph.moved, cfg) && MotionLRan(ph.moved, ph.linksMoved, cfg)
    && (if cfg.catalystMotion then MotionKRan(ph.linksMoved, ph.catalystsMoved, cfg) else ph.catalystsMoved == ph.linksMoved)
    && ProductionMade(ph.catalystsMoved, ph.produced, cfg, pok, n)
    && (if pok then DisintegrationRan(ph.produced, h, decays, ok) else !ok && h == ph.produced)
  }

  /** `random.shuffle`: some ordering of s. */
  method Shuffle<T(==)>(s: seq<T>) returns (r: seq<T>)
    ensures multiset(r) == multiset(s)
  {
    r :| multiset(r) == multiset(s);
  }

  class CA {
    /** The grid `self.a`, indexed a[y][x]. */
    var a: Grid
    var countS: int
    var countL: int
    var countJ: int
    /** Which of the two programs this is. */
    const cfg: Config

    /**
     * The invariant every rule keeps: the bond invariant GridOK, and at least
     * as many holes as Links (production makes one of each, disintegration
     * removes one of each), so disintegration always finds a hole.
     */
    ghost predicate Wellformed()
      reads this
    {
      GridOK(a, cfg.orthogonalBonding) && Count(a, Cells(HoleK)) >= Count(a, Cells(LinkK))
    }

    /** The counters agree with the grid: countS Substrates, countL Links, countJ bonds. */
    ghost predicate Valid()
      reads this
    {
      Wellformed() && countS == Count(a, Cells(SubstrateK)) && LinksCounted()
    }

    /** countL and countJ agree with the grid (motionK can leave only countS behind). */
    ghost predicate LinksCounted()
      reads this
    {
      countL == Count(a, Cells(LinkK)) && 2 * countJ == Count(a, BondEnds)
    }

    /** `CA(c)`: a Catalyst at every position of cats, Substrate everywhere else. */
    constructor (cats: seq<Vector>, cfg: Config)
      ensures this.cfg == cfg && Valid()
      ensures forall p :: InGrid(p) ==> At(a, p) == Initial(cats, p)
      ensures countL == 0 && countJ == 0
    {
      this.cfg := cfg;
      a := Holes();
      countS, countL, countJ := 0, 0, 0;
      new;
      CountNone(a, Cells(SubstrateK));
      CountNone(a, Cells(LinkK));
      CountNone(a, BondEnds);
      var i := 0;
      while i < SIZE
        invariant 0 <= i <= SIZE && FilledTo(a, cats, Vector(0, i)) && countL == 0 && countJ == 0
        invariant countS == Count(a, Cells(SubstrateK)) && Count(a, Cells(LinkK)) == 0 && Count(a, BondEnds) == 0
      {
        var j := 0;
        while j < SIZE
          invariant 0 <= j <= SIZE && FilledTo(a, cats, Vector(j, i)) && countL == 0 && countJ == 0
          invariant countS == Count(a, Cells(SubstrateK)) && Count(a, Cells(LinkK)) == 0 && Count(a, BondEnds) == 0
        {
          var p := Vector(j, i);
          FillStep(a, cats, p);
          a := Set(a, p, Initial(cats, p));
          if !(p in cats) {
            countS := countS + 1;
          }
          j := j + 1;
        }
        NextRow(a, cats, i);
        i := i + 1;
      }
      InitialCounts(a, cats);
    }

    /** `setCell(c, v)`. */
    method SetCell(c: Vector, v: Cell)
      requires Shaped(a) && InGrid(c)
      modifies this
      ensures a == Set(old(a), c, v)
      ensures countS == old(countS) && countL == old(countL) && countJ == old(countJ)
    {
      a := Set(a, c, v);
    }

    /** `pairBond(l, m)`: both `Link.bond` assertions hold, countJ rises by one. */
    method PairBond(l: Vector, m: Vector)
      requires Wellformed() && CanBond(a, l, m)
      requires cfg.orthogonalBonding ==> OrthogonallyAdjacent(l, m)
      modifies this
      ensures a == WithBond(old(a), l, m)
      ensures countJ == old(countJ) + 1 && countS == old(countS) && countL == old(countL)
      ensures Wellformed() && SameKindCounts(old(a), a) && BondsAdded(old(a), a)
      ensures Count(a, BondEnds) == Count(old(a), BondEnds) + 2
      ensures old(LinksCounted()) ==> LinksCounted()
      ensures old(Valid()) ==> Valid()
    {
      DirectionBack(l, m);
      SetCell(l, LinkBond(At(a, l), l, m));
      SetCell(m, LinkBond(At(a, m), m, l));
      countJ := countJ + 1;
      WithBondCounts(old(a), l, m);
      WithBondKeepsOK(old(a), l, m, cfg.orthogonalBonding);
      WithBondAdds(old(a), l, m);
      assert Count(a, Cells(SubstrateK)) == Count(old(a), Cells(SubstrateK));
      assert Count(a, Cells(LinkK)) == Count(old(a), Cells(LinkK));
    }

    /** `pairUnbond(l, m)`: both `Link.unbond` assertions hold, countJ falls by one. */
    method PairUnbond(l: Vector, m: Vector)
      requires Wellformed() && InGrid(l) && InGrid(m) && l != m
      requires At(a, l).Link? && At(a, m).Link? && Bonded(a, l, m) && Bonded(a, m, l)
      modifies this
      ensures a == WithoutBond(old(a), l, m)
      ensures countJ == old(countJ) - 1 && countS == old(countS) && countL == old(countL)
      ensures Wellformed() && SameKindCounts(old(a), a)
      ensures Count(a, BondEnds) + 2 == Count(old(a), BondEnds)
      ensures old(LinksCounted()) ==> LinksCounted()
      ensures old(Valid()) ==> Valid()
    {
      SetCell(l, LinkUnbond(At(a, l), l, m));
      SetCell(m, LinkUnbond(At(a, m), m, l));
      countJ := countJ - 1;
      WithoutBondCounts(old(a), l, m);
      WithoutBondKeepsOK(old(a), l, m, cfg.orthogonalBonding);
    }

    /**
     * The state `bonding(li)` leaves when it bonded li to the partners ps,
     * starting from grid g0 and counters s0, l0, j0: the invariant holds,
     * bonds were only added, no cell changed kind, countJ rose by |ps| and
     * the grid is g0 with li bonded to ps.
     */
    ghost predicate BondingDone(g0: Grid, s0: int, l0: int, j0: int, li: Vector, ps: seq<Vector>)
      reads this
    {
      Wellformed() && Shaped(g0) && BondsAdded(g0, a) && SameKindCounts(g0, a)
      && countS == s0 && countL == l0 && countJ == j0 + |ps|
      && BondedTo(g0, a, li, ps, cfg)
    }

    /** The first bond `bonding` forms from the free Link li. */
    method BondOne(li: Vector, x: Vector)
      requires Wellformed() && InGrid(li) && At(a, li) == Link([])
      requires Candidate(a, li, x, cfg)
      modifies this
      ensures CanBond(old(a), li, x) && a == WithBond(old(a), li, x)
      ensures Wellformed() && BondsAdded(old(a), a) && SameKindCounts(old(a), a)
      ensures old(LinksCounted()) ==> LinksCounted()
      ensures countJ == old(countJ) + 1 && countS == old(countS) && countL == old(countL)
      ensures BondedTo(old(a), a, li, [x], cfg)
      ensures li.Add(N[At(a, li).bonds[0]]) == x
    {
      OneBond(a, li, x, cfg);
      PairBond(li, x);
    }

    /**
     * The second bond, from li (free in g0, bonded to x since) to y: the
     * two bonds together are what `bonding` promises relative to g0.
     */
    method BondAgain(ghost g0: Grid, li: Vector, x: Vector, y: Vector)
      requires GridOK(g0, cfg.orthogonalBonding) && InGrid(li) && At(g0, li) == Link([])
      requires Candidate(g0, li, x, cfg)
      requires Candidate(g0, li, y, cfg)
      requires Acute(x, y) && CanBond(g0, li, x)
      requires Wellformed() && a == WithBond(g0, li, x)
      modifies this
      ensures Wellformed() && BondsAdded(g0, a) && SameKindCounts(g0, a)
      ensures old(LinksCounted()) ==> LinksCounted()
      ensures countJ == old(countJ) + 1 && countS == old(countS) && countL == old(countL)
      ensures BondedTo(g0, a, li, [x, y], cfg)
    {
      TwoBonds(g0, li, x, y, cfg);
      WithBondAdds(g0, li, x);
      WithBondCounts(g0, li, x);
      PairBond(li, y);
      BondsAddedTransitive(g0, old(a), a);
    }

    /**
     * Step 6.3: the pairing loop over the shuffled singles m ends at an
     * acceptable pair x, y; bond li to both.
     */
    method BondPairOf(li: Vector, m: seq<Vector>) returns (ghost partners: seq<Vector>)
      requires Wellformed() && InGrid(li) && At(a, li) == Link([])
      requires m == Singles(a, li, BondingHood(cfg)) && HasPair(a, m)
      modifies this
      ensures BondingDone(old(a), old(countS), old(countL), old(countJ), li, partners)
      ensures old(LinksCounted()) ==> LinksCounted()
      ensures |partners| == 2 && partners[0] in m && partners[1] in m && PairOK(old(a), partners[0], partners[1])
    {
      var i, j :| 0 <= i < |m| && 0 <= j < |m| && PairOK(a, m[i], m[j]);
      var x, y := m[i], m[j];
      SingleFacts(a, li, cfg, x);
      SingleFacts(a, li, cfg, y);
      BondPair(li, x, y);
      partners := [x, y];
    }

    /** Bond to two singly bonded candidates x and y at an acute angle. */
    method BondPair(li: Vector, x: Vector, y: Vector)
      requires Wellformed() && InGrid(li) && At(a, li) == Link([])
      requires Candidate(a, li, x, cfg) && Candidate(a, li, y, cfg) && Acute(x, y)
      modifies this
      ensures BondingDone(old(a), old(countS), old(countL), old(countJ), li, [x, y])
      ensures old(LinksCounted()) ==> LinksCounted()
    {
      BondOne(li, x);
      BondAgain(old(a), li, x, y);
    }

    /**
     * Steps 6.4 to 6.4.3: bond to the one singly bonded candidate x, then
     * to one of the free neighbours n at an acute angle to it, if any.
     */
    method BondSingle(li: Vector, x: Vector, n: seq<Vector>) returns (ghost partners: seq<Vector>)
      requires Wellformed() && InGrid(li) && At(a, li) == Link([])
      requires Candidate(a, li, x, cfg)
      requires forall q :: q in n ==>
        Candidate(a, li, q, cfg)
      modifies this
      ensures BondingDone(old(a), old(countS), old(countL), old(countJ), li, partners)
      ensures old(LinksCounted()) ==> LinksCounted()
      ensures |partners| >= 1 && partners[0] == x && SecondFrom(n, partners)
    {
      BondOne(li, x);
      var n2 := AcuteTo(n, li.Add(N[At(a, li).bonds[0]]));
      if |n2| == 0 {
        partners := [x];
        return;
      }
      var k :| 0 <= k < |n2|;
      var y := n2[k];
      AcuteSymmetric(x, y);
      BondAgain(old(a), li, x, y);
      partners := [x, y];
    }

    /**
     * Steps 6.6 to 6.6.2: bond to one of the free neighbours n (the one
     * `n.pop()` takes after the shuffle), then to one of the others at an
     * acute angle to it, if any.
     */
    method BondFree(li: Vector, n: seq<Vector>) returns (ghost partners: seq<Vector>)
      requires Wellformed() && InGrid(li) && At(a, li) == Link([]) && |n| > 0
      requires forall q :: q in n ==>
        Candidate(a, li, q, cfg)
      modifies this
      ensures BondingDone(old(a), old(countS), old(countL), old(countJ), li, partners)
      ensures old(LinksCounted()) ==> LinksCounted()
      ensures |partners| >= 1 && partners[0] in n && SecondFrom(n, partners)
    {
      var k :| 0 <= k < |n|;
      var f := n[k];
      var rest := n[..k] + n[k + 1..];
      BondOne(li, f);
      partners := [f];
      forall v | v in n && Acute(v, f)
        ensures v in rest
      {
        InRest(n, k, v);
      }
      if |rest| > 0 {
        var n2 := AcuteTo(rest, li.Add(N[At(a, li).bonds[0]]));
        if |n2| > 0 {
          var k2 :| 0 <= k2 < |n2|;
          var y := n2[k2];
          InDropped(n, k, y);
          AcuteSymmetric(f, y);
          BondAgain(old(a), li, f, y);
          partners := [f, y];
        }
      }
    }

    /**
     * Rule 6, `bonding(li)` for a free Link li. The shuffle and scan of 6.3
     * can end at any acceptable ordered pair, so the pair is a choice.
     */
    method Bonding(li: Vector) returns (ghost partners: seq<Vector>)
      requires Wellformed() && InGrid(li) && At(a, li) == Link([])
      modifies this
      ensures BondingDone(old(a), old(countS), old(countL), old(countJ), li, partners)
      ensures old(LinksCounted()) ==> LinksCounted()
      ensures old(Valid()) ==> Valid()
      ensures partners == [] <==> NoPartner(old(a), li, BondingHood(cfg))
      ensures BondingRan(old(a), a, li, cfg)
    {
      var hood := BondingHood(cfg);
      var m := Singles(a, li, hood);
      var n := Around(a, li, hood, FreeK);
      if |m| >= 2 && HasPair(a, m) {
        partners := BondPairOf(li, m);
      } else if |m| == 1 {
        SingleFacts(a, li, cfg, m[0]);
        FreeFacts(a, li, cfg);
        partners := BondSingle(li, m[0], n);
      } else if |n| == 0 {
        NoBond(a, li, cfg);
        partners := [];
      } else {
        FreeFacts(a, li, cfg);
        partners := BondFree(li, n);
      }
    }

    /** The three setCell calls of a displacement into a hole: s into p, z into s, z emptied. */
    method Rotation(z: Vector, s: Vector, p: Vector)
      requires Wellformed() && InGrid(z) && InGrid(s) && InGrid(p) && z != s
      requires At(a, p).Hole? && At(a, s).Substrate? && !At(a, z).Hole? && !IsBonded(At(a, z))
      modifies this
      ensures a == Rotate(old(a), z, s, p)
      ensures At(a, s) == At(old(a), z) && At(a, z) == Hole
      ensures forall q :: InGrid(q) && q != z && q != s && q != p ==> At(a, q) == At(old(a), q)
      ensures forall m :: Count(a, m) == Count(old(a), m)
      ensures BondedFixed(old(a), a) && Wellformed() && (old(Valid()) ==> Valid())
      ensures countS == old(countS) && countL == old(countL) && countJ == old(countJ)
    {
      SetCell(p, At(a, s));
      SetCell(s, At(a, z));
      SetCell(z, Hole);
      RotateCells(old(a), z, s, p);
      RotateKeeps(old(a), z, s, p);
      BondedFixedKeepsOK(old(a), a, cfg.orthogonalBonding);
    }

    /**
     * Rule 2.3.2, `displaceS(z, s, allowExchange)`: the occupant of z (a free
     * Link or a Catalyst) pushes the Substrate at s aside. Only z, s and the
     * hole p change; nothing is created or destroyed and no bond is touched.
     */
    method DisplaceS(z: Vector, s: Vector, allowExchange: bool) returns (moved: bool, p: Vector)
      requires Wellformed() && InGrid(z) && InGrid(s) && z != s
      requires At(a, s).Substrate? && !At(a, z).Hole? && !IsBonded(At(a, z))
      modifies this
      ensures Shaped(a)
      ensures Displaced(old(a), a, z, s, allowExchange, moved, p)
      ensures moved ==> At(a, s) == At(old(a), z) && (At(a, z) == Hole || At(a, z) == Substrate)
      ensures forall q :: InGrid(q) && q != z && q != s && !At(old(a), q).Hole? ==> At(a, q) == At(old(a), q)
      ensures forall m :: Count(a, m) == Count(old(a), m)
      ensures BondedFixed(old(a), a) && Wellformed() && (old(Valid()) ==> Valid())
      ensures countS == old(countS) && countL == old(countL) && countJ == old(countJ)
    {
      var nh := Around(a, s, MOORE, HoleK);
      if |nh| > 0 {
        var k :| 0 <= k < |nh|;
        p := nh[k];
        Rotation(z, s, p);
        moved := true;
        return;
      }
      var th := Through(a, s);
      if |th| > 0 {
        var k :| 0 <= k < |th|;
        p := th[k];
        Rotation(z, s, p);
        moved := true;
        return;
      }
      p := s;
      if allowExchange {
        var swap := At(a, s);
        SetCell(s, At(a, z));
        SetCell(z, swap);
        SwapCells(old(a), z, s);
        SwapKeeps(old(a), z, s);
        BondedFixedKeepsOK(old(a), a, cfg.orthogonalBonding);
        moved := true;
        return;
      }
      moved := false;
    }

    /**
     * Rule 2.3, `moveL(l, ni, allowExchange)` for the free Link at l. The
     * source passes True to displaceS whatever allowExchange is, so a
     * Substrate at ni is always displaced, by a swap if need be.
     */
    method MoveL(l: Vector, ni: Vector, allowExchange: bool) returns (moved: bool, p: Vector)
      requires Wellformed() && InGrid(l) && InGrid(ni) && l != ni && At(a, l) == Link([])
      modifies this
      ensures Shaped(a)
      ensures LinkMoved(old(a), a, l, ni) && (moved <==> Pushable(old(a), ni))
      ensures At(old(a), ni).Substrate? ==> moved && Displaced(old(a), a, l, ni, true, moved, p)
      ensures At(old(a), ni).Hole? ==> moved && a == Fill(old(a), ni, l)
      ensures !At(old(a), ni).Substrate? && !At(old(a), ni).Hole? ==> !moved && a == old(a)
      ensures moved ==> At(a, ni) == Link([]) && (At(a, l) == Hole || At(a, l) == Substrate)
      ensures At(old(a), ni).Substrate? && Around(old(a), ni, MOORE, HoleK) == [] && Through(old(a), ni) == []
              ==> At(a, l) == Substrate
      ensures forall q :: InGrid(q) && q != l && (At(old(a), q).Link? || At(old(a), q).Catalyst?)
                ==> At(a, q) == At(old(a), q)
      ensures forall m :: Count(a, m) == Count(old(a), m)
      ensures BondedFixed(old(a), a) && Wellformed() && (old(Valid()) ==> Valid())
      ensures countS == old(countS) && countL == old(countL) && countJ == old(countJ)
    {
      p := ni;
      if At(a, ni).Substrate? {
        moved, p := DisplaceS(l, ni, true);
        assert Displaced(old(a), a, l, ni, true, true, p);
        if Around(old(a), ni, MOORE, HoleK) == [] && Through(old(a), ni) == [] {
          DisplacedBySwap(old(a), a, l, ni, p);
        }
      } else if At(a, ni).Hole? {
        SetCell(ni, At(a, l));
        SetCell(l, Hole);
        FillKeeps(old(a), ni, l);
        BondedFixedKeepsOK(old(a), a, cfg.orthogonalBonding);
        moved := true;
        assert a == Fill(old(a), ni, l);
      } else {
        moved := false;
      }
    }

    /**
     * Rules 1.3 and 1.4 for the hole h and direction d: the move of
     * HoleMove, then bonding of a Link that moved into h.
     */
    method MotionAt(h: Vector, d: int) returns (ghost partners: seq<Vector>)
      requires Wellformed() && InGrid(h) && 1 <= d < ORTHOGONAL
      modifies this
      ensures MovesLink(old(a), h, d) ==>
        BondingDone(HoleMove(old(a), h, d), old(countS), old(countL), old(countJ), h, partners)
      ensures !MovesLink(old(a), h, d) ==> a == HoleMove(old(a), h, d) && countJ == old(countJ)
      ensures Shaped(a) && Turned(old(a), a, HoleTurn(h, d), cfg)
      ensures Wellformed() && (old(Valid()) ==> Valid()) && (old(LinksCounted()) ==> LinksCounted())
      ensures SameKindCounts(old(a), a) && BondedStay(old(a), a)
      ensures countS == old(countS) && countL == old(countL)
    {
      HoleMoveKeeps(a, h, d);
      partners := [];
      var ni := h.Add(N[d]);
      if !InGrid(ni) || At(a, ni).Hole? {
        FixedStay(a, a);
        return;
      }
      if !At(a, h).Hole? {
        FixedStay(a, a);
        return;
      }
      if IsBonded(At(a, ni)) {
        var np := h.Add(N_PRIME[d]);
        if InGrid(np) && At(a, np).Substrate? {
          SetCell(h, At(a, np));
          SetCell(np, Hole);
        }
        BondedFixedKeepsOK(old(a), a, cfg.orthogonalBonding);
        FixedStay(old(a), a);
        return;
      }
      SetCell(h, At(a, ni));
      SetCell(ni, Hole);
      BondedFixedKeepsOK(old(a), a, cfg.orthogonalBonding);
      FixedStay(old(a), a);
      if At(a, h).Link? {
        ghost var g1 := a;
        partners := Bonding(h);
        AddedStay(g1, a);
        BondedStayTransitive(old(a), g1, a);
      }
    }

    /**
     * Rule 1, `motion()`: every hole of the grid as it was when the phase
     * began, in row-major order, with a direction chosen in 1..4. Every
     * count of kinds is kept and bonded Links stay where they are.
     */
    method Motion() returns (ghost gs: seq<Grid>, ghost ts: seq<Turn>)
      requires Wellformed()
      modifies this
      ensures Wellformed() && (old(Valid()) ==> Valid()) && (old(LinksCounted()) ==> LinksCounted())
      ensures Sweep(old(a), a, HoleRule, Where(old(a), HoleK), cfg, gs, ts)
      ensures SameKindCounts(old(a), a) && BondedStay(old(a), a)
      ensures countS == old(countS) && countL == old(countL)
    {
      var h := Where(a, HoleK);
      FixedStay(a, a);
      SweepStart(a, HoleRule, h, cfg);
      gs, ts := [a], [];
      var i := 0;
      while i < |h|
        invariant 0 <= i <= |h|
        invariant Wellformed() && (old(Valid()) ==> Valid()) && (old(LinksCounted()) ==> LinksCounted())
        invariant Sweep(old(a), a, HoleRule, h[..i], cfg, gs, ts)
        invariant SameKindCounts(old(a), a) && BondedStay(old(a), a)
        invariant countS == old(countS) && countL == old(countL)
      {
        var d :| 1 <= d < ORTHOGONAL;
        ghost var g1 := a;
        var _ := MotionAt(h[i], d);
        BondedStayTransitive(old(a), g1, a);
        SweepStep(old(a), HoleRule, h, cfg, gs, ts, g1, a, HoleTurn(h[i], d), i);
        gs, ts := gs + [a], ts + [HoleTurn(h[i], d)];
        i := i + 1;
      }
      assert h[..i] == h;
    }

    /** Rules 2.2 and 2.3 for the free Link at mi and the direction d: a move if mi + N[d] is on the grid. */
    method MoveFreeLink(mi: Vector, d: int) returns (moved: bool, ni: Vector)
      requires Wellformed() && InGrid(mi) && At(a, mi) == Link([]) && 1 <= d < ORTHOGONAL
      modifies this
      ensures Wellformed() && (old(Valid()) ==> Valid())
      ensures ni == mi.Add(N[d]) && (moved <==> Pushable(old(a), ni))
      ensures Shaped(a) && Turned(old(a), a, LinkTurn(mi, d), cfg)
      ensures !moved ==> a == old(a)
      ensures forall q :: InGrid(q) && q != mi && At(old(a), q).Link? ==> At(a, q) == At(old(a), q)
      ensures forall k :: Count(a, k) == Count(old(a), k)
      ensures BondedFixed(old(a), a)
      ensures countS == old(countS) && countL == old(countL) && countJ == old(countJ)
    {
      ni := mi.Add(N[d]);
      moved := false;
      FixedStay(a, a);
      if InGrid(ni) {
        Table(d);
        var p;
        moved, p := MoveL(mi, ni, true);
      }
    }

    /**
     * Rules 2.1 to 2.3: every free Link of the grid as the phase began, in
     * row-major order, tries one move in a direction chosen in 1..4; l lists
     * the places the Links moved to.
     */
    method MoveFreeLinks() returns (l: seq<Vector>, ghost gs: seq<Grid>, ghost ts: seq<Turn>)
      requires Wellformed()
      modifies this
      ensures Wellformed() && (old(Valid()) ==> Valid()) && (old(LinksCounted()) ==> LinksCounted())
      ensures Sweep(old(a), a, LinkRule, Where(old(a), FreeK), cfg, gs, ts) && l == Outputs(gs, ts, cfg)
      ensures forall q :: q in l ==> InGrid(q)
      ensures forall k :: Count(a, k) == Count(old(a), k)
      ensures BondedFixed(old(a), a)
      ensures countS == old(countS) && countL == old(countL) && countJ == old(countJ)
    {
      ghost var g0, v0, lc0 := a, Valid(), LinksCounted();
      var m := Where(a, FreeK);
      l, gs, ts := MoveEach(g0, v0, lc0, m);
      FreeMovedAll(g0, v0, lc0, m, l, gs, ts);
    }

    /** The moving loop of `motionL()` over the free Links m of g0. */
    method MoveEach(ghost g0: Grid, ghost v0: bool, ghost lc0: bool, m: seq<Vector>)
      returns (l: seq<Vector>, ghost gs: seq<Grid>, ghost ts: seq<Turn>)
      requires Wellformed() && a == g0 && v0 == Valid() && lc0 == LinksCounted() && m == Where(g0, FreeK)
      modifies this
      ensures FreeMoving(g0, v0, lc0, m, |m|, l, gs, ts)
      ensures countS == old(countS) && countL == old(countL) && countJ == old(countJ)
    {
      WhereDistinct(a, FreeK);
      SweepStart(a, LinkRule, m, cfg);
      gs, ts := [a], [];
      l := [];
      var i := 0;
      while i < |m|
        invariant FreeMoving(g0, v0, lc0, m, i, l, gs, ts)
        invariant countS == old(countS) && countL == old(countL) && countJ == old(countJ)
      {
        l, gs, ts := MoveNext(g0, v0, lc0, m, i, l, gs, ts);
        i := i + 1;
      }
    }

    /** What the moving loop leaves once every free Link of m has had its turn. */
    lemma FreeMovedAll(g0: Grid, v0: bool, lc0: bool, m: seq<Vector>, l: seq<Vector>, gs: seq<Grid>, ts: seq<Turn>)
      requires FreeMoving(g0, v0, lc0, m, |m|, l, gs, ts)
      ensures Wellformed() && (v0 ==> Valid()) && (lc0 ==> LinksCounted())
      ensures Sweep(g0, a, LinkRule, m, cfg, gs, ts) && l == Outputs(gs, ts, cfg)
      ensures forall q :: q in l ==> InGrid(q)
      ensures forall k :: Count(a, k) == Count(g0, k)
      ensures BondedFixed(g0, a)
    {
      assert m[..|m|] == m;
    }

    /** The state of `motionL()`'s moving loop after the first i free Links of m, those of g0. */
    ghost predicate FreeMoving(g0: Grid, v0: bool, lc0: bool, m: seq<Vector>, i: int, l: seq<Vector>,
                               gs: seq<Grid>, ts: seq<Turn>)
      reads this
    {
      Shaped(g0) && 0 <= i <= |m| && Distinct(m)
      && Wellformed() && (v0 ==> Valid()) && (lc0 ==> LinksCounted())
      && (forall j :: i <= j < |m| ==> InGrid(m[j]) && At(a, m[j]) == Link([]))
      && Sweep(g0, a, LinkRule, m[..i], cfg, gs, ts) && l == Outputs(gs, ts, cfg)
      && (forall q :: q in l ==> InGrid(q))
      && (forall k :: Count(a, k) == Count(g0, k))
      && BondedFixed(g0, a)
    }

    /** One turn of the moving loop: the free Link m[i] tries a direction chosen in 1..4. */
    method MoveNext(ghost g0: Grid, ghost v0: bool, ghost lc0: bool, m: seq<Vector>, i: int, l: seq<Vector>,
                    ghost gs: seq<Grid>, ghost ts: seq<Turn>)
      returns (l': seq<Vector>, ghost gs': seq<Grid>, ghost ts': seq<Turn>)
      requires FreeMoving(g0, v0, lc0, m, i, l, gs, ts) && i < |m|
      modifies this
      ensures FreeMoving(g0, v0, lc0, m, i + 1, l', gs', ts')
      ensures countS == old(countS) && countL == old(countL) && countJ == old(countJ)
    {
      var d :| 1 <= d < ORTHOGONAL;
      ghost var g1 := a;
      var moved, ni := MoveFreeLink(m[i], d);
      BondedFixedTransitive(g0, g1, a);
      FreeRest(g1, a, m, i);
      SweepStep(g0, LinkRule, m, cfg, gs, ts, g1, a, LinkTurn(m[i], d), i);
      gs', ts' := gs + [a], ts + [LinkTurn(m[i], d)];
      l' := l;
      if moved {
        l' := l + [ni];
      }
    }

    /** Rule 2.4: bond each of the positions l, in order, that still holds a free Link. */
    method BondMoved(l: seq<Vector>) returns (ghost gs: seq<Grid>, ghost ts: seq<Turn>)
      requires Wellformed() && forall q :: q in l ==> InGrid(q)
      modifies this
      ensures Wellformed() && (old(Valid()) ==> Valid()) && (old(LinksCounted()) ==> LinksCounted())
      ensures Sweep(old(a), a, BondRule, l, cfg, gs, ts)
      ensures SameKindCounts(old(a), a) && BondedStay(old(a), a)
      ensures countS == old(countS) && countL == old(countL)
    {
      FixedStay(a, a);
      SweepStart(a, BondRule, l, cfg);
      gs, ts := [a], [];
      var k := 0;
      while k < |l|
        invariant 0 <= k <= |l|
        invariant Wellformed() && (old(Valid()) ==> Valid()) && (old(LinksCounted()) ==> LinksCounted())
        invariant Sweep(old(a), a, BondRule, l[..k], cfg, gs, ts)
        invariant SameKindCounts(old(a), a) && BondedStay(old(a), a)
        invariant countS == old(countS) && countL == old(countL)
      {
        var li := l[k];
        assert li in l;
        ghost var g1 := a;
        if At(a, li).Link? && |At(a, li).bonds| == 0 {
          var _ := Bonding(li);
          AddedStay(g1, a);
          BondedStayTransitive(old(a), g1, a);
        }
        SweepStep(old(a), BondRule, l, cfg, gs, ts, g1, a, BondTurn(li), k);
        gs, ts := gs + [a], ts + [BondTurn(li)];
        k := k + 1;
      }
      assert l[..k] == l;
    }

    /**
     * Rule 2, `motionL()`: every free Link of the grid as it was when the
     * phase began tries to move in a direction chosen in 1..4; afterwards
     * each Link that moved and is still free is bonded.
     */
    method MotionL() returns (ghost gs1: seq<Grid>, ghost ts1: seq<Turn>, ghost gs2: seq<Grid>, ghost ts2: seq<Turn>)
      requires Wellformed()
      modifies this
      ensures Wellformed() && (old(Valid()) ==> Valid()) && (old(LinksCounted()) ==> LinksCounted())
      ensures SweptAndBonded(old(a), a, LinkRule, Where(old(a), FreeK), cfg, gs1, ts1, gs2, ts2)
      ensures SameKindCounts(old(a), a) && BondedStay(old(a), a)
      ensures countS == old(countS) && countL == old(countL)
    {
      var l;
      l, gs1, ts1 := MoveFreeLinks();
      ghost var g1 := a;
      gs2, ts2 := BondMoved(l);
      SweepsJoin(old(a), g1, a, LinkRule, Where(old(a), FreeK), cfg, gs1, ts1, gs2, ts2);
      MovedThenBonded(old(a), g1, a);
    }

    /**
     * What every step of motionK keeps relative to the grid g0 and the
     * counters s0, l0 before it (lc0: whether countL and countJ were right):
     * the invariant, the counts of KCounts, bonded cells, every Catalyst
     * other than the moving one at ci, and countS and countL.
     */
    ghost predicate KDone(g0: Grid, lc0: bool, s0: int, l0: int, ci: Vector)
      reads this
    {
      Shaped(g0) && Wellformed() && (lc0 ==> LinksCounted())
      && KCounts(g0, a) && BondedStay(g0, a)
      && (forall q :: InGrid(q) && q != ci && At(g0, q).Catalyst? ==> At(a, q).Catalyst?)
      && countS == s0 && countL == l0
    }

    /**
     * One attempt of rule 3.3.2: `moveL(ni, h, False)` for the free Link at
     * ni; if it moved the Link, the Catalyst at ci follows into ni.
     */
    method KTry(ci: Vector, ni: Vector, h: Vector) returns (moved: bool)
      requires Wellformed() && InGrid(ci) && At(a, ci).Catalyst? && InGrid(ni) && At(a, ni) == Link([])
      requires InGrid(h) && h != ni
      modifies this
      ensures moved <==> Pushable(old(a), h)
      ensures !moved ==> a == old(a) && countJ == old(countJ) && countS == old(countS) && countL == old(countL)
      ensures moved ==> (KDone(old(a), old(LinksCounted()), old(countS), old(countL), ci)
                         && At(a, ni) == Catalyst && At(a, ci) == Hole)
      ensures moved ==> KPushed(old(a), a, ci, ni, h, cfg)
      ensures Pushable(old(a), h) && At(old(a), h).Substrate?
              && Around(old(a), h, MOORE, HoleK) == [] && Through(old(a), h) == []
              ==> Count(a, Cells(SubstrateK)) + 1 == Count(old(a), Cells(SubstrateK))
    {
      ghost var g0 := a;
      moved := KLinkStep(ci, ni, h);
      if moved {
        ghost var g1 := a;
        KInto(ci, ni, h);
        assert LinkMoved(g0, g1, ni, h) && KFollowed(g1, a, ci, ni, h, cfg);
        KCountsTransitive(g0, g1, a);
        BondedStayTransitive(g0, g1, a);
      }
    }

    /** The first half of KTry: `moveL(ni, h, False)` for the free Link at ni, the Catalyst at ci left alone. */
    method KLinkStep(ci: Vector, ni: Vector, h: Vector) returns (moved: bool)
      requires Wellformed() && InGrid(ci) && At(a, ci).Catalyst? && InGrid(ni) && At(a, ni) == Link([])
      requires InGrid(h) && h != ni
      modifies this
      ensures Shaped(a) && (moved <==> Pushable(old(a), h))
      ensures LinkMoved(old(a), a, ni, h)
      ensures !moved ==> a == old(a)
      ensures countJ == old(countJ) && countS == old(countS) && countL == old(countL)
      ensures KDone(old(a), old(LinksCounted()), old(countS), old(countL), ci)
      ensures moved ==> At(a, h) == Link([]) && (At(a, ni) == Hole || At(a, ni) == Substrate) && At(a, ci).Catalyst?
      ensures Pushable(old(a), h) && At(old(a), h).Substrate?
              && Around(old(a), h, MOORE, HoleK) == [] && Through(old(a), h) == []
              ==> At(a, ni) == Substrate && Count(a, Cells(SubstrateK)) == Count(old(a), Cells(SubstrateK))
    {
      var p;
      moved, p := MoveL(ni, h, false);
      KLinkKeeps(old(a), a, ci, ni);
    }

    /**
     * Rule 3.3.2 for the Catalyst at ci and the free Link at ni: in the
     * shuffled order of ni's neighbours, the first move `moveL(ni, h, False)`
     * accepts carries the Link to h, the Catalyst takes ni and ci becomes a
     * hole; ca.py then bonds the Link at h.
     */
    method KPush(ci: Vector, ni: Vector) returns (moved: bool)
      requires Wellformed() && InGrid(ci) && At(a, ci).Catalyst? && InGrid(ni) && At(a, ni) == Link([])
      modifies this
      ensures moved <==> exists q :: q in InRangeAround(ni, MOORE) && Pushable(old(a), q)
      ensures moved ==> Shaped(a) && exists q :: q in InRangeAround(ni, MOORE) && Pushable(old(a), q)
                                                && KPushed(old(a), a, ci, ni, q, cfg)
      ensures !moved ==> a == old(a) && countJ == old(countJ)
      ensures KDone(old(a), old(LinksCounted()), old(countS), old(countL), ci)
      ensures moved ==> At(a, ni) == Catalyst && At(a, ci) == Hole
    {
      var nh := InRangeAround(ni, MOORE);
      var order := Shuffle(nh);
      forall h | h in order
        ensures InGrid(h) && h != ni
      {
        assert h in multiset(nh);
        assert h.Subtract(ni) in MOORE;
      }
      ghost var g0 := a;
      ghost var pick;
      moved, pick := KScan(ci, ni, order);
      if moved {
        ghost var q := order[pick];
        assert q in multiset(nh);
      } else {
        FixedStay(a, a);
        forall q | q in nh
          ensures !Pushable(g0, q)
        {
          assert q in multiset(order);
        }
      }
    }

    /** The loop of rule 3.3.2 over the neighbours of ni in the order given. */
    method KScan(ci: Vector, ni: Vector, order: seq<Vector>) returns (moved: bool, ghost pick: int)
      requires Wellformed() && InGrid(ci) && At(a, ci).Catalyst? && InGrid(ni) && At(a, ni) == Link([])
      requires forall h :: h in order ==> InGrid(h) && h != ni
      modifies this
      ensures moved <==> exists q :: q in order && Pushable(old(a), q)
      ensures moved ==> 0 <= pick < |order| && Pushable(old(a), order[pick])
                        && (forall k :: 0 <= k < pick ==> !Pushable(old(a), order[k]))
                        && Shaped(a) && KPushed(old(a), a, ci, ni, order[pick], cfg)
      ensures !moved ==> a == old(a) && countJ == old(countJ) && countS == old(countS) && countL == old(countL)
      ensures moved ==> (KDone(old(a), old(LinksCounted()), old(countS), old(countL), ci)
                         && At(a, ni) == Catalyst && At(a, ci) == Hole)
    {
      moved, pick := false, 0;
      var j := 0;
      while j < |order|
        invariant 0 <= j <= |order|
        invariant a == old(a) && countJ == old(countJ) && countS == old(countS) && countL == old(countL)
        invariant forall k :: 0 <= k < j ==> !Pushable(old(a), order[k])
      {
        moved := KTry(ci, ni, order[j]);
        if moved {
          pick := j;
          return;
        }
        j := j + 1;
      }
    }

    /** The Catalyst at ci moves into ni, a hole or a Substrate it destroys; ci becomes a hole. */
    method KFill(ci: Vector, ni: Vector)
      requires Wellformed() && InGrid(ci) && At(a, ci).Catalyst? && InGrid(ni)
      requires At(a, ni) == Hole || At(a, ni) == Substrate
      modifies this
      ensures a == Fill(old(a), ni, ci)
      ensures KDone(old(a), old(LinksCounted()), old(countS), old(countL), ci) && countJ == old(countJ)
      ensures At(a, ni) == Catalyst && At(a, ci) == Hole
      ensures forall q :: InGrid(q) && q != ni && q != ci ==> At(a, q) == At(old(a), q)
      ensures At(old(a), ni).Substrate? ==> Count(a, Cells(SubstrateK)) + 1 == Count(old(a), Cells(SubstrateK))
    {
      SetCell(ni, At(a, ci));
      SetCell(ci, Hole);
      if At(old(a), ni).Hole? {
        FillKeeps(old(a), ni, ci);
      } else {
        FillOverSubstrate(old(a), ni, ci);
      }
      BondedFixedKeepsOK(old(a), a, cfg.orthogonalBonding);
      FixedStay(old(a), a);
    }

    /**
     * The Catalyst at ci takes ni, which the Link pushed to h has left as a
     * hole or, after a swap with a Substrate, holding that Substrate, which
     * is destroyed; ca.py then bonds the Link at h.
     */
    method KInto(ci: Vector, ni: Vector, h: Vector)
      requires Wellformed() && InGrid(ci) && At(a, ci).Catalyst? && InGrid(ni) && InGrid(h)
      requires At(a, ni) == Hole || At(a, ni) == Substrate
      requires At(a, h) == Link([]) && h != ci
      modifies this
      ensures KDone(old(a), old(LinksCounted()), old(countS), old(countL), ci)
      ensures KFollowed(old(a), a, ci, ni, h, cfg)
      ensures At(a, ni) == Catalyst && At(a, ci) == Hole
      ensures !cfg.bondAfterCatalystMove ==> countJ == old(countJ)
      ensures At(old(a), ni).Substrate? ==> Count(a, Cells(SubstrateK)) + 1 == Count(old(a), Cells(SubstrateK))
    {
      KFill(ci, ni);
      if cfg.bondAfterCatalystMove {
        ghost var g1 := a;
        var _ := Bonding(h);
        AddedStay(g1, a);
        BondedStayTransitive(old(a), g1, a);
      }
    }

    /**
     * Rule 3.3 for the Catalyst at ci and the direction d (1..4), target
     * ni = ci + N[d]: off the grid, a bonded Link or another Catalyst, no
     * action; a free Link is pushed to a neighbour, the Catalyst following
     * it, or else swapped with the Catalyst; a Substrate is displaced as by
     * 2.3.2 with exchange; a hole receives the Catalyst.
     */
    method MoveCatalyst(ci: Vector, d: int)
      requires Wellformed() && InGrid(ci) && At(a, ci).Catalyst? && 1 <= d < ORTHOGONAL
      modifies this
      ensures KDone(old(a), old(LinksCounted()), old(countS), old(countL), ci)
      ensures CatalystMoved(old(a), a, ci, d, cfg)
      ensures var ni := ci.Add(N[d]);
        !InGrid(ni) || IsBonded(At(old(a), ni)) || At(old(a), ni).Catalyst? ==> a == old(a)
      ensures var ni := ci.Add(N[d]);
        InGrid(ni) && At(old(a), ni).Hole? ==> a == Fill(old(a), ni, ci)
      ensures var ni := ci.Add(N[d]);
        InGrid(ni) && At(old(a), ni).Substrate? ==>
          exists moved, p :: Displaced(old(a), a, ci, ni, true, moved, p)
      ensures var ni := ci.Add(N[d]);
        InGrid(ni) && At(old(a), ni) == Link([]) ==>
          At(a, ni) == Catalyst
          && (CanPush(old(a), ni) ==> At(a, ci) == Hole)
          && (!CanPush(old(a), ni) ==> At(a, ci).Link?)
    {
      var ni := ci.Add(N[d]);
      FixedStay(a, a);
      if !InGrid(ni) {
        return;
      }
      Table(d);
      if At(a, ni) == Link([]) {
        KMeet(ci, ni);
      } else if At(a, ni).Substrate? {
        var m, p := DisplaceS(ci, ni, true);
        assert Displaced(old(a), a, ci, ni, true, true, p);
        SameCountsK(old(a), a);
        FixedStay(old(a), a);
      } else if At(a, ni).Hole? {
        KFill(ci, ni);
      }
    }

    /** Rules 3.3.2 and 3.3.4: the Catalyst at ci meets the free Link at ni. */
    method KMeet(ci: Vector, ni: Vector)
      requires Wellformed() && InGrid(ci) && At(a, ci).Catalyst? && InGrid(ni) && At(a, ni) == Link([])
      modifies this
      ensures KDone(old(a), old(LinksCounted()), old(countS), old(countL), ci)
      ensures KMetLink(old(a), a, ci, ni, cfg)
      ensures At(a, ni) == Catalyst
      ensures CanPush(old(a), ni) ==> At(a, ci) == Hole
      ensures !CanPush(old(a), ni) ==> At(a, ci).Link?
    {
      var moved := KPush(ci, ni);
      if moved {
        return;
      }
      KSwap(ci, ni);
    }

    /** The swap of rule 3.3.4 alone: the free Link goes to ci, the Catalyst to ni. */
    method KExchange(ci: Vector, ni: Vector)
      requires Wellformed() && InGrid(ci) && At(a, ci).Catalyst? && InGrid(ni) && At(a, ni) == Link([])
      modifies this
      ensures a == Swap(old(a), ci, ni)
      ensures KDone(old(a), old(LinksCounted()), old(countS), old(countL), ci) && countJ == old(countJ)
      ensures At(a, ni) == Catalyst && At(a, ci) == Link([])
    {
      var swap := At(a, ni);
      SetCell(ni, At(a, ci));
      SetCell(ci, swap);
      SwapCells(old(a), ci, ni);
      SwapKeeps(old(a), ci, ni);
      SameCountsK(old(a), a);
      BondedFixedKeepsOK(old(a), a, cfg.orthogonalBonding);
      FixedStay(old(a), a);
    }

    /** Rule 3.3.4: the Catalyst at ci and the free Link at ni swap places; ca.py then bonds the Link. */
    method KSwap(ci: Vector, ni: Vector)
      requires Wellformed() && InGrid(ci) && At(a, ci).Catalyst? && InGrid(ni) && At(a, ni) == Link([])
      modifies this
      ensures KDone(old(a), old(LinksCounted()), old(countS), old(countL), ci)
      ensures Shaped(a) && var w := Swap(old(a), ci, ni);
              if cfg.bondAfterCatalystMove then BondingRan(w, a, ci, cfg) else a == w
      ensures At(a, ni) == Catalyst && At(a, ci).Link?
    {
      KExchange(ci, ni);
      if cfg.bondAfterCatalystMove {
        ghost var g1 := a;
        var _ := Bonding(ci);
        AddedStay(g1, a);
        BondedStayTransitive(old(a), g1, a);
      }
    }

    /**
     * Rule 3, `motionK()`: every Catalyst of the grid as it was when the
     * phase began, in row-major order, tries to move in a direction chosen
     * in 1..4. Catalysts, Links and bonds are kept; a Substrate may be lost
     * to a hole, so countS can fall out of step (countL and countJ do not).
     */
    method MotionK() returns (ghost gs: seq<Grid>, ghost ts: seq<Turn>)
      requires Wellformed()
      modifies this
      ensures Wellformed() && (old(LinksCounted()) ==> LinksCounted())
      ensures Sweep(old(a), a, CatalystRule, Where(old(a), CatalystK), cfg, gs, ts)
      ensures KCounts(old(a), a) && BondedStay(old(a), a)
      ensures countS == old(countS) && countL == old(countL)
    {
      ghost var g0, lc0, s0, l0 := a, LinksCounted(), countS, countL;
      var c := Where(a, CatalystK);
      WhereDistinct(a, CatalystK);
      FixedStay(a, a);
      SweepStart(a, CatalystRule, c, cfg);
      gs, ts := [a], [];
      var i := 0;
      while i < |c|
        invariant KMoving(g0, lc0, s0, l0, c, i)
        invariant Sweep(g0, a, CatalystRule, c[..i], cfg, gs, ts)
      {
        gs, ts := KNext(g0, lc0, s0, l0, c, i, gs, ts);
        i := i + 1;
      }
      assert c[..i] == c;
    }

    /** The state of `motionK()` after the first i Catalysts of c have had their turn. */
    ghost predicate KMoving(g0: Grid, lc0: bool, s0: int, l0: int, c: seq<Vector>, i: int)
      reads this
    {
      Shaped(g0) && Wellformed() && 0 <= i <= |c| && Distinct(c) && (lc0 ==> LinksCounted())
      && KCounts(g0, a) && BondedStay(g0, a) && countS == s0 && countL == l0
      && forall j :: i <= j < |c| ==> InGrid(c[j]) && At(a, c[j]).Catalyst?
    }

    /** One turn of the `motionK` loop: the Catalyst c[i] tries a direction chosen in 1..4. */
    method KNext(ghost g0: Grid, ghost lc0: bool, ghost s0: int, ghost l0: int, c: seq<Vector>, i: int,
                 ghost gs: seq<Grid>, ghost ts: seq<Turn>) returns (ghost gs': seq<Grid>, ghost ts': seq<Turn>)
      requires KMoving(g0, lc0, s0, l0, c, i) && i < |c|
      requires Sweep(g0, a, CatalystRule, c[..i], cfg, gs, ts)
      modifies this
      ensures KMoving(g0, lc0, s0, l0, c, i + 1)
      ensures Sweep(g0, a, CatalystRule, c[..i + 1], cfg, gs', ts')
    {
      var d :| 1 <= d < ORTHOGONAL;
      ghost var g1 := a;
      MoveCatalyst(c[i], d);
      KCountsTransitive(g0, g1, a);
      BondedStayTransitive(g0, g1, a);
      assert forall j :: i < j < |c| ==> c[j] != c[i];
      SweepStep(g0, CatalystRule, c, cfg, gs, ts, g1, a, CatalystTurn(c[i], d), i);
      gs', ts' := gs + [a], ts + [CatalystTurn(c[i], d)];
    }

    /**
     * Rules 4.1 and 4.2 for the Catalyst at ci: if some Substrate of its
     * production neighbourhood has another one orthogonally next to it, one
     * such Substrate pi becomes a free Link and one Substrate of the list
     * orthogonally adjacent to pi becomes a hole; countS falls by 2 and
     * countL rises by 1. Otherwise nothing changes.
     */
    method ProduceAt(ci: Vector) returns (produced: bool, pi: Vector, ghost q: Vector)
      requires Wellformed() && InGrid(ci)
      modifies this
      ensures Shaped(a) && Turned(old(a), a, ProduceTurn(ci, pi, q), cfg)
      ensures Yield(old(a), ProduceTurn(ci, pi, q), cfg) == if produced then [pi] else []
      ensures produced <==> Fertile(old(a), ci, cfg.productionHood) != []
      ensures !produced ==> a == old(a) && countS == old(countS) && countL == old(countL)
      ensures produced ==>
        pi in Fertile(old(a), ci, cfg.productionHood) && q in Fertile(old(a), ci, cfg.productionHood)
        && OrthogonallyAdjacent(pi, q) && a == Produce(old(a), pi, q)
        && countS == old(countS) - 2 && countL == old(countL) + 1
      ensures produced ==> ProducedOne(old(a), a, pi)
      ensures !produced ==> ProducedNone(old(a), a)
      ensures countJ == old(countJ)
      ensures Wellformed() && (old(Valid()) ==> Valid())
    {
      var n := Fertile(a, ci, cfg.productionHood);
      produced := |n| > 0;
      pi, q := ci, ci;
      if produced {
        pi, q := ProduceHere(ci);
      }
    }

    /** Rules 4.1 and 4.2 for a Catalyst ci with a fertile neighbourhood: one Link and one hole. */
    method ProduceHere(ci: Vector) returns (pi: Vector, ghost q: Vector)
      requires Wellformed() && Fertile(a, ci, cfg.productionHood) != []
      modifies this
      ensures pi in Fertile(old(a), ci, cfg.productionHood) && q in Fertile(old(a), ci, cfg.productionHood)
      ensures OrthogonallyAdjacent(pi, q) && a == Produce(old(a), pi, q)
      ensures countS == old(countS) - 2 && countL == old(countL) + 1 && countJ == old(countJ)
      ensures ProducedOne(old(a), a, pi)
      ensures Wellformed() && (old(Valid()) ==> Valid())
    {
      var g, p := a, ci;
      pi, p := ChooseProduction(g, ci, cfg.productionHood);
      a := Produce(g, pi, p);
      ProduceKeeps(g, ci, cfg.productionHood, pi, p, cfg.orthogonalBonding);
      countS := countS - 2;
      countL := countL + 1;
      q := p;
    }

    /**
     * The state after rules 4.1 and 4.2 have run for the Catalysts c[..i]
     * of the grid g0 (with counters s0, l0, j0), in the turns ts through
     * the grids gs, producing the Links l.
     */
    ghost predicate Producing(g0: Grid, s0: int, l0: int, j0: int, c: seq<Vector>, i: nat, l: seq<Vector>,
                              gs: seq<Grid>, ts: seq<Turn>)
      reads this
    {
      Shaped(g0) && i <= |c| && Wellformed() && |l| <= i && FreshLinks(a, l)
      && (forall q :: q in c ==> InGrid(q))
      && Sweep(g0, a, ProduceRule, c[..i], cfg, gs, ts) && l == Outputs(gs, ts, cfg)
      && Shifted(s0, l0, countS, countL, |l|) && countJ == j0 && ProducedMany(g0, a, |l|)
      && (|l| == 0 ==> a == g0 && Barren(g0, c[..i], cfg.productionHood))
      && (|l| > 0 ==> !Barren(g0, c[..i], cfg.productionHood))
    }

    /** One iteration of the production loop: rules 4.1 and 4.2 for the Catalyst c[i]. */
    method ProduceNext(ghost g0: Grid, ghost s0: int, ghost l0: int, ghost j0: int, c: seq<Vector>, i: nat, l: seq<Vector>,
                       ghost gs: seq<Grid>, ghost ts: seq<Turn>)
      returns (l': seq<Vector>, ghost gs': seq<Grid>, ghost ts': seq<Turn>)
      requires i < |c| && Producing(g0, s0, l0, j0, c, i, l, gs, ts)
      modifies this
      ensures Producing(g0, s0, l0, j0, c, i + 1, l', gs', ts')
    {
      ghost var g1 := a;
      assert c[i] in c;
      var made, pi, q := ProduceAt(c[i]);
      BarrenStep(g0, c, i, cfg.productionHood);
      SweepStep(g0, ProduceRule, c, cfg, gs, ts, g1, a, ProduceTurn(c[i], pi, q), i);
      gs', ts' := gs + [a], ts + [ProduceTurn(c[i], pi, q)];
      l' := l;
      if made {
        ProducedManyStep(g0, g1, a, |l|, pi);
        FreshLinksStep(g1, a, l, pi);
        l' := l + [pi];
      } else {
        ProducedManyStay(g0, g1, a, |l|);
      }
    }

    /**
     * Rules 4.1 and 4.2 for every Catalyst of the grid as the phase began,
     * in row-major order; l lists the Links produced.
     */
    method ProduceAll() returns (l: seq<Vector>, ghost gs: seq<Grid>, ghost ts: seq<Turn>)
      requires Wellformed()
      modifies this
      ensures Wellformed() && (old(Valid()) ==> Valid())
      ensures Sweep(old(a), a, ProduceRule, Where(old(a), CatalystK), cfg, gs, ts) && l == Outputs(gs, ts, cfg)
      ensures FreshLinks(a, l)
      ensures Shifted(old(countS), old(countL), countS, countL, |l|) && countJ == old(countJ)
      ensures ProducedMany(old(a), a, |l|)
      ensures |l| <= Count(old(a), Cells(CatalystK))
      ensures |l| == 0 <==> Barren(old(a), Where(old(a), CatalystK), cfg.productionHood)
      ensures |l| == 0 ==> a == old(a)
      ensures old(LinksCounted()) ==> LinksCounted()
    {
      ghost var g0, s0, l0, j0 := a, countS, countL, countJ;
      var c := Where(a, CatalystK);
      WhereCount(a, CatalystK);
      l, gs, ts := ProduceEach(g0, s0, l0, j0, c);
      ProducedAll(g0, s0, l0, j0, c, l, gs, ts);
    }

    /** What the production loop leaves once every Catalyst of g0 has had its turn. */
    lemma ProducedAll(g0: Grid, s0: int, l0: int, j0: int, c: seq<Vector>, l: seq<Vector>, gs: seq<Grid>, ts: seq<Turn>)
      requires Producing(g0, s0, l0, j0, c, |c|, l, gs, ts) && |c| == Count(g0, Cells(CatalystK))
      ensures Sweep(g0, a, ProduceRule, c, cfg, gs, ts)
      ensures |l| <= Count(g0, Cells(CatalystK))
      ensures |l| == 0 <==> Barren(g0, c, cfg.productionHood)
      ensures |l| == 0 ==> a == g0
      ensures Valid() <== s0 == Count(g0, Cells(SubstrateK)) && l0 == Count(g0, Cells(LinkK)) && 2 * j0 == Count(g0, BondEnds)
      ensures LinksCounted() <== l0 == Count(g0, Cells(LinkK)) && 2 * j0 == Count(g0, BondEnds)
    {
      assert c[..|c|] == c;
    }

    /** The loop of `production()` over the Catalysts c of g0. */
    method ProduceEach(ghost g0: Grid, ghost s0: int, ghost l0: int, ghost j0: int, c: seq<Vector>)
      returns (l: seq<Vector>, ghost gs: seq<Grid>, ghost ts: seq<Turn>)
      requires Wellformed() && a == g0 && s0 == countS && l0 == countL && j0 == countJ
      requires forall q :: q in c ==> InGrid(q)
      modifies this
      ensures Producing(g0, s0, l0, j0, c, |c|, l, gs, ts)
    {
      l := [];
      ProducedManyNone(a);
      SweepStart(a, ProduceRule, c, cfg);
      gs, ts := [a], [];
      var i := 0;
      while i < |c|
        invariant Producing(g0, s0, l0, j0, c, i, l, gs, ts)
      {
        l, gs, ts := ProduceNext(g0, s0, l0, j0, c, i, l, gs, ts);
        i := i + 1;
      }
    }

    /**
     * Rule 4.3: bond each produced Link, after the source's assertion that
     * it is still a free Link; the first one always is. The turns ts cover
     * the Links whose assertion held; when one fails, it is the next.
     */
    method BondProduced(l: seq<Vector>) returns (st: Status, ghost gs: seq<Grid>, ghost ts: seq<Turn>)
      requires Wellformed() && FreshLinks(a, l)
      modifies this
      ensures Wellformed() && (old(Valid()) ==> Valid())
      ensures |ts| <= |l| && Sweep(old(a), a, BondRule, l[..|ts|], cfg, gs, ts)
      ensures forall j :: 0 <= j < |ts| ==> FreeLinkAt(gs[j], l[j])
      ensures st == Done <==> |ts| == |l|
      ensures st == AssertionFailed ==> !FreeLinkAt(a, l[|ts|])
      ensures SameKindCounts(old(a), a)
      ensures countS == old(countS) && countL == old(countL)
      ensures l == [] ==> a == old(a) && countJ == old(countJ)
      ensures st == AssertionFailed ==> |l| >= 2
      ensures old(LinksCounted()) ==> LinksCounted()
    {
      ghost var g0, v0, lc0, j0 := a, Valid(), LinksCounted(), countJ;
      st := Done;
      SweepStart(a, BondRule, l, cfg);
      gs, ts := [a], [];
      var k := 0;
      while k < |l|
        invariant ProducedBonding(g0, v0, lc0, j0, l, k, gs, ts)
        invariant countS == old(countS) && countL == old(countL)
      {
        var li := l[k];
        if !(At(a, li).Link? && |At(a, li).bonds| == 0) {
          st := AssertionFailed;
          return;
        }
        gs, ts := BondProducedNext(g0, v0, lc0, j0, l, k, gs, ts);
        k := k + 1;
      }
      assert l[..k] == l;
    }

    /** The state of rule 4.3 after the first k produced Links of l, from the grid g0. */
    ghost predicate ProducedBonding(g0: Grid, v0: bool, lc0: bool, j0: int, l: seq<Vector>, k: int,
                                    gs: seq<Grid>, ts: seq<Turn>)
      reads this
    {
      Shaped(g0) && 0 <= k <= |l| && |ts| == k
      && Wellformed() && (v0 ==> Valid()) && (lc0 ==> LinksCounted())
      && (forall q :: q in l ==> InGrid(q))
      && Sweep(g0, a, BondRule, l[..k], cfg, gs, ts)
      && (forall j :: 0 <= j < k ==> FreeLinkAt(gs[j], l[j]))
      && (k == 0 ==> a == g0 && countJ == j0)
      && SameKindCounts(g0, a)
    }

    /** One turn of rule 4.3 once its assertion has held: bond the free Link l[k]. */
    method BondProducedNext(ghost g0: Grid, ghost v0: bool, ghost lc0: bool, ghost j0: int, l: seq<Vector>, k: int,
                            ghost gs: seq<Grid>, ghost ts: seq<Turn>)
      returns (ghost gs': seq<Grid>, ghost ts': seq<Turn>)
      requires ProducedBonding(g0, v0, lc0, j0, l, k, gs, ts) && k < |l| && FreeLinkAt(a, l[k])
      modifies this
      ensures ProducedBonding(g0, v0, lc0, j0, l, k + 1, gs', ts')
      ensures countS == old(countS) && countL == old(countL)
    {
      ghost var g1 := a;
      var _ := Bonding(l[k]);
      SweepStep(g0, BondRule, l, cfg, gs, ts, g1, a, BondTurn(l[k]), k);
      gs', ts' := gs + [a], ts + [BondTurn(l[k])];
      assert forall j :: 0 <= j < k ==> gs'[j] == gs[j];
    }

    /**
     * Rule 4, `production()`: every Catalyst produces at most one Link,
     * turning two Substrates into a Link and a hole, then each produced Link
     * is bonded. With two or more Catalysts, bonding one produced Link can
     * already have bonded the next, and the source's assertion fails.
     */
    method Production() returns (st: Status, ghost produced: nat,
                                 ghost gs1: seq<Grid>, ghost ts1: seq<Turn>, ghost gs2: seq<Grid>, ghost ts2: seq<Turn>)
      requires Wellformed()
      modifies this
      ensures Wellformed() && (old(Valid()) ==> Valid()) && (old(LinksCounted()) ==> LinksCounted())
      ensures ProductionRan(old(a), a, cfg, st == Done, gs1, ts1, gs2, ts2)
      ensures produced == |Outputs(gs1, ts1, cfg)|
      ensures countS == old(countS) - 2 * produced && countL == old(countL) + produced
      ensures Count(a, Cells(SubstrateK)) + 2 * produced == Count(old(a), Cells(SubstrateK))
      ensures Count(a, Cells(LinkK)) == Count(old(a), Cells(LinkK)) + produced
      ensures Count(a, Cells(HoleK)) == Count(old(a), Cells(HoleK)) + produced
      ensures Count(a, Cells(CatalystK)) == Count(old(a), Cells(CatalystK))
      ensures produced <= Count(old(a), Cells(CatalystK))
      ensures produced == 0 <==>
        forall c :: c in Where(old(a), CatalystK) ==> Fertile(old(a), c, cfg.productionHood) == []
      ensures produced == 0 ==> a == old(a) && countJ == old(countJ) && st == Done
      ensures st == AssertionFailed ==> Count(old(a), Cells(CatalystK)) >= 2
    {
      var l;
      l, gs1, ts1 := ProduceAll();
      produced := |l|;
      BarrenIff(old(a), Where(old(a), CatalystK), cfg.productionHood);
      st, gs2, ts2 := BondProduced(l);
    }

    /**
     * The state of `breakBonds`' inner loop for the Link ni after k steps,
     * from grid g0 and countJ j0: until the bond towards c is found nothing
     * has changed; once found (done) that bond pair has been undone.
     */
    ghost predicate Unbonding(g0: Grid, j0: int, ni: Vector, c: Vector, k: int, done: bool)
      reads this
    {
      Shaped(g0) && InGrid(ni) && InGrid(c) && ni != c
      && Wellformed() && At(a, ni).Link? && At(a, c).Link? && 0 <= k && |At(a, ni).bonds| <= 2
      && (forall b :: b in At(a, ni).bonds ==> 0 <= b < |N|)
      && (!done ==> a == g0 && countJ == j0 && k <= |At(a, ni).bonds|
                    && forall j :: 0 <= j < k ==>
                         0 <= At(a, ni).bonds[j] < |N| && ni.Add(N[At(a, ni).bonds[j]]) != c)
      && (done ==> At(g0, ni).Link? && At(g0, c).Link? && Bonded(g0, ni, c) && Bonded(g0, c, ni)
                   && a == WithoutBond(g0, ni, c) && countJ == j0 - 1 && !Bonded(a, ni, c))
    }

    /** One step of `for b in self.cell(ni).bonds`: unbond if b points at c. */
    method UnbondVisit(ghost g0: Grid, ghost j0: int, ni: Vector, c: Vector, k: int, ghost done: bool)
      returns (ghost done': bool)
      requires Unbonding(g0, j0, ni, c, k, done) && k < |At(a, ni).bonds|
      modifies this
      ensures Unbonding(g0, j0, ni, c, k + 1, done')
      ensures countS == old(countS) && countL == old(countL)
    {
      done' := done;
      var b := At(a, ni).bonds[k];
      assert b in At(a, ni).bonds;
      if ni.Add(N[b]) == c {
        UnbondFound(a, ni, c, b, cfg.orthogonalBonding);
        assert !done;
        UnbondHit(g0, j0, ni, c, k);
        done' := true;
      }
    }

    /** The bond at position k of ni points at c: `pairUnbond(ni, c)`. */
    method UnbondHit(ghost g0: Grid, ghost j0: int, ni: Vector, c: Vector, k: int)
      requires Unbonding(g0, j0, ni, c, k, false) && k < |At(a, ni).bonds|
      requires Bonded(a, ni, c) && Bonded(a, c, ni) && !Bonded(WithoutBond(a, ni, c), ni, c)
      modifies this
      ensures Unbonding(g0, j0, ni, c, k + 1, true)
      ensures countS == old(countS) && countL == old(countL)
    {
      PairUnbond(ni, c);
      BondTargets(a, ni, cfg.orthogonalBonding);
      assert LinkOK(a, ni, cfg.orthogonalBonding);
    }

    /**
     * The inner loop of `breakBonds(c)` for the Link ni: Python's iterator
     * runs over ni's bond list while pairUnbond shrinks it. The directions
     * are distinct, so at most the one bond towards c is undone.
     */
    method UnbondFrom(ni: Vector, c: Vector)
      requires Wellformed() && InGrid(ni) && InGrid(c) && ni != c && At(a, ni).Link? && At(a, c).Link?
      modifies this
      ensures Bonded(old(a), ni, c) ==>
        Bonded(old(a), c, ni) && a == WithoutBond(old(a), ni, c) && countJ == old(countJ) - 1
      ensures !Bonded(old(a), ni, c) ==> a == old(a) && countJ == old(countJ)
      ensures countS == old(countS) && countL == old(countL)
      ensures Wellformed() && SameKindCounts(old(a), a)
      ensures old(LinksCounted()) ==> LinksCounted()
    {
      ghost var g0, j0 := a, countJ;
      ghost var done := false;
      BondTargets(a, ni, cfg.orthogonalBonding);
      assert LinkOK(a, ni, cfg.orthogonalBonding);
      var k := 0;
      while k < |At(a, ni).bonds|
        invariant Unbonding(g0, j0, ni, c, k, done)
        invariant countS == old(countS) && countL == old(countL)
        decreases 2 - k
      {
        done := UnbondVisit(g0, j0, ni, c, k, done);
        k := k + 1;
      }
      if done {
        WithoutBondCounts(g0, ni, c);
      } else {
        UnbondAbsent(a, ni, c);
      }
    }

    /**
     * `breakBonds(c)` for the Link c: every Link of its Moore neighbourhood
     * bonded to c drops that bond, and so does c. Afterwards c is a free
     * Link and countJ has fallen by the number of bonds c held.
     */
    method BreakBonds(c: Vector)
      requires Wellformed() && InGrid(c) && At(a, c).Link?
      modifies this
      ensures Wellformed() && SameKindCounts(old(a), a)
      ensures At(a, c) == Link([])
      ensures forall q :: InGrid(q) && q != c ==> At(a, q) == Unbonded(old(a), c, q)
      ensures countJ == old(countJ) - |At(old(a), c).bonds|
      ensures countS == old(countS) && countL == old(countL)
      ensures old(LinksCounted()) ==> LinksCounted()
    {
      ghost var g0, j0, lc0 := a, countJ, LinksCounted();
      var n := Around(a, c, MOORE, LinkK);
      AroundLinks(a, c);
      BreakingStart(a, c, cfg.orthogonalBonding);
      var i := 0;
      while i < |n|
        invariant Sweeping(g0, j0, lc0, c, n, i)
        invariant countS == old(countS) && countL == old(countL)
      {
        BreakNext(g0, j0, lc0, c, n, i);
        i := i + 1;
      }
      assert n[..i] == n;
      BreakingDone(g0, a, c, cfg.orthogonalBonding);
    }

    /** The state of `breakBonds(c)` once the first i neighbours in n are done. */
    ghost predicate Sweeping(g0: Grid, j0: int, lc0: bool, c: Vector, n: seq<Vector>, i: int)
      reads this
    {
      Shaped(g0) && InGrid(c) && Wellformed() && 0 <= i <= |n| && Distinct(n)
      && (forall q :: q in n ==> InGrid(q) && q != c && At(g0, q).Link?)
      && At(g0, c).Link? && At(a, c).Link?
      && Breaking(g0, a, c, n[..i]) && SameKindCounts(g0, a) && (lc0 ==> LinksCounted())
      && countJ == j0 - (|At(g0, c).bonds| - |At(a, c).bonds|)
    }

    /** One turn of the `breakBonds` loop: the neighbour n[i] drops its bond to c. */
    method BreakNext(ghost g0: Grid, ghost j0: int, ghost lc0: bool, c: Vector, n: seq<Vector>, i: int)
      requires Sweeping(g0, j0, lc0, c, n, i) && i < |n|
      modifies this
      ensures Sweeping(g0, j0, lc0, c, n, i + 1)
      ensures countS == old(countS) && countL == old(countL)
    {
      var ni := n[i];
      assert ni in n;
      assert ni !in n[..i];
      ghost var g := a;
      UnbondFrom(ni, c);
      BreakingStep(g0, g, a, c, n[..i], ni, cfg.orthogonalBonding);
      assert n[..i + 1] == n[..i] + [ni];
    }

    /**
     * The state while rebond forms the bonds of the pairs s, the first i of
     * them done, from grid g0 and bond counter j0.
     */
    ghost predicate Joining(g0: Grid, j0: int, c: Vector, s: seq<Pair>, i: int)
      reads this
    {
      Shaped(g0) && Wellformed() && 0 <= i <= |s| && NearPairs(g0, c, s)
      && BondedAround(g0, a, c, i) && countJ == j0 + i
      && JoinedSoFar(g0, a, s, i)
    }

    /** One `pairBond` of rebond, or the `Link.bond` assertion it would fail. */
    method JoinNext(ghost g0: Grid, ghost j0: int, c: Vector, s: seq<Pair>, i: int)
      returns (ok: bool)
      requires Joining(g0, j0, c, s, i) && i < |s|
      modifies this
      ensures ok <==> CanBond(old(a), s[i].0, s[i].1)
      ensures ok ==> a == WithBond(old(a), s[i].0, s[i].1) && Joining(g0, j0, c, s, i + 1)
      ensures !ok ==> a == old(a) && countJ == old(countJ) && Ended(JoinPairs(g0, s), false, a, i)
      ensures countS == old(countS) && countL == old(countL)
    {
      var x, y := s[i].0, s[i].1;
      if !CanBond(a, x, y) {
        JoinedStops(g0, a, s, i);
        return false;
      }
      assert s[i] in s;
      ghost var g := a;
      PairBond(x, y);
      JoinedMore(g0, g, a, c, s, i);
      ok := true;
    }

    /** Steps 7.3 and 7.5 without the removal: bond the pairs s in order. */
    method JoinAll(c: Vector, s: seq<Pair>) returns (st: Status, ghost formed: nat)
      requires Wellformed() && NearPairs(a, c, s)
      modifies this
      ensures Joining(old(a), old(countJ), c, s, formed)
      ensures Ended(JoinPairs(old(a), s), st == Done, a, formed)
      ensures st == AssertionFailed ==> formed < |s| && !CanBond(a, s[formed].0, s[formed].1)
      ensures countS == old(countS) && countL == old(countL)
    {
      ghost var g0, j0 := a, countJ;
      JoinedEnds(g0, g0, s);
      var i := 0;
      while i < |s|
        invariant Joining(g0, j0, c, s, i)
        invariant countS == old(countS) && countL == old(countL)
      {
        var ok := JoinNext(g0, j0, c, s, i);
        if !ok {
          return AssertionFailed, i;
        }
        i := i + 1;
      }
      JoinedEnds(g0, a, s);
      return Done, i;
    }

    /**
     * The state of step 7.3 after i pairs: Joining, and cur is what
     * Remaining says of the singly bonded neighbours m after the removals.
     */
    ghost predicate Pairing(g0: Grid, j0: int, c: Vector, m: seq<Vector>, s: seq<Pair>, i: int, cur: seq<Vector>)
      reads this
    {
      Joining(g0, j0, c, s, i) && (forall pr :: pr in s ==> pr.0 in m && pr.1 in m) && Remaining(g0, a, m, cur)
      && Unpaired(m, s) == Unpaired(cur, s[i..])
    }

    /**
     * One turn of step 7.3: `pairBond`, then `m.remove` of both cells, which
     * always finds them.
     */
    method PairNext(ghost g0: Grid, ghost j0: int, c: Vector, m: seq<Vector>, s: seq<Pair>, i: int, cur: seq<Vector>)
      returns (ok: bool, cur': seq<Vector>)
      requires Pairing(g0, j0, c, m, s, i, cur) && i < |s|
      modifies this
      ensures ok <==> CanBond(old(a), s[i].0, s[i].1)
      ensures ok ==> s[i].0 in cur && s[i].1 in RemoveFirst(cur, s[i].0)
                     && cur' == RemoveFirst(RemoveFirst(cur, s[i].0), s[i].1)
                     && Pairing(g0, j0, c, m, s, i + 1, cur')
      ensures !ok ==> a == old(a) && countJ == old(countJ) && cur' == cur && Ended(JoinPairs(g0, s), false, a, i)
      ensures countS == old(countS) && countL == old(countL)
    {
      var x, y := s[i].0, s[i].1;
      assert s[i] in s;
      ghost var g := a;
      ok := JoinNext(g0, j0, c, s, i);
      if !ok {
        return false, cur;
      }
      RemainingStep(g0, g, m, cur, x, y);
      UnpairedStep(cur, s, i);
      cur' := RemoveFirst(RemoveFirst(cur, x), y);
    }

    /** Step 7.3 for the selection s from the singly bonded neighbours m of c. */
    method FirstPass(c: Vector, m: seq<Vector>, s: seq<Pair>) returns (st: Status, cur: seq<Vector>, ghost formed: nat)
      requires Wellformed() && RebondInput(a, c, m, s)
      modifies this
      ensures Wellformed() && BondedAround(old(a), a, c, formed)
      ensures countJ == old(countJ) + formed && countS == old(countS) && countL == old(countL)
      ensures forall q :: q in cur ==> q in m && At(a, q) == At(old(a), q)
      ensures forall q :: q in cur ==> InGrid(q) && At(a, q).Link? && |At(a, q).bonds| == 1 && q.Subtract(c) in MOORE
      ensures Ended(JoinPairs(old(a), s), st == Done, a, formed)
      ensures st == Done ==> cur == Unpaired(m, s)
      ensures st == AssertionFailed ==> formed < |s| && !CanBond(a, s[formed].0, s[formed].1)
    {
      ghost var g0, j0 := a, countJ;
      cur := m;
      JoinedEnds(g0, g0, s);
      assert s[0..] == s;
      var i := 0;
      while i < |s|
        invariant Pairing(g0, j0, c, m, s, i, cur)
        invariant countS == old(countS) && countL == old(countL)
      {
        var ok;
        ok, cur := PairNext(g0, j0, c, m, s, i, cur);
        if !ok {
          return AssertionFailed, cur, i;
        }
        i := i + 1;
      }
      JoinedEnds(g0, a, s);
      assert s[i..] == [];
      return Done, cur, i;
    }

    /**
     * Rule 7, `rebond(c)`: bond the selected pairs of singly bonded
     * neighbours of c, drop them from the list, add the free neighbours and
     * bond a selection once more. Only c's Moore neighbourhood changes, and
     * only by added bonds; formed is the number of bonds made.
     */
    method Rebond(c: Vector) returns (st: Status, ghost formed: nat)
      requires Wellformed() && InGrid(c)
      modifies this
      ensures Wellformed() && BondedAround(old(a), a, c, formed)
      ensures countJ == old(countJ) + formed && countS == old(countS) && countL == old(countL)
      ensures st == Done ==> formed >= |FirstSelection(old(a), c)|
      ensures Rebonded(old(a), c).0 == (st == Done) && Rebonded(old(a), c).1 == a
      ensures AddedNear(old(a), a, c)
      ensures Overlapping(FirstSelection(old(a), c)) ==> st == AssertionFailed
      ensures st == AssertionFailed ==> Overlapping(FirstSelection(old(a), c)) || Overlapping(SecondSelection(old(a), c))
    {
      st, formed := RebondPasses(c);
      RebondFails(old(a), c, cfg.orthogonalBonding);
      RebondedNear(old(a), c);
    }

    /** The two passes of `rebond(c)`, as Rebonded describes them. */
    method RebondPasses(c: Vector) returns (st: Status, ghost formed: nat)
      requires Wellformed() && InGrid(c)
      modifies this
      ensures Wellformed() && BondedAround(old(a), a, c, formed)
      ensures countJ == old(countJ) + formed && countS == old(countS) && countL == old(countL)
      ensures st == Done ==> formed >= |FirstSelection(old(a), c)|
      ensures Rebonded(old(a), c).0 == (st == Done) && Rebonded(old(a), c).1 == a
    {
      var m := Around(a, c, MOORE, SingleK);
      var s := SelectAsWritten(CandidatePairs(a, m));
      RebondInputHolds(a, c);
      ghost var g0 := a;
      st, m, formed := FirstPass(c, m, s);
      if st == Done {
        assert a == FirstPassGrid(g0, c) && m + Around(a, c, MOORE, FreeK) == SecondList(g0, c);
        st, formed := SecondPass(g0, formed, c, m);
      }
    }

    /**
     * Steps 7.4 and 7.5: the Links m left from the first pass, then the free
     * neighbours of c, and the bonds of a second selection. The first pass
     * made f0 bonds since g0; formed counts the bonds of both passes.
     */
    method SecondPass(ghost g0: Grid, ghost f0: nat, c: Vector, m: seq<Vector>) returns (st: Status, ghost formed: nat)
      requires Wellformed() && Shaped(g0) && BondedAround(g0, a, c, f0)
      requires forall q :: q in m ==> InGrid(q) && At(a, q).Link? && q.Subtract(c) in MOORE
      modifies this
      ensures Wellformed() && BondedAround(g0, a, c, formed) && formed >= f0
      ensures countJ == old(countJ) + formed - f0 && countS == old(countS) && countL == old(countL)
      ensures Ended(JoinPairs(old(a), SelectAsWritten(CandidatePairs(old(a), m + Around(old(a), c, MOORE, FreeK)))),
                    st == Done, a, formed - f0)
    {
      var m2 := m + Around(a, c, MOORE, FreeK);
      SelectedNear(a, c, m2);
      var s2 := SelectAsWritten(CandidatePairs(a, m2));
      ghost var g1 := a;
      ghost var f2;
      st, f2 := JoinAll(c, s2);
      BondedAroundTransitive(g0, g1, a, c, f0, f2);
      formed := f0 + f2;
    }

    /**
     * The first half of rule 5.1.1: `breakBonds(li)` and `setCell(li,
     * Substrate())`. The counters are not yet adjusted.
     */
    method Unlink(li: Vector)
      requires Wellformed() && InGrid(li) && At(a, li).Link?
      modifies this
      ensures GridOK(a, cfg.orthogonalBonding) && Unlinked(old(a), a, li) && a == Unlinking(old(a), li)
      ensures countS == old(countS) && countL == old(countL)
      ensures countJ == old(countJ) - |At(old(a), li).bonds|
      ensures old(LinksCounted()) ==> 2 * countJ == Count(a, BondEnds)
    {
      BreakBonds(li);
      ghost var g1 := a;
      UnlinkFrame(old(a), g1, li, cfg.orthogonalBonding);
      SetCell(li, Substrate);
      SetUnbonded(g1, li, Substrate);
      BondedFixedKeepsOK(g1, a, cfg.orthogonalBonding);
      CountAfterSet(g1, li, Substrate);
      GridExt(a, Unlinking(old(a), li));
    }

    /** The second Substrate of rule 5.1.1: it fills the hole p that HolePreferred picks. */
    method FillHole(li: Vector) returns (p: Vector)
      requires GridOK(a, cfg.orthogonalBonding) && Count(a, Cells(HoleK)) > 0
      modifies this
      ensures HolePreferred(old(a), li, p) && a == Set(old(a), p, Substrate)
      ensures GridOK(a, cfg.orthogonalBonding)
      ensures Count(a, BondEnds) == Count(old(a), BondEnds)
      ensures countS == old(countS) + 1 && countL == old(countL) && countJ == old(countJ)
    {
      p := ChooseHole(a, li);
      SetCell(p, Substrate);
      SetUnbonded(old(a), p, Substrate);
      BondedFixedKeepsOK(old(a), a, cfg.orthogonalBonding);
      CountAfterSet(old(a), p, Substrate);
      countS := countS + 1;
    }

    /**
     * Rule 5.1.1 for the Link li: `breakBonds(li)`, li becomes a Substrate,
     * `rebond(li)`, and a second Substrate fills the hole p that
     * HolePreferred picks. The hole always exists, since there are at
     * least as many holes as Links.
     */
    method Disintegrate(li: Vector) returns (st: Status, p: Vector)
      requires Wellformed() && InGrid(li) && At(a, li).Link?
      modifies this
      ensures Wellformed()
      ensures st == Done ==> Disintegrated(old(a), a, li, p) && countS == old(countS) + 2 && countL == old(countL) - 1
      ensures Disintegrates(old(a), a, li, st == Done)
      ensures st == Done ==> RefilledAt(old(a), a, li, p)
      ensures st == AssertionFailed ==> countS == old(countS) && countL == old(countL)
      ensures old(LinksCounted()) && st == Done ==> LinksCounted()
      ensures old(Valid()) && st == Done ==> Valid()
    {
      ghost var g0 := a;
      st := UnlinkRebond(li);
      if st == AssertionFailed {
        DisintegratesEnds(g0, a, li, li);
        return st, li;
      }
      p := Refill(g0, li);
      DisintegratesEnds(g0, a, li, p);
    }

    /**
     * The end of rule 5.1.1 once `rebond(li)` succeeded on g0 unlinked at
     * li: the Link is gone and a second Substrate fills the hole p.
     */
    method Refill(ghost g0: Grid, li: Vector) returns (p: Vector)
      requires Wellformed() && Shaped(g0) && InGrid(li) && At(g0, li).Link?
      requires Count(g0, Cells(HoleK)) >= Count(g0, Cells(LinkK))
      requires Unlinked(g0, a, li) && Count(a, Cells(HoleK)) > Count(a, Cells(LinkK))
      modifies this
      ensures Wellformed() && Disintegrated(g0, a, li, p) && HolePreferred(old(a), li, p) && a == Set(old(a), p, Substrate)
      ensures countS == old(countS) + 2 && countL == old(countL) - 1 && countJ == old(countJ)
      ensures Count(a, BondEnds) == Count(old(a), BondEnds)
    {
      countL := countL - 1;
      countS := countS + 1;
      p := FillHole(li);
      FilledDisintegrated(g0, old(a), a, li, p);
    }

    /** `breakBonds(li)`, `setCell(li, Substrate())` and `rebond(li)` of rule 5.1.1. */
    method UnlinkRebond(li: Vector) returns (st: Status)
      requires Wellformed() && InGrid(li) && At(a, li).Link?
      modifies this
      ensures Wellformed()
      ensures Unlinked(old(a), a, li) && Count(a, Cells(HoleK)) > Count(a, Cells(LinkK))
      ensures countS == old(countS) && countL == old(countL)
      ensures Rebonded(Unlinking(old(a), li), li).0 == (st == Done) && Rebonded(Unlinking(old(a), li), li).1 == a
      ensures st == Done ==> (old(LinksCounted()) ==> 2 * countJ == Count(a, BondEnds))
    {
      ghost var g0 := a;
      Unlink(li);
      ghost var g1 := a;
      ghost var formed;
      st, formed := Rebond(li);
      RebondUnlinked(g0, g1, a, li, formed);
    }

    /**
     * The state of `disintegration()` after the first i Links of l, the Links
     * of g0: exactly the decayed ones among them are gone, every count
     * moved by the number k of them, and the counters with it.
     */
    ghost predicate Decaying(g0: Grid, s0: int, l0: int, lc0: bool, l: seq<Vector>, decays: set<Vector>, i: int)
      reads this
    {
      Wellformed() && DecayState(g0, s0, l0, lc0, l, decays, i, a, countS, countL, LinksCounted())
    }

    /** One Link of rule 5.1: disintegrate it if it drew a decay, else go on. */
    method DecayNext(ghost g0: Grid, ghost s0: int, ghost l0: int, ghost lc0: bool, l: seq<Vector>, decays: set<Vector>, i: int)
      returns (st: Status)
      requires Decaying(g0, s0, l0, lc0, l, decays, i) && i < |l|
      modifies this
      ensures Wellformed()
      ensures st == Done ==> Decaying(g0, s0, l0, lc0, l, decays, i + 1)
      ensures Shaped(old(a)) && DecayTurn(old(a), a, l[i], decays, st == Done)
    {
      DecayedStep(l, decays, i);
      assert l[i] in l;
      if l[i] !in decays {
        return Done;
      }
      st := DecayOne(g0, s0, l0, lc0, l, decays, i);
    }

    /** The i-th Link of rule 5.1 drew a decay: it disintegrates. */
    method DecayOne(ghost g0: Grid, ghost s0: int, ghost l0: int, ghost lc0: bool, l: seq<Vector>, decays: set<Vector>, i: int)
      returns (st: Status)
      requires Decaying(g0, s0, l0, lc0, l, decays, i) && i < |l| && l[i] in decays
      requires Decayed(l[..i + 1], decays) == Decayed(l[..i], decays) + [l[i]]
      modifies this
      ensures Wellformed()
      ensures st == Done ==> Decaying(g0, s0, l0, lc0, l, decays, i + 1)
      ensures Shaped(old(a)) && Disintegrates(old(a), a, l[i], st == Done)
    {
      ghost var g, cs, cl, lc := a, countS, countL, LinksCounted();
      var p;
      st, p := Disintegrate(l[i]);
      if st == Done {
        DecayStateStep(g0, s0, l0, lc0, l, decays, i, g, cs, cl, lc, a, LinksCounted(), p);
      }
    }

    /**
     * Rule 5, `disintegration()`: the Links of the grid in row-major order,
     * each disintegrating when it is in decays (its draw was at most Pd).
     */
    method Disintegration(decays: set<Vector>) returns (st: Status, ghost gone: seq<Vector>, ghost stop: nat)
      requires Wellformed()
      modifies this
      ensures Wellformed()
      ensures stop <= |Where(old(a), LinkK)| && (st == Done <==> stop == |Where(old(a), LinkK)|)
      ensures st == Done ==> DecaysRan(old(a), a, Where(old(a), LinkK), decays)
      ensures st == AssertionFailed ==> DecaysStopped(old(a), a, Where(old(a), LinkK), decays, stop)
      ensures st == Done ==> gone == Decayed(Where(old(a), LinkK), decays)
      ensures st == Done ==> forall q :: InGrid(q) && At(old(a), q).Link? ==> (At(a, q).Link? <==> q !in decays)
      ensures st == Done ==>
        Count(a, Cells(LinkK)) == Count(old(a), Cells(LinkK)) - |gone|
        && Count(a, Cells(HoleK)) == Count(old(a), Cells(HoleK)) - |gone|
        && Count(a, Cells(SubstrateK)) == Count(old(a), Cells(SubstrateK)) + 2 * |gone|
        && Count(a, Cells(CatalystK)) == Count(old(a), Cells(CatalystK))
        && countS == old(countS) + 2 * |gone| && countL == old(countL) - |gone|
      ensures st == Done && old(LinksCounted()) ==> LinksCounted()
      ensures st == Done && old(Valid()) ==> Valid()
    {
      ghost var g0, s0, l0, lc0 := a, countS, countL, LinksCounted();
      var l := Where(a, LinkK);
      st, stop := DecayLinks(g0, s0, l0, lc0, l, decays);
      gone := [];
      if st == Done {
        DecayStateDone(g0, s0, l0, lc0, l, decays, a, countS, countL, LinksCounted());
        gone := Decayed(l, decays);
      }
    }

    /** The loop of `disintegration()` over the Links l of g0, stopping at a failed assertion. */
    method DecayLinks(ghost g0: Grid, ghost s0: int, ghost l0: int, ghost lc0: bool, l: seq<Vector>, decays: set<Vector>)
      returns (st: Status, stop: nat)
      requires Decaying(g0, s0, l0, lc0, l, decays, 0) && a == g0
      modifies this
      ensures Wellformed() && Shaped(g0)
      ensures stop <= |l| && (st == Done <==> stop == |l|)
      ensures st == Done ==> Decaying(g0, s0, l0, lc0, l, decays, |l|) && DecaysRan(g0, a, l, decays)
      ensures st == AssertionFailed ==> DecaysStopped(g0, a, l, decays, stop)
    {
      var i := 0;
      assert l[..0] == [];
      while i < |l|
        invariant Decaying(g0, s0, l0, lc0, l, decays, i)
        invariant DecaysRan(g0, a, l[..i], decays)
      {
        ghost var g := a;
        st := DecayNext(g0, s0, l0, lc0, l, decays, i);
        if st == AssertionFailed {
          assert DecaysRan(g0, g, l[..i], decays) && DecayTurn(g, a, l[i], decays, false);
          return st, i;
        }
        DecaysRanStep(g0, g, a, l, decays, i);
        i := i + 1;
      }
      assert l[..i] == l;
      return Done, i;
    }

    /**
     * The three motion phases of `Step()`: motion, Link motion and, in the
     * program that has it, catalyst motion; h0 and h1 are the grids after
     * the first two. Catalysts and Links are kept, and Material only falls
     * by catalyst motion.
     */
    method Motions() returns (ghost h0: Grid, ghost h1: Grid)
      requires Wellformed()
      modifies this
      ensures Wellformed() && (old(LinksCounted()) ==> LinksCounted())
      ensures !cfg.catalystMotion && old(Valid()) ==> Valid()
      ensures Shaped(h0) && Shaped(h1)
      ensures MotionRan(old(a), h0, cfg) && MotionLRan(h0, h1, cfg)
      ensures if cfg.catalystMotion then MotionKRan(h1, a, cfg) else a == h1
      ensures Count(a, Cells(CatalystK)) == Count(old(a), Cells(CatalystK))
      ensures Count(a, Cells(LinkK)) == Count(old(a), Cells(LinkK))
      ensures Material(a) <= Material(old(a))
      ensures !cfg.catalystMotion ==> Material(a) == Material(old(a))
    {
      ghost var gm, tm := Motion();
      assert Sweep(old(a), a, HoleRule, Where(old(a), HoleK), cfg, gm, tm);
      h0 := a;
      ghost var ga1, ta1, ga2, ta2 := MotionL();
      assert SweptAndBonded(h0, a, LinkRule, Where(h0, FreeK), cfg, ga1, ta1, ga2, ta2);
      h1 := a;
      if cfg.catalystMotion {
        ghost var gk, tk := MotionK();
        assert Sweep(h1, a, CatalystRule, Where(h1, CatalystK), cfg, gk, tk);
      }
    }

    /** Production summed up: the phase it ran, the Links it made, and what it keeps. */
    method ProductionPhase() returns (st: Status, ghost produced: nat)
      requires Wellformed()
      modifies this
      ensures Wellformed() && (old(Valid()) ==> Valid()) && (old(LinksCounted()) ==> LinksCounted())
      ensures ProductionMade(old(a), a, cfg, st == Done, produced)
      ensures produced <= Count(old(a), Cells(CatalystK))
      ensures Count(a, Cells(CatalystK)) == Count(old(a), Cells(CatalystK))
      ensures Count(a, Cells(LinkK)) == Count(old(a), Cells(LinkK)) + produced
      ensures Material(a) == Material(old(a))
    {
      ghost var gp1, tp1, gp2, tp2;
      st, produced, gp1, tp1, gp2, tp2 := Production();
      assert ProductionRan(old(a), a, cfg, st == Done, gp1, tp1, gp2, tp2);
      MaterialTraded(old(a), a, produced);
    }

    /** Disintegration summed up: the phase it ran, the Links it removed, and what it keeps. */
    method DisintegrationPhase(decays: set<Vector>) returns (st: Status, ghost gone: seq<Vector>)
      requires Wellformed()
      modifies this
      ensures Wellformed()
      ensures DisintegrationRan(old(a), a, decays, st == Done)
      ensures st == Done ==> gone == Decayed(Where(old(a), LinkK), decays)
      ensures st == Done ==> Count(a, Cells(CatalystK)) == Count(old(a), Cells(CatalystK))
      ensures st == Done ==> Count(a, Cells(LinkK)) == Count(old(a), Cells(LinkK)) - |gone|
      ensures st == Done ==> Material(a) == Material(old(a))
      ensures st == Done && old(LinksCounted()) ==> LinksCounted()
      ensures st == Done && old(Valid()) ==> Valid()
    {
      ghost var stop;
      st, gone, stop := Disintegration(decays);
      if st == AssertionFailed {
        assert DecaysStopped(old(a), a, Where(old(a), LinkK), decays, stop);
      }
    }

    /**
     * The last two phases of `Step()`: production, then, if its assertions
     * held (pok), disintegration; mid is the grid between them. Catalysts
     * are kept and Material is conserved.
     */
    method ProduceThenDecay(decays: set<Vector>) returns (st: Status, ghost produced: nat, ghost gone: seq<Vector>,
                                                          ghost mid: Grid, ghost pok: bool)
      requires Wellformed()
      modifies this
      ensures Wellformed()
      ensures Shaped(mid) && ProductionMade(old(a), mid, cfg, pok, produced)
      ensures if pok then DisintegrationRan(mid, a, decays, st == Done) else st == AssertionFailed && a == mid
      ensures produced <= Count(old(a), Cells(CatalystK))
      ensures st == Done ==> gone == Decayed(Where(mid, LinkK), decays)
      ensures st == Done ==> Count(a, Cells(CatalystK)) == Count(old(a), Cells(CatalystK))
      ensures st == Done ==> Count(a, Cells(LinkK)) == Count(old(a), Cells(LinkK)) + produced - |gone|
      ensures st == Done ==> Material(a) == Material(old(a))
      ensures st == Done && old(LinksCounted()) ==> LinksCounted()
      ensures st == Done && old(Valid()) ==> Valid()
    {
      st, produced := ProductionPhase();
      mid, pok := a, st == Done;
      gone := [];
      if st == Done {
        st, gone := DisintegrationPhase(decays);
      }
    }

    /**
     * `Step()`: motion, Link motion, catalyst motion in the program that has
     * it, production and disintegration, in that order; ph holds the grid
     * after each of the first four, and pok says whether production's
     * assertions held (if not, the step ends there). The Catalysts are never
     * created or destroyed; production and disintegration conserve
     * Material, which only catalyst motion can lower, by overwriting a
     * Substrate.
     */
    method Step(decays: set<Vector>) returns (st: Status, ghost produced: nat, ghost gone: seq<Vector>,
                                              ghost ph: Phases, ghost pok: bool)
      requires Wellformed()
      modifies this
      ensures Wellformed()
      ensures StepRan(old(a), a, decays, cfg, ph, produced, pok, st == Done)
      ensures produced <= Count(old(a), Cells(CatalystK))
      ensures st == Done ==> gone == Decayed(Where(ph.produced, LinkK), decays)
      ensures st == Done ==> Count(a, Cells(CatalystK)) == Count(old(a), Cells(CatalystK))
      ensures st == Done ==> Count(a, Cells(LinkK)) == Count(old(a), Cells(LinkK)) + produced - |gone|
      ensures st == Done ==> Material(a) <= Material(old(a))
      ensures st == Done && !cfg.catalystMotion ==> Material(a) == Material(old(a))
      ensures st == Done && old(LinksCounted()) ==> LinksCounted()
      ensures st == Done && !cfg.catalystMotion && old(Valid()) ==> Valid()
    {
      ghost var h0, h1 := Motions();
      ghost var h2 := a;
      ghost var h3;
      st, produced, gone, h3, pok := ProduceThenDecay(decays);
      ph := Phases(h0, h1, h2, h3);
    }
  }

  /** A grid with one Catalyst and no holes or Links holds SIZE * SIZE - 1 Substrates. */
  lemma InitialSubstrates(g: Grid)
    requires Shaped(g)
    requires forall p :: InGrid(p) ==> At(g, p) == (if p == Vector(4, 4) then Catalyst else Substrate)
    ensures Count(g, Cells(SubstrateK)) == SIZE * SIZE - 1
  {
    CellsPartition(g);
    CountNone(g, Cells(HoleK));
    CountNone(g, Cells(LinkK));
    var h := Set(g, Vector(4, 4), Substrate);
    CountAfterSet(g, Vector(4, 4), Substrate);
    CountNone(h, Cells(CatalystK));
  }

  /** `CATALYSTS` of VarelaCA/ca.py, as (x, y). */
  const CATALYSTS: seq<Vector> := [Vector(4, 4)]

  /** The start of VarelaCA/ca.py, `CA(CATALYSTS)`: one Catalyst at (4, 4), no Links, no bonds. */
  method Start() returns (ca: CA)
    ensures fresh(ca) && ca.cfg == CA_CONFIG && ca.Valid()
    ensures forall p :: InGrid(p) ==> At(ca.a, p) == (if p == Vector(4, 4) then Catalyst else Substrate)
    ensures ca.countS == SIZE * SIZE - 1 && ca.countL == 0 && ca.countJ == 0
  {
    ca := new CA(CATALYSTS, CA_CONFIG);
    InitialSubstrates(ca.a);
  }

  /** `setup()` of VarelaCA/varela.py: the grid holds a Catalyst at (4, 4) and Substrate everywhere else. */
  method Setup() returns (ca: CA)
    ensures fresh(ca) && ca.cfg == VARELA_CONFIG && ca.Valid()
    ensures forall p :: InGrid(p) ==> At(ca.a, p) == (if p == Vector(4, 4) then Catalyst else Substrate)
  {
    ca := new CA([Vector(4, 4)], VARELA_CONFIG);
  }
}
