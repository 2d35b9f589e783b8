/**
 * The pair selection of the rebond rule: `powerset`, `commonCell`, and the
 * "maximal subset of pairs" that rebond bonds, written as the source computes it.
 */
module Selection {
  import opened Geometry

  /** A candidate bond between two cells. */
  type Pair = (Vector, Vector)

  /** `commonCell(a, b)`: two different pairs that share an endpoint. */
  predicate CommonCell(a: Pair, b: Pair) {
    (a.0 == b.0 || a.0 == b.1 || a.1 == b.0 || a.1 == b.1) && a != b
  }

  /** commonCell is symmetric and never holds of a pair and itself. */
  lemma CommonCellSymmetric(a: Pair, b: Pair)
    ensures CommonCell(a, b) <==> CommonCell(b, a)
    ensures !CommonCell(a, a)
  {
  }

  function Pow2(n: nat): (r: nat)
    ensures r >= 1
  {
    if n == 0 then 1 else 2 * Pow2(n - 1)
  }

  /** [y + [x] for y in z] */
  function Extend<T>(z: seq<seq<T>>, x: T): (r: seq<seq<T>>)
    ensures |r| == |z|
    ensures forall i :: 0 <= i < |z| ==> r[i] == z[i] + [x]
  {
    seq(|z|, i requires 0 <= i < |z| => z[i] + [x])
  }

  /**
   * `reduce(lambda z, x: z + [y + [x] for y in z], s, [[]])`: every subsequence of s,
   * the subsets without the last element first.
   */
  function PowerSet<T>(s: seq<T>): (r: seq<seq<T>>)
    ensures |r| == Pow2(|s|)
    decreases |s|
  {
    if s == [] then [[]]
    else
      var z := PowerSet(s[..|s| - 1]);
      z + Extend(z, s[|s| - 1])
  }

  /** The power set ends with s itself. */
  lemma {:induction false} PowerSetEndsWithAll<T>(s: seq<T>)
    ensures PowerSet(s)[|PowerSet(s)| - 1] == s
    decreases |s|
  {
    if s != [] {
      var p, x := s[..|s| - 1], s[|s| - 1];
      PowerSetEndsWithAll(p);
      LastOfExtended(PowerSet(p), x);
      assert p + [x] == s;
    }
  }

  lemma LastOfExtended<T>(z: seq<seq<T>>, x: T)
    requires z != []
    ensures var r := z + Extend(z, x); r[|r| - 1] == z[|z| - 1] + [x]
  {
  }

  /** Every entry of the power set is drawn from s, and only s itself is as long as s. */
  lemma {:induction false} PowerSetMembers<T>(s: seq<T>, t: seq<T>)
    requires t in PowerSet(s)
    ensures |t| <= |s|
    ensures |t| == |s| ==> t == s
    ensures forall x :: x in t ==> x in s
    decreases |s|
  {
    if s == [] {
      assert PowerSet(s) == [[]];
    } else {
      var p := s[..|s| - 1];
      var last := s[|s| - 1];
      var z := PowerSet(p);
      var ext := Extend(z, last);
      assert PowerSet(s) == z + ext;
      assert p + [last] == s;
      if t in z {
        PowerSetMembers(p, t);
      } else {
        assert t in ext;
        var i :| 0 <= i < |ext| && ext[i] == t;
        PowerSetMembers(p, z[i]);
        assert t == z[i] + [last];
      }
    }
  }

  /** No pair of s shares a cell with another pair of s. */
  predicate Isolated(pu: Pair, s: seq<Pair>) {
    forall x :: x in s ==> !CommonCell(pu, x)
  }

  predicate NoSharedCell(s: seq<Pair>) {
    forall u, v :: u in s && v in s ==> !CommonCell(u, v)
  }

  /** The endpoint test of `commonCell`, without its a != b. */
  predicate Shares(a: Pair, b: Pair) {
    a.0 == b.0 || a.0 == b.1 || a.1 == b.0 || a.1 == b.1
  }

  /** Some entry of s shares a cell with a later entry; a pair listed twice counts. */
  predicate Overlapping(s: seq<Pair>)
    decreases |s|
  {
    s != [] && ((exists v :: v in s[1..] && Shares(s[0], v)) || Overlapping(s[1..]))
  }

  /** Overlapping, stated by positions. */
  lemma {:induction false} OverlappingIff(s: seq<Pair>)
    ensures Overlapping(s) <==> exists i, j :: 0 <= i < j < |s| && Shares(s[i], s[j])
  {
    if s != [] {
      OverlappingIff(s[1..]);
      if exists v :: v in s[1..] && Shares(s[0], v) {
        var v :| v in s[1..] && Shares(s[0], v);
        var k :| 0 <= k < |s[1..]| && s[1..][k] == v;
        assert Shares(s[0], s[k + 1]);
      }
      if Overlapping(s[1..]) {
        var i, j :| 0 <= i < j < |s[1..]| && Shares(s[1..][i], s[1..][j]);
        assert Shares(s[i + 1], s[j + 1]);
      }
      if exists i, j :: 0 <= i < j < |s| && Shares(s[i], s[j]) {
        var i, j :| 0 <= i < j < |s| && Shares(s[i], s[j]);
        if i == 0 {
          assert s[j] in s[1..];
        } else {
          assert Shares(s[1..][i - 1], s[1..][j - 1]);
        }
      }
    }
  }

  /** [s for pu in pus if not any(commonCell(pu, x) for x in s)] */
  function Copies(s: seq<Pair>, pus: seq<Pair>): seq<seq<Pair>> {
    if pus == [] then []
    else (if Isolated(pus[0], s) then [s] else []) + Copies(s, pus[1..])
  }

  /** [s for s in ss for pu in s if not any(commonCell(pu, x) for x in s)] */
  function Kept(ss: seq<seq<Pair>>): seq<seq<Pair>> {
    if ss == [] then [] else Copies(ss[0], ss[0]) + Kept(ss[1..])
  }

  lemma {:induction false} CopiesMembers(s: seq<Pair>, pus: seq<Pair>, t: seq<Pair>)
    ensures t in Copies(s, pus) <==> t == s && exists pu :: pu in pus && Isolated(pu, s)
  {
    if pus != [] {
      CopiesMembers(s, pus[1..], t);
      if t == s && !Isolated(pus[0], s) && (exists pu :: pu in pus && Isolated(pu, s)) {
        var pu :| pu in pus && Isolated(pu, s);
        assert pu in pus[1..];
      }
    }
  }

  /** A subset survives the filter exactly when some pair in it shares no cell with the others. */
  lemma {:induction false} KeptMembers(ss: seq<seq<Pair>>, t: seq<Pair>)
    ensures t in Kept(ss) <==> t in ss && exists pu :: pu in t && Isolated(pu, t)
  {
    if ss != [] {
      CopiesMembers(ss[0], ss[0], t);
      KeptMembers(ss[1..], t);
      assert t in ss <==> t == ss[0] || t in ss[1..];
    }
  }

  /**
   * `sorted(ss, key=len, reverse=True)[0]`: Python's sort is stable also when
   * reversed, so this is the first entry of greatest length.
   */
  function FirstLongest(ss: seq<seq<Pair>>): (r: seq<Pair>)
    requires ss != []
    ensures r in ss
    ensures forall t :: t in ss ==> |t| <= |r|
    ensures exists i :: 0 <= i < |ss| && ss[i] == r && forall j :: 0 <= j < i ==> |ss[j]| < |r|
  {
    if |ss| == 1 then ss[0]
    else
      var rest := FirstLongest(ss[1..]);
      assert forall t :: t in ss ==> t == ss[0] || t in ss[1..];
      if |ss[0]| >= |rest| then ss[0]
      else
        var i :| 0 <= i < |ss[1..]| && ss[1..][i] == rest && forall j :: 0 <= j < i ==> |ss[1..][j]| < |rest|;
        assert ss[i + 1] == rest;
        rest
  }

  /** The subset of candidate pairs that rebond bonds, as the code computes it ([] if none). */
  function SelectAsWritten(p: seq<Pair>): seq<Pair> {
    var kept := Kept(PowerSet(p));
    if kept == [] then [] else FirstLongest(kept)
  }

  /** The selection is one of the subsets of p. */
  lemma SelectionIsSubset(p: seq<Pair>)
    ensures forall x :: x in SelectAsWritten(p) ==> x in p
    ensures |SelectAsWritten(p)| <= |p|
  {
    var kept := Kept(PowerSet(p));
    if kept != [] {
      var r := FirstLongest(kept);
      KeptMembers(PowerSet(p), r);
      PowerSetMembers(p, r);
    }
  }

  /**
   * The selection is at least as large as any subset of pairs with no shared
   * cell: the "maximal" of the comment holds.
   */
  lemma SelectionBeatsEveryMatching(p: seq<Pair>, q: seq<Pair>)
    requires q in PowerSet(p) && q != [] && NoSharedCell(q)
    ensures |q| <= |SelectAsWritten(p)|
  {
    assert q[0] in q && Isolated(q[0], q);
    KeptMembers(PowerSet(p), q);
  }

  /**
   * The filter keeps a subset as soon as ONE of its pairs is isolated, so
   * when some candidate pair shares no cell with the others, rebond selects
   * every candidate pair, shared cells and all.
   */
  lemma SelectsAllWhenOneIsolated(p: seq<Pair>, pu: Pair)
    requires pu in p && Isolated(pu, p)
    ensures SelectAsWritten(p) == p
  {
    PowerSetEndsWithAll(p);
    var ps := PowerSet(p);
    assert ps[|ps| - 1] == p;
    KeptMembers(ps, p);
    var kept := Kept(ps);
    var r := FirstLongest(kept);
    KeptMembers(ps, r);
    PowerSetMembers(p, r);
  }

  /**
   * A concrete neighbourhood: A-B, B-C and D-E are orthogonally adjacent,
   * D-E touches neither of the others, and the selection contains both A-B
   * and B-C, which share B. Bonding it gives B a third bond.
   */
  lemma SelectionCanShareACell()
    ensures var a, b, c := Vector(-1, -1), Vector(0, -1), Vector(1, -1);
            var d, e := Vector(1, 1), Vector(0, 1);
            var p := [(a, b), (b, c), (d, e)];
            SelectAsWritten(p) == p && CommonCell(p[0], p[1]) && Overlapping(p)
            && OrthogonallyAdjacent(a, b) && OrthogonallyAdjacent(b, c) && OrthogonallyAdjacent(d, e)
  {
    var a, b, c := Vector(-1, -1), Vector(0, -1), Vector(1, -1);
    var d, e := Vector(1, 1), Vector(0, 1);
    var p := [(a, b), (b, c), (d, e)];
    assert Isolated((d, e), p);
    SelectsAllWhenOneIsolated(p, (d, e));
    assert p[1] in p[1..] && Shares(p[0], p[1]);
  }
}
