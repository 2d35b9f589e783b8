# A verified model of the VarelaCA autopoiesis automaton

This project models the discrete autopoiesis cellular automaton of
`VarelaCA/ca.py` and its module-level twin `VarelaCA/varela.py`. It follows
Varela, Maturana and Uribe's substrate / catalyst / link chemistry on a
`SIZE × SIZE` grid (SIZE = 10).

Each cell is one of four things:

- a hole;
- a Substrate (S);
- a Catalyst (K);
- a Link (L), holding at most two bonds.

A bond is stored at each of its two ends, as an index into the neighbour table `N`.

One tick runs these rules in order:

1. hole motion;
2. free-Link motion;
3. optionally, catalyst motion;
4. production;
5. disintegration.

Bonding runs after moves and after production. Rebonding runs after a Link disintegrates.

## Structure

- `geometry.dfy` (module `Geometry`): vectors, the tables `N` and `N_PRIME`, `ORTHOGONAL`, and the predicates `inRange`, `orthogonallyAdjacent`, `adjacent` and `acute`.
- `grid.dfy` (`Grid`): the grid as `seq<seq<Cell>>`, indexed `a[y][x]` as in the source. Also:
  - `cell`/`setCell` and `neighbour`;
  - list comprehensions over the grid, in row-major order (`Where`) or over an offset list (`Around`);
  - counts of cells of each kind and of bond ends.
- `bonds.dfy` (`Bonds`): `Link.bond` and `Link.unbond`, `bonded`, and the grid-wide bond invariant `GridOK`, which holds that:
  - every Link has at most two distinct bonds;
  - each bond points at a Link in range;
  - that Link holds the reverse bond;
  - bonds are orthogonal when bonding is orthogonal.
- `selection.dfy` (`Selection`): `commonCell`, `powerset`, and the "maximal subset" of candidate pairs that `rebond` bonds, as the comprehension computes it.
- `moves.dfy` (`Moves`): the grid rewrites of the motion rules (fill a hole, rotate through a hole, swap) and what each keeps.
- `rules.dfy` (`Rules`): pure parts of the rules, namely:
  - the hole move of rule 1;
  - the production candidates and the production rewrite;
  - the cells left after `breakBonds`;
  - the hole preference of disintegration;
  - rebond's candidate pairs.
- `automaton.dfy` (`Automaton`): class `CA`, with fields:
  - `a` (the grid);
  - the counters `countS`, `countL` and `countJ`;
  - `cfg`, a `Config` that selects between the two programs.

  Every rule is a method of `CA` that changes `a` and the counters in place.

The two programs differ in four ways, recorded in a `Config`:

| | `CA_CONFIG` (ca.py) | `VARELA_CONFIG` (varela.py) |
|---|---|---|
| production neighbourhood | `N[1:] + N_PRIME[1:]` | `N[1:]` |
| bonding neighbourhood | `N[1:]` | `N[1:ORTHOGONAL]` |
| `motionK` in the step | no (commented out) | yes |
| `motionK` bonds the displaced Link | yes | no |

## Invariants

Every rule keeps `CA.Wellformed`:

- the bond invariant `GridOK`;
- there are at least as many holes as Links.

Production makes one Link and one hole. Disintegration removes one of each. The motions keep every count.

So when disintegration searches the whole grid for a hole, one always exists. The source's `h[randint(0, len(h)-1)]` never indexes an empty list.

`CA.Valid` adds that the counters agree with the grid:

- `countS` Substrates;
- `countL` Links;
- `2*countJ` bond ends.

It is established by the constructor and kept by every rule except one. `motionK`'s Substrate-overwriting path removes a Substrate without touching `countS`, so the model keeps only `CA.LinksCounted` (the `countL` and `countJ` half) across it. `Step` states `Valid` for the configuration without `motionK`.

## Where the code and its comments disagree

- `neighbour`'s comment says it returns None for positions outside the space, but None is also what a hole holds. So it returns the same value for a hole and for a position off the grid, and `Grid.Neighbour` returns `Hole` off the grid. Every rule of the code checks `inRange` separately where it matters, and the model does the same.
- `N_PRIME[k]` is `2*N[k]` with x and y swapped, not `2*N[k]`. So the cell "through the bonded Link" reached in `motion` and `displaceS` is not collinear with the Link (`Geometry.PrimeIsTransposed`).
- `moveL` passes `True` to `displaceS` whatever its own `allowExchange` says. So in `motionK` a free Link always moves when its target holds a Substrate (by swapping if need be), and the Catalyst then overwrites the swapped Substrate (`Automaton.CA.KTry`, `Moves.FillOverSubstrate`).
- `rebond`'s comment asks for a subset of pairs no two of which share a cell. The comprehension keeps a subset once ANY one of its pairs shares no cell with the others (`Selection.KeptMembers`). So the chosen "maximal" subset can share a cell (`Selection.SelectionCanShareACell`), and `pairBond` can then trip `Link.bond`'s assertion. The model returns `AssertionFailed` at that point (`Automaton.CA.FirstPass`, `Automaton.CA.JoinAll`).
- `production` asserts that each produced Link is still free before bonding it. With several catalysts, an earlier bonding can bond a later Link. The model returns `AssertionFailed` there and proves that this needs at least two catalysts (`Automaton.CA.Production`).

## Model

| member | source | states |
|---|---|---|
| Geometry.Table | VarelaCA/ca.py:73-76 | every entry of N is an offset with components in -1..1 found at its own index; index 0 is the centre; indices 1..4 are exactly the entries at Manhattan distance 1 |
| Geometry.InNIffOffset | VarelaCA/ca.py:146-148 | `d in N` holds exactly for offsets with both components in -1..1 |
| Geometry.IndexOf | VarelaCA/ca.py:146-148 | `N.index(d)` of an offset is an index of N holding d |
| Geometry.IndexUnique | VarelaCA/ca.py:73-74 | N has no repeated entry: an index holding v is the index of v |
| Geometry.OppNegates | VarelaCA/ca.py:136-139 | the reverse direction stored at the partner's end is the negated offset |
| Geometry.OppInvolutive | VarelaCA/ca.py:73-76 | reversing a direction twice gives it back, and reversal keeps a direction orthogonal or diagonal |
| Geometry.DirectionBack | VarelaCA/ca.py:136-139 | the direction index from l to m leads from l to m, and the one back is its reverse; it is 0 only for l == m |
| Geometry.MutualDirections | VarelaCA/ca.py:141-144 | two non-zero directions that lead back to the start are each other's reverse |
| Geometry.DistinctDirections | VarelaCA/ca.py:97-101 | different direction indices lead to different cells |
| Geometry.StepBack | VarelaCA/ca.py:165-167 | stepping by N[d] then by its reverse returns to the start |
| Geometry.PrimeIsTransposed | VarelaCA/ca.py:79 | `N_PRIME[k]` is `2*N[k]` with x and y swapped, not `2*N[k]`, and it lies 3 apart from the N[k] neighbour |
| Geometry.OrthogonallyAdjacentIff | VarelaCA/ca.py:34-36 | Manhattan distance 1 holds exactly when the offset is one of N[1..4] |
| Geometry.AdjacentIffMoore | VarelaCA/ca.py:39-41 | `adjacent` holds exactly when the offset is an entry of N |
| Geometry.AcuteIff | VarelaCA/ca.py:43-45 | `acute` holds exactly for distinct cells that are not orthogonally adjacent |
| Geometry.AcuteSymmetric | VarelaCA/ca.py:43-45 | `acute` is symmetric |
| Geometry.Slices | VarelaCA/ca.py:76-79 | the Moore, orthogonal and prime offset lists are the slices `N[1:]`, `N[1:ORTHOGONAL]`, `N_PRIME[1:]` |
| Geometry.MooreMembers | VarelaCA/ca.py:73-74 | `N[1:]` is exactly the non-zero offsets in -1..1, without repeats |
| Geometry.OrthoMembers | VarelaCA/ca.py:76 | `N[1:ORTHOGONAL]` is exactly the unit offsets, without repeats, all within `N[1:]` |
| Geometry.DirectionInHood | VarelaCA/ca.py:162 | a direction `randint(1,4)` lies in the orthogonal and Moore neighbourhoods |
| Grid.Set | VarelaCA/ca.py:133-134 | `setCell` changes exactly the one cell |
| Grid.GridExt | VarelaCA/ca.py:130-134 | two grids that agree on every cell are equal |
| Grid.Neighbour | VarelaCA/ca.py:151-153 | off the grid the result is the hole value, otherwise the occupant of `c + n` |
| Grid.Where | VarelaCA/ca.py:159 | the row-major comprehension lists exactly the cells of the kind, in row-major order |
| Grid.WhereCount | VarelaCA/ca.py:385 | that list is as long as the count of the kind |
| Grid.Around | VarelaCA/ca.py:428-431 | the comprehension over an offset list holds exactly the in-range neighbours of the kind |
| Grid.InRangeAround | VarelaCA/ca.py:301 | the comprehension holds exactly the in-range neighbours |
| Grid.AroundDistinct | VarelaCA/ca.py:485-486 | over distinct offsets, the comprehension has no repeated cell |
| Grid.Through | VarelaCA/ca.py:211-215 | the holes opposite orthogonal bonded Links, through N_PRIME, are listed, and only they |
| Grid.SetCount | VarelaCA/ca.py:133-134 | a `setCell` changes a count by the new cell's weight minus the old one's |
| Grid.CellsPartition | VarelaCA/ca.py:115-128 | holes, Substrates, Catalysts and Links together number SIZE² |
| Grid.CountNone | VarelaCA/ca.py:117-121 | a grid with no cell of a measure counts zero of it |
| Grid.Holes | VarelaCA/ca.py:117 | the initial grid holds only holes |
| Grid.At | VarelaCA/ca.py:130-131 | `cell(c)` is `a[c.y][c.x]`, defined on the cells in range |
| Bonds.Direction | VarelaCA/ca.py:146-148 | `N.index(m.subtract(l))` is an index of N leading from l to m |
| Bonds.RemoveFirst | VarelaCA/ca.py:102-105 | `list.remove` drops one occurrence, keeps the others and shortens by one |
| Bonds.RemoveFirstGone | VarelaCA/ca.py:102-105 | from a list with no repeats, `remove` takes the element out entirely |
| Bonds.LinkBond | VarelaCA/ca.py:97-101 | `Link.bond` under its assertions (fewer than 2 bonds, an N offset, a new direction) appends exactly that direction |
| Bonds.LinkUnbond | VarelaCA/ca.py:102-105 | `Link.unbond` removes exactly one occurrence of the direction |
| Bonds.UnbondUndoesBond | VarelaCA/ca.py:97-105 | `unbond` after `bond` of the same pair restores the Link |
| Bonds.BondedNeighbour | VarelaCA/ca.py:146-148 | under the invariant, a bonded neighbour is a distinct in-range bonded Link, orthogonal when bonding is orthogonal |
| Bonds.BondedSymmetric | VarelaCA/ca.py:136-148 | under the invariant, `bonded(l, m)` holds exactly when `bonded(m, l)` does |
| Bonds.BondTargets | VarelaCA/ca.py:374-376 | every stored direction leads to an in-range Link that holds the reverse bond |
| Bonds.TargetsDistinct | VarelaCA/ca.py:374-376 | a Link's two bonds lead to different cells |
| Bonds.WithBondCells | VarelaCA/ca.py:136-139 | `pairBond` appends the reverse directions at both ends and leaves every other cell alone |
| Bonds.WithoutBondCells | VarelaCA/ca.py:141-144 | `pairUnbond` removes the reverse directions at both ends and leaves every other cell alone |
| Bonds.WithBondBonds | VarelaCA/ca.py:136-139 | after `pairBond` both ends are bonded to each other |
| Bonds.PairUnbondUndoesPairBond | VarelaCA/ca.py:136-144 | `pairUnbond` after `pairBond` of the same pair restores the grid |
| Bonds.Bonded | VarelaCA/ca.py:146-148 | `bonded(l, m)`: l holds the direction index of m - l |
| Bonds.WithBond | VarelaCA/ca.py:136-139 | `pairBond` as a grid rewrite, defined exactly on the pairs both `Link.bond` assertions accept; its effect is stated by WithBondCells and WithBondBonds |
| Bonds.WithoutBond | VarelaCA/ca.py:141-144 | `pairUnbond` as a grid rewrite, defined on mutually bonded pairs; its effect is stated by WithoutBondCells and PairUnbondUndoesPairBond |
| Bonds.WithBondKeepsOK | VarelaCA/ca.py:136-139 | `pairBond` of a bondable pair keeps the bond invariant |
| Bonds.WithoutBondKeepsOK | VarelaCA/ca.py:141-144 | `pairUnbond` of a bonded pair keeps the bond invariant |
| Selection.CommonCellSymmetric | VarelaCA/ca.py:50-51 | `commonCell` is symmetric and false of a pair and itself |
| Selection.PowerSet | VarelaCA/ca.py:47-48 | `powerset` of n elements has 2ⁿ entries |
| Selection.PowerSetEndsWithAll | VarelaCA/ca.py:47-48 | the last entry of `powerset(s)` is s itself |
| Selection.PowerSetMembers | VarelaCA/ca.py:47-48 | every entry of `powerset(s)` draws its elements from s, and one as long as s is s |
| Selection.CopiesMembers | VarelaCA/ca.py:495 | the inner comprehension copies a subset once per isolated pair in it |
| Selection.KeptMembers | VarelaCA/ca.py:495 | a subset survives the filter exactly when SOME pair in it shares no cell with the others |
| Selection.FirstLongest | VarelaCA/ca.py:496-497 | `sorted(..., reverse=True)[0]` is the first entry of greatest length |
| Selection.SelectAsWritten | VarelaCA/ca.py:494-497 | the subset `rebond` bonds, computed as the comprehension computes it; SelectionIsSubset and SelectionBeatsEveryMatching state what it is |
| Selection.SelectionIsSubset | VarelaCA/ca.py:495-498 | the chosen subset draws its pairs from the candidates |
| Selection.SelectionBeatsEveryMatching | VarelaCA/ca.py:494-497 | the chosen subset is at least as large as any non-empty subset of candidates without a shared cell |
| Selection.SelectsAllWhenOneIsolated | VarelaCA/ca.py:495-497 | when one candidate shares no cell with the others, every candidate is chosen |
| Selection.SelectionCanShareACell | VarelaCA/ca.py:494-497 | a concrete candidate list whose chosen subset contains two pairs sharing a cell |
| Moves.SetTwoLinks | VarelaCA/ca.py:136-144 | rewriting two Links keeps the kind counts and moves the bond-end count by the bond difference |
| Moves.WithBondCounts | VarelaCA/ca.py:136-139 | `pairBond` keeps every kind count and adds two bond ends |
| Moves.WithoutBondCounts | VarelaCA/ca.py:141-144 | `pairUnbond` keeps every kind count and removes two bond ends |
| Moves.BondedFixedKeepsOK | VarelaCA/ca.py:186-188 | a rewrite that leaves every bonded Link where it was keeps the bond invariant |
| Moves.SwapCells | VarelaCA/ca.py:223-227 | a swap exchanges the two cells and nothing else |
| Moves.SwapKeeps | VarelaCA/ca.py:223-227 | swapping two unbonded cells keeps every count and every bonded Link |
| Moves.RotateCells | VarelaCA/ca.py:201-207 | the three `setCell`s move s into the hole p, z into s, and empty z |
| Moves.RotateKeeps | VarelaCA/ca.py:201-207 | that rotation keeps every count and every bonded Link |
| Moves.FillKeeps | VarelaCA/ca.py:186-188 | moving an unbonded occupant into a hole swaps the two cells and keeps every count and every bonded Link |
| Moves.FillOverSubstrate | VarelaCA/ca.py:303-305 | a Catalyst written over a Substrate loses one Substrate and makes one hole |
| Moves.BondsAddedTransitive | VarelaCA/ca.py:436-446 | "bonds only added, kinds unchanged" composes |
| Moves.BondedStayTransitive | VarelaCA/ca.py:516-521 | "every bonded Link stays a Link" composes across phases |
| Rules.HoleMove | VarelaCA/ca.py:165-188 | rule 1.3 for one hole changes nothing unless the hole is still a hole, and changes no cell other than the hole, its chosen neighbour and the prime cell behind it |
| Rules.HoleMoveKeeps | VarelaCA/ca.py:165-188 | rule 1.3 keeps every count and every bonded Link, acts only on a hole, and moves a Link only when it is free |
| Rules.AnyAdjacent | VarelaCA/ca.py:343 | the `reduce(or, map(orthogonallyAdjacent))` holds exactly when some listed cell is orthogonally adjacent |
| Rules.KeepAdjacent | VarelaCA/ca.py:343 | the filter keeps exactly the candidates with an orthogonally adjacent candidate |
| Rules.Fertile | VarelaCA/ca.py:336-343 | every production candidate is an in-range Substrate at an offset of the production neighbourhood |
| Rules.FertileMembers | VarelaCA/ca.py:336-343 | a production candidate is exactly an in-range Substrate of the neighbourhood with an orthogonally adjacent Substrate candidate |
| Rules.FertilePartner | VarelaCA/ca.py:351-363 | every surviving candidate keeps an adjacent survivor, so `adj` is never empty |
| Rules.AdjacentTo | VarelaCA/ca.py:355 | `adj` is exactly the candidates orthogonally adjacent to p_i |
| Rules.Produce | VarelaCA/ca.py:347-363 | rule 4.2's rewrite: p holds a free Link, q a hole, every other cell unchanged |
| Rules.ProduceCounts | VarelaCA/ca.py:347-363 | production turns one Substrate into a free Link and one other into a hole: S −2, L +1, holes +1 |
| Rules.PairsWith | VarelaCA/ca.py:490-491 | the pairs from x are exactly the orthogonally adjacent, not yet bonded later singles |
| Rules.CandidatePairs | VarelaCA/ca.py:490-491 | the candidate pairs are orthogonally adjacent unbonded pairs of the list, and every such ordered pair i < j is one |
| Rules.Unbonded | VarelaCA/ca.py:371-377 | after `breakBonds(c)` a cell keeps its kind; a Link keeps a sub-multiset of its bonds, one fewer exactly when it was bonded to c |
| Rules.HolePreferred | VarelaCA/ca.py:399-415 | the hole for the second Substrate is a Moore hole if any, else a prime hole if any, else any hole |
| Rules.AroundSameKind | VarelaCA/ca.py:399-400 | the neighbour lists depend only on the kinds of the cells |
| Automaton.HoodIff | VarelaCA/ca.py:428-431 | the bonding neighbourhood is `N[1:]` or `N[1:ORTHOGONAL]` as configured |
| Automaton.HoodFacts | VarelaCA/varela.py:396-397 | an orthogonal bonding partner is at Manhattan distance 1 |
| Automaton.KeepAcuteAway | VarelaCA/ca.py:435 | step 6.2 keeps exactly the singles whose existing bond points acutely away from li |
| Automaton.AcuteTo | VarelaCA/ca.py:453 | step 6.4.1 keeps exactly the free candidates at an acute angle to the first bond |
| Automaton.OneBond | VarelaCA/ca.py:449-450 | the first bond of a free candidate is allowed and bonds li to it |
| Automaton.TwoBonds | VarelaCA/ca.py:443-445 | two candidates at an acute angle can both be bonded, in turn, to li |
| Automaton.SecondKeepsFirst | VarelaCA/ca.py:443-445 | the second bond keeps the first and brings li to two bonds |
| Automaton.NoBond | VarelaCA/ca.py:464-465 | with no candidate, bonding changes nothing |
| Automaton.Singles | VarelaCA/ca.py:428-435 | steps 6.1 and 6.2: every single listed is in range, singly bonded, in the bonding neighbourhood of li, with its bond pointing acutely away from li |
| Automaton.InitialCounts | VarelaCA/ca.py:122-128 | after the constructor's loops the grid has no hole and holds Catalysts exactly at the given positions |
| Automaton.InitialSubstrates | VarelaCA/varela.py:500-503 | one Catalyst and Substrate elsewhere gives SIZE²−1 Substrates |
| Automaton.SameCountsK | VarelaCA/ca.py:296-309 | a motion move that keeps all counts keeps the catalyst-motion counts |
| Automaton.KCountsTransitive | VarelaCA/ca.py:290-326 | the catalyst-motion count relation composes |
| Automaton.SweepStep | VarelaCA/ca.py:165-192 | a sweep of turns extends by one turn, its outputs by that turn's output |
| Automaton.SweepsJoin | VarelaCA/ca.py:254-276 | a sweep followed by the bond sweep over its outputs is a sweep-then-bond phase |
| Automaton.DisplacedBySwap | VarelaCA/ca.py:223-227 | when `displaceS` finds no hole, the mover's old cell receives the Substrate |
| Automaton.Displaced | VarelaCA/ca.py:197-229 | `displaceS(z, s)`: an adjacent hole, else a hole through an opposite bonded Link, receives the Substrate and z moves to s; else, if allowed, z and s swap; else nothing changes |
| Automaton.BarrenIff | VarelaCA/ca.py:347 | no catalyst produced exactly when every catalyst has an empty candidate list |
| Automaton.ProducedManyStep | VarelaCA/ca.py:338-363 | production over several catalysts composes one production per fertile catalyst |
| Automaton.ChooseProduction | VarelaCA/ca.py:347-363 | the random choices of p_i and of the removed S are candidates, orthogonally adjacent |
| Automaton.PartnerExists | VarelaCA/ca.py:355-363 | `adj` is never empty, so `adj[randint(...)]` is in range |
| Automaton.ProduceKeeps | VarelaCA/ca.py:347-363 | one production keeps the bond invariant and makes exactly one free Link |
| Automaton.Yield | VarelaCA/ca.py:347-350 | a turn outputs at most one cell: the produced Link or the moved Link's target |
| Automaton.UnbondFound | VarelaCA/ca.py:375-376 | a bond of ni pointing at c is a mutual bond, and `pairUnbond` removes it |
| Automaton.UnbondAbsent | VarelaCA/ca.py:374-376 | when no bond of ni points at c, ni is not bonded to c |
| Automaton.BreakingDone | VarelaCA/ca.py:371-377 | after the sweep of the Moore Links, c has no bond left and every other cell holds its old contents minus the bonds to c |
| Automaton.BreakingEmpty | VarelaCA/ca.py:371-377 | after the sweep, c holds no bond |
| Automaton.UnbondedOutside | VarelaCA/ca.py:373 | `breakBonds` changes nothing outside the Moore neighbourhood of c |
| Automaton.BondedAroundTransitive | VarelaCA/ca.py:497-514 | rebond's two passes compose: bonds only added near c, kinds unchanged |
| Automaton.RebondInputHolds | VarelaCA/ca.py:485-496 | the first pass's list is of distinct singly bonded Moore Links, and its selected pairs are drawn from it |
| Automaton.SelectedNear | VarelaCA/ca.py:490-497 | the selected pairs join Moore neighbours of c, orthogonally adjacent and not yet bonded |
| Automaton.JoinPairs | VarelaCA/ca.py:512-514 | bonding a list of pairs in turn stops at the first refused pair; it reports success exactly when every pair was bonded |
| Automaton.JoinPairsAdds | VarelaCA/ca.py:512-514 | those bonds are only added, kinds unchanged, two bond ends per pair bonded |
| Automaton.JoinPairsIff | VarelaCA/ca.py:494-514 | bonding succeeds exactly when no two pairs share a cell and every end is still a single |
| Automaton.JoinsWhenDisjoint | VarelaCA/ca.py:512-514 | pairs that share no cell and are each bondable are all bonded |
| Automaton.JoinPairsNear | VarelaCA/ca.py:490-514 | every bond added joins two orthogonally adjacent Moore neighbours of c |
| Automaton.UnpairedAvoids | VarelaCA/ca.py:499-501 | what is left of m after the `remove`s is exactly the members no pair touches |
| Automaton.Rebonded | VarelaCA/ca.py:483-514 | the two passes on the grid: first `JoinPairs` of the first selection, then, if it succeeded, of the second |
| Automaton.RebondedNear | VarelaCA/ca.py:483-514 | rebond only adds bonds, keeps every kind count, and every added bond is near c |
| Automaton.FirstPassFails | VarelaCA/ca.py:494-501 | the first pass fails exactly when its selection contains two pairs sharing a cell |
| Automaton.RebondFails | VarelaCA/ca.py:494-514 | rebond fails whenever the first selection shares a cell, and only when one of the two selections does |
| Automaton.SecondPassJoins | VarelaCA/ca.py:504-514 | the second pass succeeds when its selection shares no cell |
| Automaton.NearPairsStay | VarelaCA/ca.py:497-501 | the pair facts survive the bonds formed earlier in the loop |
| Automaton.RemainingStep | VarelaCA/ca.py:499-501 | both `m.remove` calls find their element |
| Automaton.HolesKept | VarelaCA/ca.py:399-415 | rebond does not change where holes are, so the hole preference is the same after it |
| Automaton.ChooseHole | VarelaCA/ca.py:399-415 | the hole filled is a Moore hole if any, else a prime hole if any, else any hole |
| Automaton.Decayed | VarelaCA/ca.py:386-391 | the Links that decay are exactly the listed Links the oracle selects |
| Automaton.DecayedStep | VarelaCA/ca.py:386-391 | the decayed list grows by l[i] when the oracle selects it, and not otherwise |
| Automaton.DecayFrame | VarelaCA/ca.py:386-418 | after the i-th Link's turn, exactly the selected Links so far are gone |
| Automaton.DecaysJudged | VarelaCA/ca.py:384-418 | after the loop a Link of the old grid is still a Link exactly when the oracle spared it |
| Automaton.UnlinkFrame | VarelaCA/ca.py:390-392 | `breakBonds` then `setCell(li, Substrate)` changes only bonds and li, and only near li |
| Automaton.RebondUnlinked | VarelaCA/ca.py:390-393 | rebond keeps what unlinking established |
| Automaton.FilledDisintegrated | VarelaCA/ca.py:390-415 | unlinking, rebonding and filling the preferred hole together make a disintegration event |
| Automaton.Unlinking | VarelaCA/ca.py:390-392 | after `breakBonds(li)` and `setCell(li, Substrate)` li holds Substrate and every other cell is what `breakBonds` leaves |
| Automaton.DisintegratesEnds | VarelaCA/ca.py:390-415 | a failed rebond's grid, or a successful one refilled at the preferred hole, is a disintegration event |
| Automaton.DecaysRanStep | VarelaCA/ca.py:386-418 | the turns of rule 5.1 compose Link by Link |
| Automaton.MaterialTraded | VarelaCA/ca.py:347-352 | trading two Substrates for one Link keeps the Substrate material S + 2L |
| Automaton.Shuffle | VarelaCA/ca.py:438 | `shuffle` is any permutation |
| Automaton.Start | VarelaCA/ca.py:541 | `CA(CATALYSTS)` has a Catalyst at (4,4), Substrate elsewhere, counters matching |
| Automaton.Setup | VarelaCA/varela.py:500-503 | `setup` has a Catalyst at (4,4), Substrate elsewhere, and the invariant |
| Automaton.CA.constructor | VarelaCA/ca.py:115-128 | the grid holds a Catalyst at each given position and Substrate elsewhere, countS is the Substrate count and the invariant holds |
| Automaton.CA.SetCell | VarelaCA/ca.py:133-134 | `setCell` changes exactly one cell and no counter |
| Automaton.CA.PairBond | VarelaCA/ca.py:136-139 | `pairBond` bonds both ends, raises countJ by 1 and two bond ends, and keeps the invariant and the counters' agreement; varela.py:107-109 makes the same rewrite without a counter |
| Automaton.CA.PairUnbond | VarelaCA/ca.py:141-144 | `pairUnbond` unbonds both ends, lowers countJ by 1 and two bond ends, and keeps the invariant and the counters' agreement; varela.py:111-113 makes the same rewrite without a counter |
| Automaton.CA.BondOne | VarelaCA/ca.py:449-450 | the first bond of li to x is allowed, and li's only bond points at x |
| Automaton.CA.BondAgain | VarelaCA/ca.py:459-460 | the second bond joins an acute candidate, with bonds only added |
| Automaton.CA.BondPair | VarelaCA/ca.py:443-445 | two acute singles are both bonded to li |
| Automaton.CA.BondPairOf | VarelaCA/ca.py:437-446 | step 6.3 bonds li to two singles of the list, both with a bond pointing acutely away from li, that `Link.bond` accepts in turn (`PairOK`) |
| Automaton.CA.BondSingle | VarelaCA/ca.py:449-461 | steps 6.4 to 6.4.3 bond li to the one single x first, then to a second partner from the free candidates exactly when one lies at an acute angle to x, and then to one of those |
| Automaton.CA.BondFree | VarelaCA/ca.py:464-478 | steps 6.6 to 6.6.2 bond li to one free candidate first, then to a second one exactly when one of the candidates lies at an acute angle to the first, and then to one of those |
| Automaton.CA.Bonding | VarelaCA/ca.py:423-478 | the new grid is li bonded to the partners rule 6 picks and nothing else changed (`BondingRan`): two acceptable singles when there is such a pair (6.3), else the only single (6.4), else a free candidate (6.6), each followed by a second partner exactly when an acute free candidate exists (6.4.1, 6.6.1); no partner exactly when there is no candidate; countJ rises by the bonds formed and the invariant holds; with varela.py's orthogonal bonding (varela.py:396-397) every bond formed joins cells at Manhattan distance 1 |
| Automaton.CA.Rotation | VarelaCA/ca.py:201-207 | the mover at z goes to s, s's Substrate to the hole, z becomes a hole, counts kept |
| Automaton.CA.DisplaceS | VarelaCA/ca.py:197-229 | tries an adjacent hole, then a hole through an opposite bonded Link, then a swap if allowed; otherwise nothing changes; no bonded Link moves and every count is kept |
| Automaton.CA.MoveL | VarelaCA/ca.py:235-250 | onto a Substrate it displaces with exchange always allowed, into a hole it moves, onto a Link or Catalyst it does nothing |
| Automaton.CA.MotionAt | VarelaCA/ca.py:165-192 | one hole's turn is rule 1.3 followed by bonding of a moved free Link |
| Automaton.CA.Motion | VarelaCA/ca.py:157-192 | the new grid is the fold, over the holes of the old grid in row-major order, of one rule-1 turn per hole (`HoleMove` with the chosen direction, then bonding when a free Link moved in); every kind count kept, bonded Links stay Links, the invariant and the counters' agreement kept |
| Automaton.CA.MoveFreeLink | VarelaCA/ca.py:264-273 | one free Link's rule-2.3 turn: it moves exactly when its target accepts it, the new grid is `moveL`'s rewrite and equals the old one when the move fails; other Links, all counts and bonded Links kept |
| Automaton.CA.MoveNext | VarelaCA/ca.py:263-271 | one iteration of rule 2.2's loop keeps the loop state: the sweep extended by this Link's turn, the moved list by its target when it moved |
| Automaton.CA.MoveEach | VarelaCA/ca.py:261-271 | rule 2.3's loop over all free Links ends in its final loop state |
| Automaton.CA.FreeMovedAll | VarelaCA/ca.py:254-273 | the final loop state is the sweep of rule 2.3 over the free Links with the moved list as its outputs, all counts and bonded Links kept |
| Automaton.CA.MoveFreeLinks | VarelaCA/ca.py:254-273 | the new grid is the fold of one rule-2.3 turn per free Link of the old grid in row-major order, and the returned list is exactly the cells the successful moves reached; all counts and bonded Links kept |
| Automaton.CA.BondMoved | VarelaCA/ca.py:274-276 | the new grid is the fold of one rule-2.4 turn per listed cell: `bonding` when it still holds a free Link, nothing otherwise; kind counts and bonded Links kept |
| Automaton.CA.MotionL | VarelaCA/ca.py:254-276 | free-Link motion is the moving sweep followed by the bonding sweep over exactly the cells the moves reached (`SweptAndBonded`); kind counts kept, bonded Links stay Links, the invariant kept |
| Automaton.CA.KTry | VarelaCA/ca.py:298-309 | the free Link at ni moves to h exactly when h accepts it; then the new grid is the push (`KPushed`): the Link at h, the Catalyst in ni, a hole at ci, and in ca.py the Link bonded; a Substrate is lost when the Link had to swap with one |
| Automaton.CA.KLinkStep | VarelaCA/ca.py:304 | `moveL(ni, h, False)`: the free Link moves to h exactly when h accepts it, nothing else moves, and ni is left a hole or, after a swap, a Substrate |
| Automaton.CA.KScan | VarelaCA/ca.py:298-309 | the first neighbour in the shuffled order that accepts the Link receives it and the new grid is that push (`KPushed`); when none accepts, nothing changes |
| Automaton.CA.KPush | VarelaCA/ca.py:296-309 | the push succeeds exactly when some Moore neighbour of the Link accepts it, and the new grid is the push to one such neighbour; otherwise nothing changes |
| Automaton.CA.KInto | VarelaCA/ca.py:303-306 | the Catalyst takes ni, its old cell becomes a hole |
| Automaton.CA.KFill | VarelaCA/ca.py:323-326 | rule 3.3.5: the Catalyst moves into ni and ci becomes a hole, nothing else changes |
| Automaton.CA.KExchange | VarelaCA/ca.py:318-320 | rule 3.3.4's swap: the Catalyst and the free Link exchange cells |
| Automaton.CA.KSwap | VarelaCA/ca.py:315-321 | rule 3.3.4: the swap, followed in ca.py by `bonding` of the Link at ci |
| Automaton.CA.KMeet | VarelaCA/ca.py:296-321 | a free Link in the way is pushed to an accepting neighbour, else swapped with the Catalyst (`KMetLink`) |
| Automaton.CA.MoveCatalyst | VarelaCA/ca.py:290-326 | one Catalyst's rule-3.3 turn (`CatalystMoved`): off the grid, a bonded Link or a Catalyst: nothing; a hole: the Catalyst moves in; a Substrate: displaced with exchange; a free Link: pushed and followed, or else swapped with the Catalyst (and bonded at ci in ca.py) |
| Automaton.CA.KNext | VarelaCA/ca.py:289-326 | one iteration of rule 3.3's loop extends the sweep by this Catalyst's turn and keeps the loop state |
| Automaton.CA.MotionK | VarelaCA/ca.py:281-326 | the new grid is the fold of one rule-3.3 turn per Catalyst of the old grid in row-major order; the invariant, the catalyst count and countL/countJ's agreement kept, bonded Links stay Links; varela.py:264-307 is the same rule, run by its step, without bonding the pushed Link |
| Automaton.CA.ProduceHere | VarelaCA/ca.py:347-363 | a fertile catalyst turns one candidate into a free Link and an orthogonally adjacent candidate into a hole: countS −2, countL +1 |
| Automaton.CA.ProduceAt | VarelaCA/ca.py:338-363 | a catalyst produces exactly when its filtered candidate list is non-empty, and otherwise changes nothing; with varela.py's Moore neighbourhood (varela.py:317) the candidates come only from the 8 Moore neighbours |
| Automaton.CA.ProduceNext | VarelaCA/ca.py:337-363 | one iteration of rule 4.1's loop extends the sweep by this Catalyst's turn and the produced list by its output |
| Automaton.CA.ProduceEach | VarelaCA/ca.py:337-363 | the loop over all Catalysts ends in its final state |
| Automaton.CA.ProducedAll | VarelaCA/ca.py:331-363 | the final state is the production sweep over the Catalysts; at most one Link per catalyst, none exactly when all are barren, and then nothing changed |
| Automaton.CA.ProduceAll | VarelaCA/ca.py:331-363 | the new grid is the fold of one rule-4.1/4.2 turn per Catalyst of the old grid in row-major order, and the returned list is exactly the Links produced, all free; at most one per catalyst; none exactly when every catalyst is barren |
| Automaton.CA.BondProduced | VarelaCA/ca.py:365-368 | the new grid is the fold of one rule-4.3 bond turn per produced Link, each still a free Link when its turn came; Done exactly when every Link had its turn; on failure the next Link is no longer free, which needs two or more produced Links |
| Automaton.CA.BondProducedNext | VarelaCA/ca.py:366-368 | one iteration of rule 4.3's loop, on a Link that is still free, extends the bond sweep by its turn |
| Automaton.CA.Production | VarelaCA/ca.py:331-368 | rule 4 is the production sweep followed by the bond turns of exactly the produced Links (`ProductionRan`); S −2k, L +k, holes +k for k produced Links, k no more than the catalysts, k = 0 exactly when every catalyst is barren; the assertion can fail only with two or more catalysts |
| Automaton.CA.UnbondVisit | VarelaCA/ca.py:375-376 | one visit of ni's bond loop unbonds c at most once |
| Automaton.CA.UnbondHit | VarelaCA/ca.py:375-376 | the bond pointing at c is removed by `pairUnbond` |
| Automaton.CA.UnbondFrom | VarelaCA/ca.py:374-376 | if ni is bonded to c that one bond is removed at both ends and countJ falls by 1, otherwise nothing changes |
| Automaton.CA.BreakBonds | VarelaCA/ca.py:371-377 | clears every bond pointing at c: c ends free, every other cell loses only its bond to c, countJ falls by the bonds c held; varela.py:345-351 is the same sweep without the counter |
| Automaton.CA.BreakNext | VarelaCA/ca.py:374-377 | one iteration of `breakBonds`' outer loop keeps its loop state, countS and countL |
| Automaton.CA.JoinNext | VarelaCA/ca.py:513-514 | one `pairBond` of the selection happens exactly when `Link.bond` accepts both ends, and otherwise nothing changes |
| Automaton.CA.JoinAll | VarelaCA/ca.py:512-514 | the new grid is `JoinPairs` of the selection: each pair bonded in turn by `pairBond`, stopping at the first pair `Link.bond` refuses; Done exactly when every pair was bonded |
| Automaton.CA.PairNext | VarelaCA/ca.py:497-501 | the pair is bonded exactly when `Link.bond` accepts both ends, and then both its ends leave m; otherwise nothing changes and the pass ends as `JoinPairs` fails |
| Automaton.CA.FirstPass | VarelaCA/ca.py:497-501 | the new grid is `JoinPairs` of the first selection; Done exactly when every pair bonded, and then the remaining m is exactly the Links no selected pair touches; the cells left in m are unchanged |
| Automaton.CA.SecondPass | VarelaCA/ca.py:504-514 | the new grid is `JoinPairs` of the selection made over the remaining m plus the free Moore Links, bonds only added near c |
| Automaton.CA.Rebond | VarelaCA/ca.py:483-514 | the new grid is `Rebonded`, the two passes' `JoinPairs`; every added bond joins two orthogonally adjacent Moore neighbours of c; countJ rises by the bonds formed; the assertion fails whenever the first selection shares a cell, and only when one of the two selections does |
| Automaton.CA.RebondPasses | VarelaCA/ca.py:483-514 | the two passes: the new grid is `Rebonded`, Done exactly when it says so, bonds only added near c |
| Automaton.CA.Unlink | VarelaCA/ca.py:390-392 | li becomes Substrate, bonds to it are cleared, countJ falls by li's bonds |
| Automaton.CA.UnlinkRebond | VarelaCA/ca.py:390-393 | `breakBonds`, `setCell(li, Substrate)` then `rebond`: the new grid is `Rebonded` of `Unlinking`, whether or not rebond's assertion held, Done exactly when it held; more holes than Links afterwards |
| Automaton.CA.FillHole | VarelaCA/ca.py:397-415 | the preferred hole becomes Substrate and countS rises by 1 |
| Automaton.CA.Refill | VarelaCA/ca.py:394-415 | after unlinking and rebond, the preferred hole becomes Substrate: a disintegration event, countS +2, countL −1 |
| Automaton.CA.Disintegrate | VarelaCA/ca.py:389-415 | one 5.1.1 event (`Disintegrates`): when rebond succeeds, li and the preferred hole become Substrate, countS +2, countL −1, the invariant and the counters' agreement kept; when it fails, the grid rebond left and the counters untouched, as the exception leaves them; varela.py:364-384 is the same event without counters |
| Automaton.CA.DecayOne | VarelaCA/ca.py:389-415 | one selected Link's event is `Disintegrates` from the grid before it, on success and on failure; on success the loop state moves on |
| Automaton.CA.DecayNext | VarelaCA/ca.py:384-418 | one Link's turn (`DecayTurn`): it disintegrates, succeeding or failing, exactly when the oracle selects it, and otherwise nothing changes |
| Automaton.CA.DecayLinks | VarelaCA/ca.py:386-418 | the loop over the Links ends with every turn run or stops at the first failed rebond |
| Automaton.CA.Disintegration | VarelaCA/ca.py:382-418 | the Links of the old grid have their turns in row-major order (`DecaysRan`), or the turns stop at the first failed rebond (`DecaysStopped`); on success exactly the selected Links are gone, each removing a Link and a hole and adding two Substrates |
| Automaton.CA.Motions | VarelaCA/ca.py:516-519 | rules 1, 2 and optionally 3 run in order, each as its fold; Catalysts and Links counted the same, Substrate material conserved without motionK |
| Automaton.CA.ProductionPhase | VarelaCA/ca.py:520 | rule 4 as `ProductionMade`, with the counts it shifts |
| Automaton.CA.DisintegrationPhase | VarelaCA/ca.py:521 | rule 5 as `DisintegrationRan`, with the counts it shifts on success |
| Automaton.CA.ProduceThenDecay | VarelaCA/ca.py:520-521 | rule 4 then, when its assertions held, rule 5; Links change by produced minus decayed |
| Automaton.CA.Step | VarelaCA/ca.py:516-521 | a tick is the five phases in order, each stated as its own fold (`StepRan`), stopping at the first failed assertion; produced Links no more than the catalysts; on success the Catalysts are kept, Links change by produced minus decayed, and Substrate material is conserved without motionK and can only fall with it (varela.py:480-485 runs motionK) |

## Left out

- Rendering and event loops (`draw`, `drawBonds`, `drawCells`, the pygame and processing main loops, the frame counter): user interface and I/O.
- The Box2D continuous variants and the plotting and statistics scripts: physics engine, floating point and plotting, outside the discrete automaton.
- The random source: `randint` and `shuffle` are nondeterministic `:|` choices over the same ranges, so every contract holds for every outcome; probabilities are not modelled.
- The test `random() <= Pd`: it is a parameter `decays` (the set of Links that the test selects), since `Pd` is a floating-point probability.
- Python's exception on a failed `assert`: the model returns `AssertionFailed` before the `pairBond` that would fail, so the half-applied `pairBond` (one end bonded, then the assertion at the other) is not modelled.
- Link identity: Links are values, since no Link object is ever shared by two cells.
- `Vector.__str__`, `__repr__`, SIDE, MARGIN, SPACING, EXTENT, FPS and colours: display only.
- varela.py's lack of counters: the model carries `countS`, `countL` and `countJ` in both configurations; for varela.py they are simply unread.
- Automaton.CA.Rebond: does not restate that the counters agree with the grid; its callers derive it from the bond-end count it states.
- Automaton.CA.Step: after a failed assertion it states which phases ran and the grid they left (`StepRan`), but its count laws only for a tick that completed; it states `Valid` only without `motionK`, whose swap path leaves `countS` stale as in the source.
- Automaton.CA.MotionK: does not keep `countS` equal to the Substrate count, because the source's own counter goes stale there.
- Automaton.CA.Bonding: the shuffled scan of step 6.3 is a choice of any acceptable pair, not the first in a particular shuffled order.
