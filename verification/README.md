# Symmetries of the 36 domino tilings of the 4x4 board

The program `calculator0_symmetry_check.py` checks the fixed-point counts |Fix(g)|
for the eight elements g of the dihedral group D4. The group acts on the 36 domino
tilings of a 4x4 board.

A tiling is written as a 4x4 grid of block labels A..H, parsed to 0..7. Two cells
with the same label form a domino. A map g fixes a tiling when the transformed grid
has the same domino structure, possibly with the blocks renamed. The program decides
this by comparing first-encounter normal forms. It then counts the fixed tilings of
each map, compares the counts with published values, and groups the tilings into
orbits.

The Dafny project models that core in six modules:

- `Board` (`board.dfy`): the 4x4 grid and cells. It also defines the reading order
  (`Flatten` / `Unflatten`), what a domino tiling is (`IsTiling`), and "same domino
  structure" (`SameShape`).
- `Canonical` (`canonical.dfy`): `normalize`. `NormalizeGrid` is the nested row and
  value loop with one `mapping` / `next_id` state, proved equal to the function
  `Normalize`, which relabels the reading order in one scan. The scan's result is
  characterised as the unique first-encounter labelling with the same structure.
- `Dihedral` (`dihedral.dfy`): the eight coordinate maps, `TRANSFORMS`, their group
  structure, and `transform_grid`. `transform_grid` appears both as the program's
  write loop (a method) and as a pull-back function, and the two are proved equal.
- `Symmetry` (`symmetry.dfy`): `NORM_PATTERNS`, `is_fixed`, the fixed-count loop,
  and the orbit loop, over any table of grids.
- `Tilings` (`tilings.dfy`): `parse_pattern`, the 36 tilings of `PATTERNS`, and
  `CLAIMED`. For every tiling and every map it decides whether the map fixes the
  tiling, so the published counts are proved for this table.
- `Families` (`families.dfy`): the orbit loop on `PATTERNS` itself. The 36 tilings have
  pairwise different structures. The quarter turn and the vertical flip carry each
  tiling onto a listed one, so the lookup never misses. The loop finds nine families
  that partition the table.

## Model

| member | source | states |
|---|---|---|
| Board.DominoesHaveTwoCells | calculator0_symmetry_check.py:7-8 | in a domino tiling no label covers three cells, so each block is one domino |
| Board.TilingRespectsShape | calculator0_symmetry_check.py:10-12 | being a tiling depends only on the domino structure, not on which names the blocks carry |
| Board.SameShapeIffKernel | calculator0_symmetry_check.py:10-12 | "same domino structure" on grids is the same as "same equality pattern" on the reading-order labels |
| Tilings.LabelOf | calculator0_symmetry_check.py:27 | `ord(c) - ord('A')` sends the letters A..H to 0..7, and `LetterOf` gives the letter back |
| Tilings.ParsePattern | calculator0_symmetry_check.py:23-29 | parsing keeps the row and column counts, and two cells get the same label exactly when they carry the same letter |
| Tilings.ParseSpell | calculator0_symmetry_check.py:23-29 | parsing the letter grid spelled from a label grid with labels 0..7 returns that label grid (round trip) |
| Tilings.PatternsHaveLayouts | calculator0_symmetry_check.py:32-215 | `PATTERNS` holds the 36 listed tilings, in order, read row by row |
| Tilings.LayoutsDeterminePatterns | calculator0_symmetry_check.py:215 | a table of 36 grids with the listed layouts is `PATTERNS` and nothing else |
| Canonical.Normalize | calculator0_symmetry_check.py:223-239 | the normal form has the input's domino structure, its labels appear in first-encounter reading order, each label is at most the number of distinct labels read before it, and the top-left cell gets 0 |
| Canonical.NormalizeGrid | calculator0_symmetry_check.py:223-239 | the nested loop over rows and values, with one `mapping` and one `next_id` shared by the whole grid, builds exactly the normal form `Normalize(g)` |
| Canonical.RelabelRow | calculator0_symmetry_check.py:232-237 | the loop over one row gives each unmapped value `next_id`, which then grows by one, and appends the mapped values: one step of the reading-order scan |
| Canonical.FirstEncounterBound | calculator0_symmetry_check.py:233-237 | in first-encounter order each label is at most the number of distinct labels before it, and equals it exactly when the label is new |
| Canonical.CanonSpec | calculator0_symmetry_check.py:228-238 | the relabelled sequence has the same equality pattern as the input, and its labels appear in first-encounter order 0, 1, 2, ... |
| Canonical.CanonCharacterization | calculator0_symmetry_check.py:223-239 | a sequence is the normal form of s exactly when it is in first-encounter order and has the same equality pattern as s |
| Canonical.CanonEqualIff | calculator0_symmetry_check.py:223-239 | two label sequences get the same normal form exactly when they have the same equality pattern |
| Canonical.CanonIdempotent | calculator0_symmetry_check.py:223-239 | normalising twice is normalising once |
| Canonical.CanonFixesFirstEncounter | calculator0_symmetry_check.py:228-238 | a sequence already in first-encounter order is its own normal form |
| Canonical.CanonRelabelInvariant | calculator0_symmetry_check.py:223-239 | renaming labels injectively does not change the normal form |
| Canonical.NormalizeEqualIff | calculator0_symmetry_check.py:223-239 | two grids have equal normal forms exactly when they have the same domino structure |
| Canonical.NormalizeIdempotent | calculator0_symmetry_check.py:223-239 | `normalize(normalize(g)) == normalize(g)` |
| Canonical.NormalizeFixesFirstEncounter | calculator0_symmetry_check.py:228-238 | a grid labelled in first-encounter order is its own normal form |
| Canonical.NormalizeRelabelInvariant | calculator0_symmetry_check.py:223-239 | renaming the blocks of a grid injectively does not change its normal form |
| Dihedral.Move | calculator0_symmetry_check.py:257-279 | each of the eight maps sends a cell of the n-by-n board to a cell of the board |
| Dihedral.MoveBijective | calculator0_symmetry_check.py:257-279 | each map is injective on cells and onto the board |
| Dihedral.InverseCancels | calculator0_symmetry_check.py:257-279 | each map has an inverse among the eight: r90 and r270 undo each other, and every other map undoes itself |
| Dihedral.GroupLaws | calculator0_symmetry_check.py:257-279 | r90 twice is r180, r270 after r90 is the identity, and r180 and the four flips are involutions |
| Dihedral.ComposeMoves | calculator0_symmetry_check.py:257-290 | the eight maps are closed under composition: applying u and then t is the single map `Compose(t, u)` |
| Dihedral.ComposeAssociative | calculator0_symmetry_check.py:257-290 | composition of the maps is associative |
| Dihedral.ComposeUnitInverse | calculator0_symmetry_check.py:257-290 | the identity is the unit of composition and every map composed with its inverse is the identity |
| Dihedral.MovePreservesAdjacency | calculator0_symmetry_check.py:257-279 | each map keeps two cells edge-adjacent exactly when they were |
| Dihedral.TransformGrid | calculator0_symmetry_check.py:247-255 | the write loop produces a 4x4 grid with `out[T(r,c)] == in[r][c]` for every cell, equal to the pull-back function `Transform` |
| Dihedral.TransformMoves | calculator0_symmetry_check.py:253-254 | the transformed grid holds at `T(p)` the label the input holds at p |
| Dihedral.TransformAt | calculator0_symmetry_check.py:247-255 | cell q of the transformed grid holds the label of the cell that the inverse map sends q to |
| Dihedral.TransformIdentity | calculator0_symmetry_check.py:258 | transforming by the identity gives the grid back |
| Dihedral.TransformCompose | calculator0_symmetry_check.py:247-255 | transforming by u and then by t is transforming by `Compose(t, u)` |
| Dihedral.TransformKeepsLabels | calculator0_symmetry_check.py:247-255 | the transformed grid carries the same multiset of labels as the input |
| Dihedral.TransformRespectsShape | calculator0_symmetry_check.py:247-255 | grids with the same domino structure stay so after the same transformation |
| Dihedral.TransformPreservesTiling | calculator0_symmetry_check.py:247-255 | transforming a domino tiling gives a domino tiling |
| Symmetry.NormTableAt | calculator0_symmetry_check.py:293 | entry i of `NORM_PATTERNS` is the normal form of entry i of the table |
| Symmetry.IsFixedIff | calculator0_symmetry_check.py:300-307 | `is_fixed(i, t)` holds exactly when the transformed tiling has the same domino structure as tiling i |
| Symmetry.IdentityFixes | calculator0_symmetry_check.py:300-307 | the identity fixes every tiling |
| Symmetry.FixedByInverse | calculator0_symmetry_check.py:300-307 | a map fixes a tiling exactly when its inverse does |
| Symmetry.FixedCompose | calculator0_symmetry_check.py:300-307 | the maps that fix a tiling are closed under composition |
| Symmetry.QuarterTurnFixesHalfTurn | calculator0_symmetry_check.py:300-307 | a tiling fixed by r90 is fixed by r180 |
| Symmetry.FixedIdsSpec | calculator0_symmetry_check.py:322 | `fixed_ids` is strictly increasing and holds exactly the 1-based ids of the fixed tilings |
| Symmetry.IdentityFixesAll | calculator0_symmetry_check.py:322-323 | the identity's list is 1, 2, ..., n, so the count for e is the table size |
| Symmetry.QuarterTurnsAgree | calculator0_symmetry_check.py:322 | r90 and r270 fix exactly the same tilings |
| Symmetry.CountFixed | calculator0_symmetry_check.py:318-325 | the loop stores each map's fixed list and its length, in `TRANSFORMS` order, and sums the lengths; the count for e is the table size, and r90 and r270 get equal counts |
| Symmetry.DistinctIffNormsDistinct | calculator0_symmetry_check.py:4-5 | no two tilings of a table share a domino structure exactly when no two normal forms are equal |
| Symmetry.Lookup | calculator0_symmetry_check.py:404-408 | `NORM_PATTERNS.index(norm)` gives the first position holding the key, and the miss (`ValueError`) happens exactly when the key is absent |
| Symmetry.ImageSpec | calculator0_symmetry_check.py:400-408 | the looked-up index is the first tiling with the transformed tiling's structure, and the miss happens exactly when no tiling has that structure |
| Symmetry.ImageIff | calculator0_symmetry_check.py:400-408 | in a table of distinct tilings, t sends tiling i to tiling j exactly when the transformed tiling has j's structure |
| Symmetry.OrbitMembers | calculator0_symmetry_check.py:399-408 | j is in the orbit of i exactly when some map of `TRANSFORMS` sends i to j |
| Symmetry.OrbitIff | calculator0_symmetry_check.py:399-408 | in a table of distinct tilings, j is in the orbit of i exactly when some map carries tiling i onto tiling j's structure |
| Symmetry.OrbitContainsStart | calculator0_symmetry_check.py:399-408 | in a table of distinct tilings every orbit contains the tiling it started from |
| Symmetry.OrbitOfMember | calculator0_symmetry_check.py:399-411 | in a table of distinct tilings every member of an orbit has the same orbit, so marking the members visited loses nothing |
| Symmetry.OrbitsEqualOrDisjoint | calculator0_symmetry_check.py:394-412 | in a table of distinct tilings two orbits are equal or disjoint |
| Symmetry.RespectsIdentity | calculator0_symmetry_check.py:280-290 | in a table of distinct tilings the identity sends each tiling to itself, so it keeps any naming of classes |
| Symmetry.RespectsCompose | calculator0_symmetry_check.py:280-290 | in a table of distinct tilings, a naming of classes kept by u and by t is kept by "u, then t" |
| Symmetry.RespectsGenerators | calculator0_symmetry_check.py:280-290 | in a table of distinct tilings, a naming of classes kept by r90 and s_v is kept by all eight maps of `TRANSFORMS`, and the lookup finds every image |
| Symmetry.OrbitKeepsClass | calculator0_symmetry_check.py:399-408 | a naming of classes kept by every map gives each member of an orbit the class of its start |
| Symmetry.FirstIffNamesClass | calculator0_symmetry_check.py:396-398 | when each class is named by a member no later than its holders, and kept by every map, a tiling comes first in its family exactly when it names its class |
| Symmetry.FirstsBelowNamed | calculator0_symmetry_check.py:394-412 | when the first tilings of families are exactly the class names, there are as many of one as of the other |
| Symmetry.UnplacedIffFirst | calculator0_symmetry_check.py:396-398 | in a table of distinct tilings the loop finds tiling i unvisited exactly when no earlier tiling is a transform of it |
| Symmetry.PlaceOne | calculator0_symmetry_check.py:396-412 | one pass of the loop: an unvisited tiling appends its orbit and marks its members visited, a visited one changes nothing |
| Symmetry.CountedStarts | calculator0_symmetry_check.py:394-412 | a strictly increasing list holding exactly the tilings below n that come first in their family has one entry per such tiling |
| Symmetry.CollectOrbit | calculator0_symmetry_check.py:399-408 | the inner loop over `TRANSFORMS` collects exactly the orbit of tiling i |
| Symmetry.ComputeOrbits | calculator0_symmetry_check.py:394-412 | every recorded set is an orbit of a tiling of the table; in a table of distinct tilings the orbits are pairwise disjoint, cover every tiling, are the orbit of each of their members, and there is one per tiling that comes first in its family |
| Tilings.AllListed | calculator0_symmetry_check.py:300-307 | for each of the 36 tilings and each map, `is_fixed` holds exactly when the tiling's 1-based id is in the listing `FixedSet` |
| Tilings.FixedIdsOfLayouts | calculator0_symmetry_check.py:321-322 | on `PATTERNS`, the fixed list of each map holds exactly the listed ids |
| Tilings.FixedCountOfLayouts | calculator0_symmetry_check.py:321-323 | on `PATTERNS`, the fixed list of each map is as long as its listing |
| Tilings.FirstPatternHalfTurn | calculator0_symmetry_check.py:33-37 | P1 is fixed by r180, because it has both mirror symmetries, whose composite is r180 |
| Tilings.ClaimedCountHolds | calculator0_symmetry_check.py:340-349 | on `PATTERNS`, the length of each map's fixed list is the value `CLAIMED` gives it: 36, 2, 8, 2, 12, 12, 0, 0 |
| Tilings.CheckClaimed | calculator0_symmetry_check.py:357-369 | on `PATTERNS`, every computed count equals the claimed one, so `all_ok` stays true, and `total_fixed` is 72 |
| Families.LayoutIsNormal | calculator0_symmetry_check.py:32-215 | each of the 36 listed tilings is already written in first-encounter order |
| Families.NormTableIsTable | calculator0_symmetry_check.py:293 | on the listed tilings `NORM_PATTERNS` equals `PATTERNS` |
| Families.LayoutsDiffer | calculator0_symmetry_check.py:32-215 | the 36 listed layouts are pairwise different |
| Families.LayoutsDistinct | calculator0_symmetry_check.py:4-5 | the listed tilings have pairwise different domino structures |
| Families.PatternsDistinct | calculator0_symmetry_check.py:4-5 | the 36 tilings of `PATTERNS` are distinct: no two share a domino structure |
| Families.MovedByRenaming | calculator0_symmetry_check.py:247-255 | when t carries layout i onto layout j up to a reversible renaming of the blocks, tiling i moved by t has tiling j's structure |
| Families.ClassesKeptByQuarterTurn | calculator0_symmetry_check.py:400-408 | the lookup finds the r90 image of every listed tiling, and it lies in the same family of `Classes` |
| Families.ClassesKeptByVerticalFlip | calculator0_symmetry_check.py:400-408 | the lookup finds the s_v image of every listed tiling, and it lies in the same family of `Classes` |
| Families.ClassesRespected | calculator0_symmetry_check.py:280-290 | all eight maps of `TRANSFORMS` keep the families of `Classes` |
| Families.RelatedToClassName | calculator0_symmetry_check.py:399-408 | every listed tiling is a transform of the tiling that names its family |
| Families.FirstsAreNames | calculator0_symmetry_check.py:396-398 | a listed tiling starts a family exactly when it names its family in `Classes` |
| Families.NineFirsts | calculator0_symmetry_check.py:386 | exactly nine of the 36 listed tilings come first in their family |
| Families.LookupNeverMisses | calculator0_symmetry_check.py:404-408 | on the listed tilings the lookup finds every transformed tiling |
| Families.PatternsLookupNeverMisses | calculator0_symmetry_check.py:404-408 | on `PATTERNS` the `except ValueError` branch is never taken: every transformed tiling is found |
| Families.OrbitsOfLayouts | calculator0_symmetry_check.py:394-420 | on the listed tilings the loop finds nine families that are pairwise disjoint, cover 0..35, and are each the orbit of each member |
| Families.OrbitsOfPatterns | calculator0_symmetry_check.py:394-420 | on `PATTERNS` the loop finds nine families that partition 0..35, each the orbit of each member, so `assert len(orbits) == 9` holds |

The `Tilings` and `Families` members above that take a `table` require
`HasLayouts(table)`: 36 grids with the listed layouts. `PatternsHaveLayouts` and
`LayoutsDeterminePatterns` show that exactly one table meets this requirement, namely
`PATTERNS`. Stating them this way keeps each proof about `PATTERNS` small.

`Families` rests on per-tiling certificates. `QuarterTurnOfP1` .. `QuarterTurnOfP36` and
`VerticalFlipOfP1` .. `VerticalFlipOfP36` each give the target tiling and the renaming of
the blocks. The `ReachesP…` lemmas (for example `ReachesP4`, one for each tiling that does not
name its family) chain them to the tiling that names the family.
`Classes` lists, for each tiling, the least tiling of its family.

## Left out

- Printing and report formatting (`print`, `id_str`, the results table, the
  "Detailed listing" section), and the unused imports of `numpy` and `itertools`.
- The string handling of `parse_pattern` (`strip`, `split('\n')`, `split()`):
  `Tilings.ParsePattern` takes the letter grid already cut into rows of letters.
- `families = total_fixed / 8` is floating-point division. The model proves instead
  that `total_fixed` is 72 = 8 * 9.
- `NORM_SET` is computed and never used.
- The `results` dictionary is represented by the sequences of counts and fixed lists
  that `Symmetry.CountFixed` returns, in `TRANSFORMS` order.
- `orbit_ids = sorted(orbit)`: orbits are kept as sets. Sorting only fixes the order
  in which the members are printed and marked visited.
- The `try` / `except ValueError` around `NORM_PATTERNS.index` is modelled as a lookup
  that returns `None`. The orbit loop skips a `None`, as the program does. On
  `PATTERNS` the miss never happens (`Families.PatternsLookupNeverMisses`).
- Symmetry.ComputeOrbits: for an arbitrary table, the partition facts are stated only
  for tables of distinct tilings (`Distinct`). With two tilings of the same structure
  the lookup always returns the first, so the later one lies in no family. For
  `PATTERNS` the condition is proved (`Families.PatternsDistinct`), and
  `Families.OrbitsOfPatterns` states the partition without it.
- Burnside's lemma itself (the number of families is the average fixed count) is not
  proved. The nine families are counted directly on `PATTERNS`.
- The other files of the repository (`Domino Tiling Calculator2.py`, `3.py`, `4.py`)
  are not part of this model.
