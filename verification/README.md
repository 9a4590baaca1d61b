# The guillotine cutting engine, modelled and proved in Dafny

`src/cutting/` places rectangular pieces on sheets so that a saw which only cuts edge
to edge can free them, and looks for the cheapest set of sheets. This project models
that engine and proves what its callers rely on: whatever a fill, a repair or a hand
edit reports can be cut; "no tree" means that there is none; the bounds that stop the
search are sound; no repair makes a plan dearer; exactly when a run loses or doubles a piece.

`dafny verify dfyconfig.toml` checks everything.

## One vocabulary

A `Box` is an axis-aligned rectangle. A `GTree` is a tree of cuts: an empty leaf
(a leftover), a leaf that is one piece, or a cut with what is near and far of it.
`Frees(tree, region, pieces, kerf)` says that the cuts, run one after another with a
blade of width `kerf`, yield exactly the pieces; cuts may lie anywhere strictly inside
their region, the blade touches no piece and may overhang only the far edge.
`Cuttable` says that some tree does. This relation knows no candidate positions, memos
or budgets; every component is measured against it.

| files | what they model |
|---|---|
| Geometry, Guillotine, Surgery | boxes, trees, and the laws of `Frees`: heredity, area, growing, shrinking, shifting, grafting, thinner blades |
| CandidateCuts, Plans, BestPlan, Consolidate, Derive, BetweenCandidates | `consolidate.py`: the memoised, budgeted search for the best tree |
| FreeSpace, SheetCheck, HandSheet, Placement, Extensions | `sheet_check.py`: free space, violations, placing and growing by hand |
| Sheets, Filling, Packer, Constructors, Strips, Guarantees | `packer.py`, `constructors.py`: the free-rectangle state machine and the strip loop |
| Bounds, SearchPlans, Incumbents, Searching, Openings, Beam, BeamReach, BeamTypes, Improving, RuinRecreate, HalfBoards, HalfStock, Repairs, Optimizer, DoubleCount, Answers | `search.py`: certificates, memos, beam, ruin and recreate, repairs, the whole run, and the components it asks |
| LanePacking, LaneCombos, LaneStacks, LaneSheets, LaneEmission, LaneListing, LaneAssignment, LanePlanning, LanePlans | `lanes.py`: the lane planner |
| ExactModel, Grouping, ExactColumns, ExactPatterns, ExactBinding, ExactLayout, Rounding, Exact | `exact.py`: constraints and reconstruction of the two-stage model |
| TowerModel, TowerColumns, TowerPatterns, TowerLayout, TowerBuilding, Exact3, Truncation | `exact3.py`: the same for three stages and several bins |
| Sequences, Arithmetic | sums, sorts and quotients |

## How the model reads the code

- Lengths, areas and costs are integers in one small unit (0.01 mm), so every
  tolerance `_EPS` is zero and the `round(...)` calls on scores and candidates do
  nothing. Cost bounds are reals where the code divides. The reconstruction of the
  solver's answers keeps its own coarser unit and both of its roundings explicitly.
- Pieces are expanded, have positive sides and, where the code relies on it, pairwise
  distinct ids. Blade and trims are not negative.
- Budgets are explicit and running out of one is an outcome of its own.
- Sort keys are arbitrary orders of the same elements (`IsOrder`, `Orders`). Ranking and
  truncating the beam is any choice among the states reached (`HonestChooser`).
- Fill generators, completion probes, the solver and the runs of the optimizer a repair
  makes are parameters of the search, asked with the number of the call so that answers
  may depend on seeds and budgets, and restricted to what one answer promises: `GoodFills`,
  `GoodFill`, `GoodOpening`, `GoodRepack`, `GoodRelaxed`, `GoodRefit`, `HonestLanes`. The
  theorems hold whatever is answered within that. That the components keep these promises
  is proved in `Answers` and `LanePlans.LanePlan`, from the contracts of the strip loop, the
  packer, both reconstructions and `Optimizer.Optimize` itself run without repairs. Only
  CP-SAT is left as an assumption: what it answers meets the constraints it was given.
- A plan "the search may put together" is a list of fills, each proposed by the generator
  for the pieces the fills before it leave, the last one perhaps found by the completion
  probe. What is said of such plans is said for a generator that repeats itself (`Steady`)
  and a beam that keeps every state (`KeepsAll`), or for one that also looks at piece types
  only (`TypeSteady`) and a beam that keeps one state of each kind (`KeepsOneOfEach`), as
  the deduplication of the beam does.
- Two promises hold on a condition. The densest opening is of the type it was asked for
  when no two bin types are alike in material and size (`Answers.Densest`; without the
  solver there is no such opening and nothing to ask for), and the three-stage model is
  sound for lengths in whole tenths of a millimetre (`InTenths`, which the whole run states).
- Objects whose methods update their fields are classes (`Consolidator`,
  `GuillotineOptimizer`, `Assigner`, `Searcher`, `DenseOpenings`); loops are loops.

## Where code and documentation part

- `consolidate.py:173-175` says that a cut strictly between two candidates yields the
  same partition with a smaller leftover, so only candidates are worth trying. They
  suffice for cuttability (`CandidateCuts.CandidateCutsSuffice`), but for the usable area
  only when there is no blade and no threshold: `BetweenCandidates.CandidatesAreBestIff`.
  With a blade a cut between candidates can lose less to dust; with a threshold it can
  keep an offcut large enough to count. "Best" below means best among candidate trees.
- `consolidate.py:114-116` warns that none is not "impossible to cut". It is, unless
  nodes ran out: `Derive.DeriveTree`.
- `exact3.py:137-141` and its `up` promise to round pieces and blade up, but
  `-int(-v * scale)` truncates. Rounded up, every layout would be sound
  (`Exact3.RoundedIsSound`); truncated, it is for whole units, and for squares of any size
  that are not, or a blade that is not, some assignment is laid out unsoundly
  (`Truncation.MisledIff`).
- `lanes.py:446-497` does not list the cut that frees the top of a lane shorter than its
  band, nor the cut above the band when nothing is placed there. `LaneListing.ReportIff`
  says exactly when some tree has the emitted report; placements and leftovers are always
  those of a tree.
- `search.py:1651` reports the pieces the baseline stranded as unplaced even when a repair
  has placed them, and `search.py:1466` returns nothing at all when there are no bin types.
  `Optimizer.Optimize` says for which inputs the books balance; `DoubleCount` is one for
  which they do not.
- `search.py:779` keys remembered openings by material and size. `Openings.AskTwice` says
  exactly when an answer belongs to another bin type, `Openings.MisbookedIff` what that does
  to bill and stock.
- `search.py:1119-1147` swaps half boards in without looking at their supply.
  `HalfStock.KeepsStockIff` says for which jobs that can never overdraw the stock;
  `HalfStock.LastHalfIsUsedTwice` is an input on which it does.
- `search.py:1318-1385` means to return nothing when its re-partition does not help, but it
  works on a copy of the plan, so its test `plan is incumbent` never holds: past the first
  guards it returns the plan it was given, copied (`Repairs.HalfRepartition`). The cost
  comparison of the caller sorts that out (`Optimizer.Repair`).

## Model

| member | source | states |
|---|---|---|
| `CandidateCuts.CandidateCutsSuffice` | src/cutting/consolidate.py:170-210 | whatever a tree of cuts placed anywhere in its region frees, a tree whose cuts all lie at a piece's far edge, or a blade before a piece's near edge, frees too: the two candidate positions per piece and axis lose no sheet |
| `CandidateCuts.CuttableIffSearchable` | src/cutting/consolidate.py:170-267 | a set of pieces can be cut exactly when some tree of candidate cuts frees it |
| `CandidateCuts.SearchableFrees` | src/cutting/consolidate.py:212-267 | every tree the search ranges over really frees its pieces: blade off every piece, overhanging at most the far edge |
| `CandidateCuts.SlideBack` | src/cutting/consolidate.py:185-210 | a legal cut that no far piece is flush behind can be slid back to the largest far edge of the near pieces, where it is a candidate and both sides are still freed |
| `CandidateCuts.DropCut` | src/cutting/consolidate.py:185-210 | a legal cut with nothing before it and nobody flush behind it was not needed |
| `Surgery.GrowNear` | src/cutting/consolidate.py:247-260 | a region may grow on its near side when no piece is flush with that side: the same tree still frees the pieces |
| `Surgery.ShrinkFar` | src/cutting/consolidate.py:226-246 | a region may shrink on its far side down to its pieces and is still freed by a tree no larger |
| `Guillotine.FreedPiecesAreApart` | src/cutting/consolidate.py:212-267 | pieces a tree frees lie in the region, pairwise a blade apart, and a blade from every leftover of the tree |
| `Guillotine.YieldApart` | src/cutting/consolidate.py:212-267 | any two things a tree yields, pieces or leftovers, are a blade apart |
| `Guillotine.AreaConserved` | src/cutting/consolidate.py:212-267 | a region is exactly its pieces, its leftovers and the dust of its cuts, to the last unit of area, and neither dust nor leftovers are negative |
| `Guillotine.CuttableHereditary` | src/cutting/sheet_check.py:367-403 | taking away any pieces or whole offcuts, or reordering them, leaves a sheet that can be cut, although candidate cuts vanish with them |
| `Guillotine.WithoutFrees` | src/cutting/sheet_check.py:367-403 | the tree without the removed pieces' leaves frees exactly the pieces that stay |
| `Plans.JoinImproves` | src/cutting/consolidate.py:61-88 | improving the score of either side of a cut improves the whole, so the best of each half is the best of both |
| `Plans.MoreUsableWins` | src/cutting/consolidate.py:61-88 | a plan with more usable offcut area scores better, however it is spread and whatever its cuts cost |
| `Plans.MergingWins` | src/cutting/consolidate.py:61-88 | one usable offcut scores better than two usable ones that are together as large |
| `Plans.TidierWins` | src/cutting/consolidate.py:61-88 | an extra leftover too small to use makes the score worse, and of plans with the same leftovers the one of less travel scores better |
| `Plans.CandidateList` | src/cutting/consolidate.py:170-210 | the list holds exactly the candidate cuts: strictly inside the region, next to a piece, blade clear of every piece |
| `BestPlan.BestIsLeast` | src/cutting/consolidate.py:130-168 | no tree of candidate cuts reports a lexicographically smaller (usable area, squares, count, travel) than the recursion's plan |
| `BestPlan.BestIsSearchable` | src/cutting/consolidate.py:130-168 | the recursion's plan is the report of a tree of candidate cuts that frees the pieces |
| `BestPlan.BestDecidesCuttable` | src/cutting/consolidate.py:109-168 | the recursion finds a plan if and only if the pieces can be cut at all |
| `Consolidate.Consolidator.constructor` | src/cutting/consolidate.py:94-107 | starts with an empty memo and the whole budget |
| `Consolidate.Consolidator.Solve` | src/cutting/consolidate.py:109-168 | either the budget is gone and the answer is none, or the answer is the unbudgeted optimum, every memo entry is the optimum of its region, and no more nodes were spent than the unmemoised recursion has; enough budget is never exhausted |
| `Consolidate.Consolidator.SearchCuts` | src/cutting/consolidate.py:135-168 | the same for the loop over candidate cuts, equal scores resolved by position, rips before crosscuts |
| `Consolidate.Consolidator.Candidates` | src/cutting/consolidate.py:170-210 | collects exactly the candidate list, sorted, rips before crosscuts |
| `Consolidate.Consolidator.Apply` | src/cutting/consolidate.py:212-267 | the same for one cut: near and far part solved, far part gone when the blade takes it whole, exhaustion of either passed up |
| `Consolidate.SideIdxs` | src/cutting/consolidate.py:212-246 | the indices sent to one side are the pieces on that side, in order |
| `Derive.DeriveTree` | src/cutting/consolidate.py:270-300 | none with "not exhausted" means that no guillotine tree exists; a plan is the least report of all candidate trees; enough nodes never exhaust |
| `Derive.SearchablePermuted` | src/cutting/consolidate.py:286-291 | sorting the pieces first changes neither which trees exist nor what they report |
| `Derive.SortedBest` | src/cutting/consolidate.py:286-300 | on the sorted pieces the recursion decides cuttability and reports the least score of the unsorted ones |
| `Derive.PlanLength` | src/cutting/consolidate.py:70-88 | the travel a plan is ranked by is the total length of the cuts it lists |
| `Derive.ConsolidateLayout` | src/cutting/consolidate.py:303-355 | pieces never move; the layout is unchanged or strictly better and then reports a real tree's cuts and leftovers; with nodes enough no tree of its placements scores better than the result |
| `BetweenCandidates.CandidatesAreBestIff` | src/cutting/consolidate.py:173-175 | candidate trees leave as much usable area as any tree, on every sheet, if and only if there is no blade and neither threshold exceeds one unit |
| `BetweenCandidates.CandidatesMissTheBest` | src/cutting/consolidate.py:173-175 | otherwise there is a sheet on which every candidate tree scores strictly worse than a tree with a cut between the candidates |
| `Surgery.ThinBlade` | src/cutting/search.py:156-163 | a tree for a blade turns into a tree for any thinner blade, pieces where they are |
| `Guarantees.ThinnerBladeCuts` | src/cutting/search.py:1405-1442 | what can be cut with the blade can be cut in place with every thinner one, so the thin-blade problem is a true relaxation |
| `FreeSpace.FreeRectangles` | src/cutting/sheet_check.py:235-278 | the result is exactly the set of maximal free rectangles, each once; every free place lies in one |
| `FreeSpace.StepCovers` | src/cutting/sheet_check.py:244-278 | cutting one obstacle out keeps that, although rectangles the obstacle leaves alone are never compared again |
| `FreeSpace.CoversIsMaximal` | src/cutting/sheet_check.py:235-243 | a covering list of free places with none inside another is exactly the maximal ones |
| `FreeSpace.SplitFree` | src/cutting/sheet_check.py:250-266 | keeps the rectangles that miss the inflated obstacle and splits the others into their parts beside it |
| `SheetCheck.AloneCuttableIff` | src/cutting/sheet_check.py:298-320 | one piece alone in a region can be cut if and only if on each axis its near slack is zero or more than a blade |
| `SheetCheck.ShortcutIsSound` | src/cutting/sheet_check.py:298-320 | a box that passes the shortcut in a leftover of a derived tree can be cut together with everything already on the sheet |
| `HandSheet.IterViolations` | src/cutting/sheet_check.py:126-171 | no violation if and only if the sheet is in order; listed are exactly the faults of each piece, of each pair and of each whole offcut |
| `HandSheet.RealizeSheet` | src/cutting/sheet_check.py:184-232 | a layout means in order, cuttable and reported by a least tree; "not guillotine" means in order and provably uncuttable; with nodes enough an orderly cuttable sheet is always realized |
| `Placement.Corners` | src/cutting/sheet_check.py:418-424 | exactly the four corner positions of every free rectangle the piece fits in |
| `Placement.Checked` | src/cutting/sheet_check.py:387-403 | accepts only positions with which the sheet can be cut, and every such position when nodes suffice |
| `Placement.TryCorner` | src/cutting/sheet_check.py:425-460 | a corner accepted with or without a derivation leaves a sheet that can be cut; every such corner is accepted while a derivation is left and nodes suffice; derivations never exceed their cap |
| `Placement.PlacementCandidates` | src/cutting/sheet_check.py:323-461 | every position offered is a corner or the current one, and can be cut; every corner with which the sheet can be cut is offered (one per turn when one is asked) when nodes and full checks suffice; the free space returned is exactly the maximal free rectangles; putting a piece back where it was always comes first when the sheet can be cut |
| `Placement.ShortcutCanGo` | src/cutting/sheet_check.py:437-440 | a position the shortcut accepts in a leftover of the sheet as it is leaves an orderly sheet that can be cut |
| `Extensions.LeftoverExtensions` | src/cutting/sheet_check.py:464-532 | every extension offered is the grown leftover, strictly larger, and the sheet can still be cut with it whole; every such extension is offered when nodes suffice |
| `Extensions.ReachIff` | src/cutting/sheet_check.py:492-518 | a free leftover stretched in one direction stays clear of pieces, offcuts and trim if and only if it goes no further than the computed reach |
| `Extensions.GrownIsLargest` | src/cutting/sheet_check.py:495-518 | the grown leftover is free and contains every free stretch of it in that direction |
| `Extensions.LeftoverIsFree` | src/cutting/sheet_check.py:184-232 | a leftover of a derived sheet is a free place |
| `Packer.GuillotineOptimizer.constructor` | src/cutting/packer.py:75-117 | starts with one free rectangle, the sheet inside its trims |
| `Packer.FitsIffLies` | src/cutting/packer.py:170-190 | a gap takes a piece, as drawn or turned, exactly when the piece can lie somewhere inside it that way |
| `Packer.GuillotineOptimizer.FindGap` | src/cutting/packer.py:144-190 | none only if no gap takes the piece; else of all gaps and turns that take it, under best area fit the one of least area, then of least width left over; under bottom left the one of least x, then least y, then least area; the first of equals |
| `Packer.BestGapIsBest` | src/cutting/packer.py:144-190 | said of the gaps themselves, by areas and positions: no gap that takes the piece is better under the selection rule, and none as good comes earlier |
| `Packer.GuillotineOptimizer.CreateSplitRectangles` | src/cutting/packer.py:308-395 | under each of the six split rules the rectangles are the leftovers of the corner tree the rule chooses |
| `Packer.SplitRulePrefers` | src/cutting/packer.py:308-395 | of the two ways to split a gap into two strips each rule takes the one whose strip over the whole gap is thicker (shorter leftover axis), thinner (longer), along the shorter side (shorter axis), along the longer (longer axis), or whose larger strip is the smaller (minimize) or the larger (maximize); the strip above first among equals |
| `Packer.GuillotineOptimizer.CutsFor` | src/cutting/packer.py:253-306 | the cut list is the corner tree's own |
| `Packer.GuillotineOptimizer.SplitRemainder` | src/cutting/packer.py:215-251 | the gap is replaced by the kept leftovers of the corner tree the split rule chooses, smallest gap first, and that tree's cuts are added |
| `Packer.GuillotineOptimizer.PlacePiece` | src/cutting/packer.py:144-213 | places the piece at the corner of the best gap exactly when some gap takes it, with the cuts and gaps of the split the rule chooses, otherwise changes nothing; gaps only shrink |
| `Packer.GuillotineOptimizer.Optimize` | src/cutting/packer.py:119-142 | placed and returned pieces partition the input, no returned piece fits any gap left, and pieces, gaps and cuts are those of a tree of candidate cuts |
| `Packer.CornerSearchable` | src/cutting/packer.py:397-472 | a piece in the corner of a gap, either strip first, is a tree of candidate cuts |
| `Packer.CornerOffcuts` | src/cutting/packer.py:397-472 | that tree's leftovers are the two split rectangles |
| `Packer.CornerCuts` | src/cutting/packer.py:253-306 | that tree's cuts are the packer's, with the packer's lengths |
| `Packer.SplitTracks` | src/cutting/packer.py:215-251 | splitting a gap is grafting the corner tree onto it: the packer's state stays that of a tree |
| `Packer.StillNoneFits` | src/cutting/packer.py:239-251 | what fits none of the gaps fits none of the smaller gaps either |
| `Filling.GraftSearchable` | src/cutting/packer.py:215-251 | cutting pieces out of a leftover keeps a tree of candidate cuts |
| `Filling.GraftPlan` | src/cutting/packer.py:239-251 | its report trades the leftover for the new ones and adds the new cuts |
| `Guarantees.PackerStateIsApart` | src/cutting/packer.py:110-117 | in every state of the packer pieces and gaps lie inside the trims and pairwise a blade apart |
| `Constructors.GreedyFill` | src/cutting/constructors.py:116-144 | the fill is a tree of candidate cuts with its leftovers, of pieces of the pool; a piece left out fits none of the remaining rectangles; no fill only if the trims leave nothing or no piece fits |
| `Strips.PackStrip` | src/cutting/constructors.py:266-320 | the strip is the packer's own run on it: the report of a tree over the strip, of pieces of the pool, and no piece left out fits a gap left; no strip only if no piece fits it |
| `Strips.NextStrip` | src/cutting/constructors.py:253-337 | the strip chosen is the densest of those that may be committed among the sizes offered (piece dimensions, the whole room, or the given first depth); none, when neither depth nor repeats are restricted, only if no piece fits what is left of the sheet |
| `Strips.EveryDepthIsTried` | src/cutting/constructors.py:241-252 | every dimension of every piece left that is within the room, and the whole room, is a size tried, unless the first depth is given |
| `Strips.TakeNext` | src/cutting/constructors.py:339-371 | committing a strip keeps the loop's invariant: tree up to the cursor, pieces neither lost nor doubled, the strips in a row a blade apart, full, and counted by content |
| `Strips.StripFill` | src/cutting/constructors.py:203-383 | the sheet gets exactly the strips that taking the densest one again and again gives; no strip of the depth of any piece then left, or of the whole room, that may be committed is denser than the one taken, and the sheet is left as it is only when there is none; they can be cut with the listed cuts and leftovers, lie in a row a blade apart, the first as deep as asked; no piece of the pool not placed by then fits a gap of a strip; no strip content occurs more often than allowed; nothing comes back only if nothing fits |
| `Strips.SheetIsDensest` | src/cutting/constructors.py:203-337 | the same of the strips as a function of the pool: share of the strip covered, then area covered, then narrowness, compared with a strip of the depth of any piece left |
| `Strips.TranslateRealizes` | src/cutting/constructors.py:178-200 | a fill moved with its tree is still that tree's report |
| `Strips.CommitStrip` | src/cutting/constructors.py:342-368 | ripping a packed strip off the rest of the sheet extends the tree, cut for cut |
| `Strips.BestStrip` | src/cutting/constructors.py:264-337 | of the strips packed one per size, each that may be committed, the one chosen is denser than none |
| `Strips.DensestIs` | src/cutting/constructors.py:264-337 | whatever the strips of the sizes offered come to, none that may be committed is denser than the one taken |
| `Strips.BandsApart` | src/cutting/constructors.py:339-371 | pieces of different strips are a blade apart along the axis the strips follow each other on |
| `Strips.CountStrip` | src/cutting/constructors.py:321-341 | the tally stays the number of committed strips of each content, below the cap |
| `Strips.DropPlacedConserves` | src/cutting/constructors.py:370-371 | taking placed pieces out of the pool doubles none and shrinks the pool, so the strip loop ends |
| `Guarantees.FillIsApart` | src/cutting/constructors.py:116-144 | placements and leftovers of a constructor's fill lie inside the trims, pairwise a blade apart |
| `Guarantees.RederiveFill` | src/cutting/consolidate.py:303-355 | re-deriving the tree of a constructor's fill never answers that there is none: a plan, the least report, unless nodes run out |
| `Bounds.LeastTopUp` | src/cutting/search.py:406-424 | the least bill over all mixes of full and half sheets that hold the area, and some mix bills it |
| `Bounds.LeastDensity` | src/cutting/search.py:385-405 | the least cost per usable unit of area, attained by a bin type |
| `Bounds.CostLowerBound` | src/cutting/search.py:385-424 | no sheets that hold the area bill less than the bound; for one material with at most one half sibling some sheets bill exactly the bound |
| `Bounds.BinsLowerBound` | src/cutting/search.py:427-435 | exactly the least number of sheets that hold the area |
| `Bounds.SheetAreaFits` | src/cutting/search.py:371-374 | the pieces of a sheet the saw can make never exceed its usable area |
| `Bounds.CompleteHolds` | src/cutting/search.py:385-435 | the sheets of any complete cuttable plan hold the area, so both bounds apply to it |
| `Bounds.ProvenOptimal` | src/cutting/search.py:438-462 | when true no complete plan of any shape bills less, and at cost zero none opens fewer sheets; a priced incumbent is declared optimal exactly at the bound, a free one exactly when no sheets that hold the area are fewer |
| `SearchPlans.Rebind` | src/cutting/search.py:474-507 | gives the same layout to pieces of the pool, none twice, and fails exactly when the pool lacks pieces of some type |
| `SearchPlans.SameLayoutSound` | src/cutting/search.py:474-507 | a sheet re-bound to pieces of the same types is as sound as before |
| `SearchPlans.SubpoolSignature` | src/cutting/search.py:465-471 | a part of a pool has at most its types |
| `SearchPlans.PartitionIsComplete` | src/cutting/search.py:907-911 | a plan that partitions the pool is a complete plan in the sense of the certificates and bills the same |
| `Searching.Searcher.OpenSpecs` | src/cutting/search.py:804-818 | exactly the bin types in stock, half boards only when the area left is within 1.25 of theirs |
| `Searching.Searcher.CompleteProbe` | src/cutting/search.py:820-854 | the answer closes the whole pool with one more bin from stock, and bills no more than any single bin in stock and large enough that takes this pool whenever asked; a pool of the same types is asked at most once, and re-binding the remembered fill never fails |
| `Searching.Searcher.AskProbe` | src/cutting/search.py:832-853 | every bin type in stock, large enough and cheaper than the answer was asked for the whole pool and refused |
| `Searching.RememberedCloses` | src/cutting/search.py:820-854 | re-bound to any pool of its types, a remembered fill takes the whole pool |
| `Searching.Searcher.WorthKeeping` | src/cutting/search.py:959-971 | a state is given up only if no completion of it, of any shape, beats the incumbent |
| `Searching.Searcher.TryFill` | src/cutting/search.py:939-971 | a successor is registered when complete, kept, or dropped on its bounds, and there is no other way to lose one; pieces, stock and bill stay in step |
| `Openings.DenseOpenings.BestFill` | src/cutting/search.py:762-802 | a sound opening of pieces of the pool on a bin of the material and size asked for, of the very bin type when no two types agree in both; asked at most once, at most one call of the allowance, and re-binding never fails |
| `Openings.DenseOpenings.AskBoth` | src/cutting/search.py:783-801 | of the two directions' answers the one that covers more |
| `Openings.AskTwice` | src/cutting/search.py:779-802 | once a bin type was answered with a fill of its own, asking for another type with a pool of the same piece types yields a fill of the first type if and only if the two agree in material and size |
| `Openings.MisbookedIff` | src/cutting/search.py:918-948 | opening one type and filling it with a fill of another leaves the running bill right exactly when both cost the same, the tally of bins never, and the plan within stock exactly when a bin of the fill's own type was left |
| `Incumbents.BoundsExclude` | src/cutting/search.py:963-971 | a state whose cost and sheet bounds exceed the incumbent cannot be completed into anything that beats it |
| `Incumbents.DropPlacedExactly` | src/cutting/search.py:942-943 | with distinct ids the pool loses exactly the placed pieces |
| `Beam.Search` | src/cutting/search.py:858-1005 | a plan returned places every piece in exactly one sound sheet, overdraws no stock and is strictly better than the upper objective; every fill tried for a state of any depth completes a plan the answer is at least as good as, or leads to a state the next depth is chosen from, or to one dropped on its bounds; none of those dropped could have beaten the final answer; and wherever one more bin that takes all that is left whenever asked would have closed the plan, the answer bills no more |
| `BeamReach.BeamIsExhaustive` | src/cutting/search.py:858-1005 | with a generator that repeats itself and a beam that keeps every state, no plan put together from generated fills within the bin limit is better than the answer |
| `BeamTypes.DeduplicationLosesNothing` | src/cutting/search.py:971-990 | with a generator that looks at piece types only and a beam that keeps one state of each signature and tally, no plan put together from generated fills within the bin limit, its last bin perhaps closed by the completion probe, is cheaper than the answer, or as cheap on fewer sheets |
| `BeamTypes.Mirror` | src/cutting/search.py:465-500 | what can be put together from a state, the last bin perhaps closed by the probe, can be put together, sheet for sheet of the same bin types, from any state of the same piece types and tally, even one of other pieces |
| `BeamTypes.SearchUnbeaten` | src/cutting/search.py:858-1005 | a search leaves its answer, or the bar it was given, unbeaten: by every composed plan when the beam keeps all states, in bill and sheets by every plan it may finish when it keeps one of each kind, and by every single bin that always takes the whole pool |
| `BeamTypes.NorOfTheseTypes` | src/cutting/search.py:1067-1098 | a search that found nothing cheaper for some pieces would find nothing cheaper for any pieces of the same types |
| `BeamTypes.AlikeBillsAlike` | src/cutting/search.py:971-990 | two states with the same tally of bins have the same bill and as many sheets |
| `Improving.PartImproves` | src/cutting/search.py:1061-1105 | beating the ruined sheets on their own beats the whole plan |
| `Improving.Reassembled` | src/cutting/search.py:1052-1101 | kept sheets and new ones are again a complete plan within stock |
| `RuinRecreate.Lns` | src/cutting/search.py:1009-1115 | the plan stays complete and within stock and its objective never gets worse; round by round the combination due of the emptiest sheets is either replaced by strictly better ones, which no plan the search may put together of their pieces beats, or it cannot be searched to fewer or cheaper sheets; it ends before the rounds are used up only with one sheet, a plan proven cheapest, or every combination stuck |
| `RuinRecreate.Round` | src/cutting/search.py:1052-1114 | one round: two or three sheets ruined and searched within their number, kept as they were unless strictly beaten; a round skipped because one of the same key failed before would have failed too |
| `RuinRecreate.FailedIsStuck` | src/cutting/search.py:1067-1080 | a remembered failure holds for every ruined pool of the same types, tally of kept sheets, bill and number of sheets |
| `RuinRecreate.ExhaustedIsLocallyCheapest` | src/cutting/search.py:1036-1052 | when the rounds stop for want of improvement, no two of the five emptiest sheets can be re-packed by a plan the search may put together so that the whole bills less, or as much on fewer sheets |
| `RuinRecreate.PairsAreTried` | src/cutting/search.py:1036-1046 | any two of the five emptiest sheets are among the combinations |
| `RuinRecreate.EmptierAhead` | src/cutting/search.py:1036 | in the order the combinations are taken from, no sheet comes after a fuller one |
| `HalfBoards.HalfSwap` | src/cutting/search.py:1127-1146 | a swapped sheet is its cheaper half sibling with the same pieces, the first generated fill that holds them all or else the solver's; a board stays full only after both were asked in vain |
| `HalfBoards.SwapIff` | src/cutting/search.py:1119-1146 | a board is swapped if and only if it is full, the last listed half of its material is cheaper, and a generated fill takes all its pieces there or else the solver does |
| `HalfBoards.HalfDowngrade` | src/cutting/search.py:1119-1147 | sheet by sheet unchanged or halved, the same pieces, never dearer; within stock when every half board that may be swapped in is unlimited |
| `HalfStock.KeepsStockIff` | src/cutting/search.py:1119-1147 | whatever honest answers there are, the downgrade keeps every complete plan within stock if and only if no full board in stock with room for a piece has a cheaper half with room for one in finite supply |
| `HalfStock.LastHalfIsUsedTwice` | src/cutting/search.py:1119-1147 | one half board in stock, used next to a full board: after the downgrade the plan uses it twice |
| `HalfStock.HalvedIsNoWorse` | src/cutting/search.py:1119-1147 | with honest answers the downgraded plan holds the same pieces on sound sheets for no more money, from no scarcer stock when swapped-in halves are unlimited |
| `Optimizer.OpenNext` | src/cutting/search.py:1207-1223 | the answer of the first bin type, in order and in stock, that takes anything; half boards passed over unless there is nothing else |
| `Optimizer.SequentialFill` | src/cutting/search.py:1193-1230 | the greedy baseline: pieces conserved, stock respected, the sheet limit kept |
| `Optimizer.BaselineRuns` | src/cutting/search.py:1193-1230 | every sheet of the baseline is what the first bin type, in order and in stock, makes of the pieces the sheets before it leave; it ends only with nothing left, at the sheet limit, or when no bin type takes anything |
| `Optimizer.BaselineStrandsNothing` | src/cutting/search.py:1193-1230 | within the sheet limit the baseline strands nothing that a bin type in stock takes, half boards counting when every bin type is one, and each sheet is of the first bin type that takes something |
| `Optimizer.SearchPlan` | src/cutting/search.py:1505-1594 | ends with a complete plan no worse than the start; either the start is proven to bill no more than any complete plan and is returned, or no plan the search may put together within the sheet limit beats the answer (by objective when the beam keeps every state, by bill and sheets when it keeps one of each kind, nor any single bin that always takes the whole pool), and the answer is what the rounds of ruin and recreate make of such a plan |
| `Optimizer.Repair` | src/cutting/search.py:1602-1649 | the plan is complete and strictly cheaper exactly when one of the three repairs is adopted, and unchanged otherwise; sound when the three-stage model is not asked or rounds nothing |
| `Repairs.Recut` | src/cutting/search.py:1263-1315 | every sheet re-packed onto one sheet of its kind, or nothing; something exactly when every group goes onto one sheet |
| `Repairs.RelaxedKerfRepair` | src/cutting/search.py:1388-1442 | the plan returned is complete and sound for the real blade and strictly cheaper; one is returned exactly when a sheet is filled to less than 30% and some thinner blade's plan is cheaper and can be re-cut |
| `Repairs.HalfRepartition` | src/cutting/search.py:1318-1385 | none exactly when it is not tried (no solver, more than 60 pieces, no unlimited full board, no cheaper unlimited half); a complete, strictly cheaper plan on fewer full boards and no more sheets when a sheet is filled to less than 55% and the first step has room, saves money and is answered in full, sound for lengths in whole tenths of a millimetre; otherwise a copy of the plan given |
| `Repairs.AreaSkipsNothing` | src/cutting/search.py:1367-1383 | the free area check skips no step that could help: with honest answers and lengths in whole tenths of a millimetre a step is made exactly when there is a full board to give up, the bins asked for cost less, and the solver fills them with everything |
| `Repairs.AdoptLanes` | src/cutting/search.py:1630-1649 | a lane plan is adopted exactly when it is complete and bills strictly less |
| `Optimizer.Optimize` | src/cutting/search.py:1445-1651 | every sheet sound, unless the three-stage model is asked about lengths it rounds; no stock overdrawn unless half boards that may be swapped in are limited; bill never above the greedy baseline's and, when that strands nothing, never above that of any plan the search may put together; every piece ends exactly once on a sheet or among the unplaced if and only if there are bin types and not (the greedy baseline strands a piece and a repair of its downgraded plan is adopted), all of it computed from the inputs |
| `DoubleCount.StrandedThenPlaced` | src/cutting/search.py:1600-1651 | two squares, a dear small board first and a cheap larger one, one sheet allowed: the baseline strands a square, and the lane plan that holds both is adopted |
| `DoubleCount.Run` | src/cutting/search.py:1445-1651 | the run on that input: its sheets and its leftovers together are not the pieces it was given |
| `Answers.GenFills` | src/cutting/search.py:621-694 | the candidates of one bin type are sound fills of that type with pieces of the pool, no two of the same piece types; whatever the strip loop or the greedy pass puts on the bin in any call the budget allows is among them up to piece types: at least six plain strip calls, four of few repeats, greedy passes with the rest of the tries |
| `Answers.ProbeFill` | src/cutting/search.py:696-731 | the fill of the first of eight greedy passes and two strip fills that takes the whole pool; none exactly when none of them does |
| `Answers.ExactFill` | src/cutting/search.py:733-760 | the whole pool, soundly; none exactly when the question is skipped (switched off, no pieces, too many, too thin for the bin, no calls left) or no direction of the columns has an answer; a question asked costs one call, a question skipped none |
| `Answers.Opening` | src/cutting/search.py:783-795 | the solver's opening of one bin is sound and of pieces of the pool; none exactly when no piece may lie in the bin, the solver has no answer or its answer leaves the bin empty |
| `Answers.Densest` | src/cutting/search.py:762-802 | the densest opening is of the bin type asked for when no two types are alike |
| `Answers.Refit` | src/cutting/search.py:1377-1384 | the three-stage answer puts every piece on the bins asked for once, soundly when lengths are whole tenths of a millimetre |
| `Answers.Repacked` | src/cutting/search.py:1280-1303 | a sheet re-packed by the optimizer on its kind alone, repairs off: sound sheets of that kind, and all pieces when none spills |
| `Answers.Relaxed` | src/cutting/search.py:1405-1430 | all pieces packed with a thinner blade, repairs off: within stock and every piece once when none spills |
| `Grouping.GroupsOf` | src/cutting/exact.py:154-159 | the pool type by type, types ascending, every piece in the one group of its type |
| `LanePacking.FirstFit` | src/cutting/lanes.py:226-250 | every lane goes into the first sheet that still holds it; what is returned is a packing of all lanes |
| `LanePacking.Assigner.constructor` | src/cutting/lanes.py:264-272 | nothing placed, all width free |
| `LanePacking.Assigner.Place` | src/cutting/lanes.py:274-306 | success is a packing of all lanes; failure restores the state and, unless nodes ran out, proves that the lanes left cannot be placed; the nodes spent are those of the specified search |
| `LanePacking.Assigner.TrySheet` | src/cutting/lanes.py:288-305 | the same for one lane on one sheet: put on and taken back |
| `LanePacking.Assign` | src/cutting/lanes.py:253-308 | no answer means that no packing exists or that the nodes are spent, the call's or the 2000 of one probe; nodes enough for every way of placing the lanes never run out, and no more are ever spent |
| `LanePacking.SpendsWithinTree` | src/cutting/lanes.py:274-306 | the search with its symmetry and width cut-offs opens no more nodes than the tree of all ways to place the lanes has |
| `LanePacking.SameSheetSameChoice` | src/cutting/lanes.py:291-297 | skipping a sheet in the same (used, cap) state loses nothing |
| `LanePacking.FitsInFreeWidth` | src/cutting/lanes.py:283-284 | lanes that can be placed never exceed the free width, so the cut-off loses nothing |
| `LanePacking.SpreadFits` | src/cutting/lanes.py:274-306 | any packing at all can be found by placing the lanes in the given order |
| `LaneCombos.PackWidths` | src/cutting/lanes.py:159-216 | the answer is an eligible combination with a packing of all lanes; unless the nodes are spent no eligible combination that can carry the lanes bills less, and no answer means none can; nodes enough for every way of placing the lanes on every combination never run out |
| `LaneCombos.ProbedSpends` | src/cutting/lanes.py:199-216 | over all combinations: a probe is given up only with the nodes spent, and none is when they suffice |
| `LaneCombos.ProductHasAll` | src/cutting/lanes.py:181-198 | every combination below the cost and sheet limits is enumerated |
| `LaneStacks.FirstLane` | src/cutting/lanes.py:147-153 | the first lane with room for the item, none only if none has |
| `LaneStacks.Stack` | src/cutting/lanes.py:136-156 | every item in exactly one lane no taller than the sheet, a blade between items; no item of a later lane fits on top of an earlier one; no lanes only if one item is too tall |
| `LaneStacks.FillStrip` | src/cutting/lanes.py:334-412 | packed and left-over items are together the items, the strip can be cut, it is the first of the orders' packings that covers most, nothing left fits a gap of it, and nothing is packed only if nothing fits |
| `LaneStacks.LeftGoesNowhere` | src/cutting/lanes.py:390-412 | an item the winning order left over fits no gap of the strip |
| `LaneStacks.RestoreConserves` | src/cutting/lanes.py:390-411 | exchanging stand-ins for the real pieces loses none and doubles none |
| `LaneAssignment.PackedLanesFit` | src/cutting/lanes.py:717-727 | lanes whose widths were packed onto a sheet fit it side by side |
| `LaneSheets.BandFits` | src/cutting/lanes.py:442-480 | lanes side by side with blades between them are a first-stage band of the sheet |
| `LaneSheets.BandCutsAre` | src/cutting/lanes.py:446-478 | the band's cuts are the listed ones and the tops of its shorter lanes |
| `LaneEmission.EmitLane` | src/cutting/lanes.py:446-478 | one lane laid out from the bottom with its cuts and the leftover on top |
| `LaneEmission.EmitBand` | src/cutting/lanes.py:440-480 | the lanes of a sheet from left to right, ripped apart |
| `LaneEmission.Emit` | src/cutting/lanes.py:415-497 | the emitted sheet, with the cuts left unlisted, is the report of a cut tree |
| `LaneEmission.EmittedIsCuttable` | src/cutting/lanes.py:415-497 | placements and leftovers of an emitted sheet are those of a tree over the sheet |
| `LaneListing.ReportIff` | src/cutting/lanes.py:446-497 | an emitted sheet is the report of some cut tree if and only if every lane is as tall as the band and a strip is packed above it or there is nothing above it |
| `LaneListing.TopIsCut` | src/cutting/lanes.py:446-497 | any tree that frees a piece ending inside its region reports a cut along the whole top of that piece |
| `LaneListing.TwoLanesAreNoReport` | src/cutting/lanes.py:446-497 | a tall and a low lane side by side: no tree reports what is emitted |
| `LanePlanning.FindClasses` | src/cutting/lanes.py:500-523 | the first bin type of each width and cost among the tallest unlimited ones, widest first; none only for want of room or for more than two classes |
| `LanePlanning.MakeStrip` | src/cutting/lanes.py:736-752 | the strip fills exactly the room above the tallest lane and a blade; left empty only if no item fits that room |
| `LanePlanning.MakeSheet` | src/cutting/lanes.py:736-752 | one sheet the saw can make of the lanes and of what strip items fit above them; items conserved, and none left over fits a gap of the strip |
| `LanePlans.StackAll` | src/cutting/lanes.py:703-715 | all items stacked lane by lane, widest first, each once; no answer only if one is too tall |
| `LanePlans.StandAll` | src/cutting/lanes.py:526-540 | every piece stood up as it may, or no answer because one cannot stand |
| `LanePlans.SplitIs` | src/cutting/lanes.py:543-559 | in a split exactly the items not sent to the strips stand as they are and exactly the others lie the other way round: width and height exchanged when the piece may be turned and is not square |
| `LanePlans.LyingIsWide` | src/cutting/lanes.py:543-559 | what stood on its narrow side lies on its wide side in the strips |
| `LanePlans.Stand` | src/cutting/lanes.py:526-540 | a piece that may be turned stands on its narrow side whenever that fits, otherwise on its wide side if that fits; one that may not stands as drawn |
| `LanePlans.MakeSheets` | src/cutting/lanes.py:723-752 | sheets sound, of the planned types, at no more than the planned cost; pieces of lanes and strips conserved; what is left over in the end fits no gap of any sheet's strip |
| `LanePlans.PlanSplit` | src/cutting/lanes.py:687-752 | a plan of this split holds every piece exactly once and bills strictly less than the one to beat; it is given up only if an item is too tall, no affordable combination of sheets carries the lanes, the nodes to find one are spent and were too few for all the ways to place the lanes, or strip items are left that fit no gap of any strip |
| `LanePlans.SawableIsInOrder` | src/cutting/lanes.py:666-684 | a sheet the saw can make passes the inspection of a hand-edited sheet |
| `LanePlans.CanBeCut` | src/cutting/lanes.py:666-684 | the last check before a lane plan is adopted never rejects one |
| `LanePlans.LanePlan` | src/cutting/lanes.py:585-663 | a lane plan is complete, of sound sheets of unlimited types, each piece once as it may lie, and bills strictly less than the bound; it is what trying split after split until the nodes are spent gives |
| `LanePlans.CheapestOfTries` | src/cutting/lanes.py:585-663 | the final plan is one of those the splits gave and none of them bills less |
| `ExactModel.Orientations` | src/cutting/exact.py:125-151 | each allowed way of the piece whose slot fits the frame, as drawn or turned, and no other, none twice; empty exactly when the piece may not lie in the frame |
| `ExactModel.ReadingIsCanonical` | src/cutting/exact.py:322-355 | two assignments with the same non-empty contents up to order are read back the same, whatever widths they declare |
| `ExactColumns.ModelTemplates` | src/cutting/exact.py:208-266 | columns read back from an assignment that meets the constraints fit the frame and use no type more often than there are pieces, exactly as often when all are asked for |
| `ExactPatterns.ModelIsExact` | src/cutting/exact.py:205-255 | an assignment meets the constraints if and only if the pieces can be laid out in columns of rows: the columns within the bin side by side, the rows within each column, no type overdrawn (or all placed), at most 40 columns |
| `ExactPatterns.PatternIsAssignment` | src/cutting/exact.py:205-255 | every such layout is an assignment with the same number of pieces of each type |
| `ExactPatterns.SlotsSuffice` | src/cutting/exact.py:205-206 | the number of column slots, as many as the narrowest piece goes side by side, never excludes a layout of at most 40 columns |
| `ExactPatterns.AreaIsRedundant` | src/cutting/exact.py:257-264 | the area constraint added to the model follows from the others |
| `ExactBinding.BindingConserves` | src/cutting/exact.py:344-352 | no piece is attached twice, and none is left when all were asked for |
| `ExactBinding.BindInstances` | src/cutting/exact.py:344-352 | the cursors per type attach the pieces column by column, row by row |
| `ExactLayout.SheetRealizes` | src/cutting/exact.py:296-426 | in solver units the layout is a tree of cuts: pieces in their slots, cuts and leftovers the tree's |
| `Rounding.RoundedLayoutIsSound` | src/cutting/exact.py:90-122 | a layout in rounded-up units, pieces and leftovers alike, can be cut in real ones with the real blade |
| `Exact.LayColumn` | src/cutting/exact.py:376-426 | one column from the near end on, as specified |
| `Exact.LaySheet` | src/cutting/exact.py:356-426 | all columns, rips and the leftover beside them, as specified |
| `Exact.BuildFill` | src/cutting/exact.py:296-426 | the fill is the canonical layout of the assignment; none exactly if no column holds anything |
| `Exact.KeptAre` | src/cutting/exact.py:192-203 | a type is dropped from the model exactly when no allowed way of it fits the bin |
| `Exact.LayoutIsSound` | src/cutting/exact.py:356-426 | whatever the rounding, pieces and leftovers together can be cut from the usable part of the sheet |
| `Exact.LayoutIsExact` | src/cutting/exact.py:356-426 | when every length is a whole unit the reported cuts and leftovers are a tree's own |
| `Exact.ReconstructionIsSound` | src/cutting/exact.py:296-426 | every piece inside the trims in an allowed turn, pairwise a blade apart, leftovers too, each instance at most once, exactly once when all were asked for |
| `Exact.ReconstructionIsCanonical` | src/cutting/exact.py:322-426 | two assignments with the same contents give identical placements, cuts, leftovers and piece ids |
| `Exact.SolveBin` | src/cutting/exact.py:162-293 | a fill is sound; asked for all pieces, there is none exactly when the model is not posed or has no answer; asked for the densest, exactly when no piece may lie in the bin, the model has no answer or its answer leaves the bin empty |
| `Exact.FitsOneBin` | src/cutting/exact.py:429-456 | a fill holds the whole pool; it is given up exactly when neither direction has an answer |
| `Exact.UnsolvedIff` | src/cutting/exact.py:162-278 | with a solver that finds an answer whenever there is one, a direction is given up if and only if no layout in columns of rows places all the pieces |
| `Exact3.TowersAreRead` | src/cutting/exact3.py:348-377 | over all bins, columns read back from an assignment that meets the truncated constraints fit their frames and use every piece exactly once |
| `TowerPatterns.TowersAreExact` | src/cutting/exact3.py:210-309 | over all bins, an assignment meets the constraints if and only if the pieces can be laid out in columns of strips of rows, every piece once |
| `Truncation.TruncationIsExact` | src/cutting/exact3.py:141-164 | truncating and rounding up agree exactly on whole units |
| `Truncation.MisledIff` | src/cutting/exact3.py:141-164 | for squares of any size the truncated constraints admit an assignment that is laid out so that the saw cannot make it if and only if the size or the blade is not whole units |
| `Truncation.SquaresAreMisled` | src/cutting/exact3.py:383-489 | two such squares side by side in one strip meet the constraints and are laid out less than a blade apart |
| `Exact3.TowersAreSound` | src/cutting/exact3.py:322-489 | rounded up as documented, one bin's pieces and leftovers can all be cut, whatever the lengths |
| `Exact3.RoundedIsSound` | src/cutting/exact3.py:322-489 | rounded up as documented, over all bins every layout is sound with every piece placed once, whatever the lengths |
| `Exact3.ThreeStagesAreSound` | src/cutting/exact3.py:322-489 | truncated as coded, with whole units every bin can be cut and every piece lies in exactly one |
| `Exact3.ThreeStagesPlaceAll` | src/cutting/exact3.py:322-489 | whatever the truncation loses, every piece is placed exactly once, in a way it may lie |
| `Exact3.ThreeStagesAreCanonical` | src/cutting/exact3.py:348-377 | assignments with the same contents bin by bin come out as identical placements, cuts, leftovers and piece ids |
| `TowerModel.TowersCanonical` | src/cutting/exact3.py:348-377 | reordering pieces in strips, strips in columns and columns, or declaring other widths and heights, changes nothing |
| `TowerColumns.BinIsRead` | src/cutting/exact3.py:229-309 | a column read back stacks within its bin and holds of each type what the assignment says |
| `TowerLayout.TowersRealize` | src/cutting/exact3.py:383-489 | in solver units the three-stage layout is a tree of cuts |
| `TowerBuilding.ReadTowers` | src/cutting/exact3.py:348-377 | the columns of a bin read back canonically, as specified |
| `TowerBuilding.LayTowers` | src/cutting/exact3.py:383-489 | columns laid out in their turned frames, as specified |
| `TowerBuilding.BuildFills` | src/cutting/exact3.py:322-489 | all bins read, pieces attached across bins, laid out |
| `TowerBuilding.FitsBins` | src/cutting/exact3.py:492-563 | a result places every piece once, and soundly with whole units; none only if no way of running the columns has an answer |

## Left out

- Floating point: tolerances, rounded scores and the 1e-6 slack of `_proven_optimal`, as said above.
- The Rust port and `rust_backend.py`: the same algorithms again.
- CP-SAT, its seeds and its deterministic time: any answer that meets the constraints stands for it. Of `exact3.py`'s model the size of the tree, the values strip heights may take and the redundant area constraint are not modelled: they narrow its answers further.
- `expand_pieces`, the default sort of `optimize` and the concrete sort keys: orders are arbitrary.
- The concrete portfolio, `SearchBudget.scaled`, restart seeds, `tight_count`, the beam's width and which of the states alike it keeps: they decide which fills are tried and which states are kept.
- The smaller beam width and number of tries of the searches in `lns`: they are asked of the same generator and chooser. `_RESTART_FLAVORS` has one entry, so a restart is one pipeline.
- A dense opening of another bin type than the one asked about (`Openings.AskTwice`) does not enter the beam: `Searcher` is given openings of the type asked for.
- `_width_groups` and the order of lay-down candidates in `lane_plan`: the splits tried are arbitrary sets of items.
- `downgrade_layout_to_half`, the max-yield pass, `consolidate_layouts` and `MultiSheetGuillotineOptimizer`: thin loops around what is modelled.
- `exact3._frame_order` and the ladder of tree sizes: the attempts are an arbitrary list of directions.
- Thickness, priorities, sheet numbers and layout statistics: nothing here depends on them.
- Storage, HTTP, authentication, benchmarks and everything else outside `src/cutting/`.
- Beam.Search: how good the plan is depends on the states kept, an arbitrary choice here; `BeamTypes.SearchUnbeaten` says it for a beam that keeps them all and for one that keeps one of each kind, and so do `Optimizer.SearchPlan` and `Optimizer.Optimize`. For a beam that drops others only their bounds and the completion probe are promised.
- RuinRecreate.Lns: the same; a combination is stuck for the plans such a search may put together, not for every plan.
