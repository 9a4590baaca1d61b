/**
`optimize_bins` of search.py as a whole: a greedy baseline, the search that improves
it, and the repairs that may replace it.
*/
module Optimizer {
  import opened Geometry
  import opened Plans
  import opened Sequences
  import opened Sheets
  import opened Packer
  import opened Constructors
  import opened Strips
  import opened Bounds
  import opened SearchPlans
  import opened Incumbents
  import opened Searching
  import opened Beam
  import opened BeamReach
  import opened BeamTypes
  import opened Improving
  import opened RuinRecreate
  import opened HalfBoards
  import opened Repairs

  // ---- the baseline ---------------------------------------------------------------------

  /** Half boards are passed over unless there is nothing else. */
  predicate PassedOver(job: Job, k: nat)
    requires k < |job.specs|
  {
    job.specs[k].half && exists s :: s in job.specs && !s.half
  }

  /** What the first bin type from `k` on, in order and in stock, makes of the pieces. */
  function FirstTaken(job: Job, remaining: seq<Piece>, before: seq<Fill>, greedy: Prober, k: nat): Option<Fill>
    requires k <= |job.specs|
    decreases |job.specs| - k
  {
    if k == |job.specs| then None
    else if PassedOver(job, k) || (job.specs[k].count.Some? && Times(before, k) >= job.specs[k].count.value)
        || greedy(|before|, remaining, k).None?
    then FirstTaken(job, remaining, before, greedy, k + 1)
    else greedy(|before|, remaining, k)
  }

  /** What some fills leave of a pool. */
  function LeftOf(pool: seq<Piece>, fills: seq<Fill>): seq<Piece> {
    if fills == [] then pool else DropPlaced(LeftOf(pool, fills[..|fills|-1]), fills[|fills|-1].sheet.placed)
  }

  /** The run of the baseline: every sheet is what the first bin type makes of the pieces
      the sheets before it leave, and there is no further sheet. */
  ghost predicate SequentialRun(fills: seq<Fill>, remaining: seq<Piece>, job: Job, pool: seq<Piece>, maxSheets: nat,
                                greedy: Prober) {
    && SequentialSoFar(fills, remaining, job, pool, greedy)
    && (remaining == [] || |fills| == maxSheets || FirstTaken(job, remaining, fills, greedy, 0).None?)
  }

  ghost predicate SequentialSoFar(fills: seq<Fill>, remaining: seq<Piece>, job: Job, pool: seq<Piece>, greedy: Prober) {
    && remaining == LeftOf(pool, fills)
    && forall i ::
       0 <= i < |fills| ==> FirstTaken(job, LeftOf(pool, fills[..i]), fills[..i], greedy, 0) == Some(fills[i])
  }

  /** The baseline as a function: so many sheets more at most. */
  function Sequential(job: Job, before: seq<Fill>, remaining: seq<Piece>, more: nat, greedy: Prober): Solution
    decreases more
  {
    if more == 0 || remaining == [] then Solution(before, remaining)
    else
      var f := FirstTaken(job, remaining, before, greedy, 0);
      if f.None? then Solution(before, remaining)
      else Sequential(job, before + [f.value], DropPlaced(remaining, f.value.sheet.placed), more - 1, greedy)
  }

  function Baseline(job: Job, pool: seq<Piece>, maxSheets: nat, greedy: Prober): Solution {
    Sequential(job, [], pool, maxSheets, greedy)
  }

  /** The first bin type, in order, that is in stock and takes something. */
  method OpenNext(job: Job, remaining: seq<Piece>, used: seq<nat>, ghost before: seq<Fill>, ask: nat, greedy: Prober)
    returns (f: Option<Fill>)
    requires HonestProber(greedy, job, false) && AllValid(remaining)
    requires ask == |before| && Tallied(used, before, Zeros(job))
    ensures f == FirstTaken(job, remaining, before, greedy, 0)
    ensures f.Some? ==> FillOk(f.value, remaining, job) && InStock(f.value.kind, used, job)
  {
    hide FillOk, AllValid, Times;
    var hasFull := exists s :: s in job.specs && !s.half;
    f := None;
    for k := 0 to |job.specs|
      invariant f.None?
                && FirstTaken(job, remaining, before, greedy, k) == FirstTaken(job, remaining, before, greedy, 0)
    {
      var spec := job.specs[k];
      if hasFull && spec.half { continue; }
      if spec.count.Some? && used[k] >= spec.count.value { continue; }
      f := greedy(ask, remaining, k);
      if f.Some? { return; }
    }
  }

  lemma OneMoreSequential(fills: seq<Fill>, remaining: seq<Piece>, f: Fill, job: Job, pool: seq<Piece>, greedy: Prober)
    requires SequentialSoFar(fills, remaining, job, pool, greedy)
    requires FirstTaken(job, remaining, fills, greedy, 0) == Some(f)
    ensures SequentialSoFar(fills + [f], DropPlaced(remaining, f.sheet.placed), job, pool, greedy)
  {
    hide FirstTaken, DropPlaced;
    var all := fills + [f];
    assert all[..|fills|] == fills;
    forall i | 0 <= i < |all| ensures FirstTaken(job, LeftOf(pool, all[..i]), all[..i], greedy, 0) == Some(all[i]) {
      if i < |fills| { assert all[..i] == fills[..i]; }
    }
  }

  lemma SequentialStep(job: Job, before: seq<Fill>, remaining: seq<Piece>, more: nat, greedy: Prober)
    ensures var f, s := FirstTaken(job, remaining, before, greedy, 0), Sequential(job, before, remaining, more, greedy);
            if more == 0 || remaining == [] || f.None? then s == Solution(before, remaining)
            else s == Sequential(job, before + [f.value], DropPlaced(remaining, f.value.sheet.placed), more - 1, greedy)
  {
    hide FirstTaken, DropPlaced;
  }

  /** Pieces, stock and supply after one more sheet. */
  lemma SheetTaken(fills: seq<Fill>, remaining: seq<Piece>, used: seq<nat>, f: Fill, job: Job, pool: seq<Piece>)
    requires Distinct(remaining) && AllValid(remaining) && FillOk(f, remaining, job) && InStock(f.kind, used, job)
    requires AllSound(fills, job) && WithinStock(fills, Zeros(job), job) && Tallied(used, fills, Zeros(job))
    requires multiset(AllPieces(fills)) + multiset(remaining) == multiset(pool)
    ensures f.kind < |used|
    ensures var rest := DropPlaced(remaining, f.sheet.placed);
            && Distinct(rest) && AllValid(rest)
            && AllSound(fills + [f], job) && WithinStock(fills + [f], Zeros(job), job)
            && Tallied(used[f.kind := used[f.kind] + 1], fills + [f], Zeros(job))
            && multiset(AllPieces(fills + [f])) + multiset(rest) == multiset(pool)
  {
    hide FillSound, AllPieces, DropPlaced, Times, Distinct, AllValid;
    var rest := DropPlaced(remaining, f.sheet.placed);
    DropPlacedExactly(remaining, f.sheet.placed);
    DropPlacedKeepsDistinct(remaining, f.sheet.placed);
    OneMoreFill(fills, f, Zeros(job), job);
    StockAfter(fills, f, used, Zeros(job), job);
    SubpoolValid(rest, remaining);
  }

  /** One bin at a time, one greedy pass each, bin types in order. */
  method SequentialFill(job: Job, pool: seq<Piece>, maxSheets: nat, greedy: Prober)
    returns (fills: seq<Fill>, remaining: seq<Piece>)
    requires HonestProber(greedy, job, false) && Distinct(pool) && AllValid(pool)
    ensures |fills| <= maxSheets
    ensures Solution(fills, remaining) == Baseline(job, pool, maxSheets, greedy)
    ensures AllSound(fills, job) && WithinStock(fills, Zeros(job), job)
    ensures multiset(AllPieces(fills)) + multiset(remaining) == multiset(pool)
  {
    hide HonestProber, FillOk, AllPieces, DropPlaced, Distinct, AllValid, FirstTaken, Sequential, AllSound, WithinStock,
         Tallied, InStock;
    fills, remaining := [], pool;
    var used := Zeros(job);
    NoSheets(job);
    for i := 0 to maxSheets
      invariant |fills| == i
      invariant Sequential(job, fills, remaining, maxSheets - i, greedy) == Baseline(job, pool, maxSheets, greedy)
      invariant Distinct(remaining) && AllValid(remaining)
      invariant AllSound(fills, job) && WithinStock(fills, Zeros(job), job) && Tallied(used, fills, Zeros(job))
      invariant multiset(AllPieces(fills)) + multiset(remaining) == multiset(pool)
    {
      SequentialStep(job, fills, remaining, maxSheets - i, greedy);
      if remaining == [] { break; }
      var f := OpenNext(job, remaining, used, fills, i, greedy);
      if f.None? { break; }
      SheetTaken(fills, remaining, used, f.value, job, pool);
      var k := f.value.kind;
      remaining := DropPlaced(remaining, f.value.sheet.placed);
      used := used[k := used[k] + 1];
      fills := fills + [f.value];
    }
    SequentialStep(job, fills, remaining, maxSheets - |fills|, greedy);
  }

  lemma NoSheets(job: Job)
    ensures AllSound([], job) && WithinStock([], Zeros(job), job) && Tallied(Zeros(job), [], Zeros(job))
            && AllPieces([]) == []
  {
    NothingYet(job);
  }

  lemma NoSheetYet(job: Job, pool: seq<Piece>, greedy: Prober)
    ensures SequentialSoFar([], pool, job, pool, greedy)
  {
  }

  lemma {:induction false} SequentialRuns(job: Job, before: seq<Fill>, remaining: seq<Piece>, more: nat, greedy: Prober,
                                          pool: seq<Piece>, maxSheets: nat)
    requires SequentialSoFar(before, remaining, job, pool, greedy) && |before| + more == maxSheets
    ensures var s := Sequential(job, before, remaining, more, greedy);
            SequentialRun(s.fills, s.unplaced, job, pool, maxSheets, greedy)
    decreases more
  {
    hide SequentialSoFar, FirstTaken, DropPlaced;
    SequentialStep(job, before, remaining, more, greedy);
    var f := FirstTaken(job, remaining, before, greedy, 0);
    if more > 0 && remaining != [] && f.Some? {
      OneMoreSequential(before, remaining, f.value, job, pool, greedy);
      SequentialRuns(job, before + [f.value], DropPlaced(remaining, f.value.sheet.placed), more - 1, greedy, pool,
                     maxSheets);
    }
  }

  /** The baseline is a run: every sheet is what the first bin type, in order and in stock,
      makes of the pieces the sheets before it leave, and there is no further sheet. */
  lemma BaselineRuns(job: Job, pool: seq<Piece>, maxSheets: nat, greedy: Prober)
    ensures var s := Baseline(job, pool, maxSheets, greedy); SequentialRun(s.fills, s.unplaced, job, pool, maxSheets,
        greedy)
  {
    NoSheetYet(job, pool, greedy);
    SequentialRuns(job, [], pool, maxSheets, greedy, pool, maxSheets);
  }

  /** A bin type a sheet may be opened of: it is in stock, and a half board only when every
      bin type is one. */
  predicate MayOpen(job: Job, before: seq<Fill>, k: nat)
    requires k < |job.specs|
  {
    && (job.specs[k].half ==> forall s :: s in job.specs ==> s.half)
    && (job.specs[k].count.None? || Times(before, k) < job.specs[k].count.value)
  }

  /** None of the bin types in a range that may be opened takes anything. */
  predicate NoneTakes(job: Job, remaining: seq<Piece>, before: seq<Fill>, greedy: Prober, from: nat, to: nat)
    requires to <= |job.specs|
  {
    forall k: nat :: from <= k < to && MayOpen(job, before, k) ==> greedy(|before|, remaining, k).None?
  }

  /** The sheet is what the first bin type from `from` on that may be opened and takes
      something makes of the pieces. */
  ghost predicate OpenedFirst(f: Fill, job: Job, remaining: seq<Piece>, before: seq<Fill>, greedy: Prober, from: nat) {
    exists k: nat :: && from <= k < |job.specs| && MayOpen(job, before, k)
                     && NoneTakes(job, remaining, before, greedy, from, k)
                     && greedy(|before|, remaining, k) == Some(f)
  }

  lemma {:induction false} FirstTakenIsFirst(job: Job, remaining: seq<Piece>, before: seq<Fill>, greedy: Prober, k: nat)
    requires k <= |job.specs|
    ensures var f := FirstTaken(job, remaining, before, greedy, k);
            if f.None? then NoneTakes(job, remaining, before, greedy, k, |job.specs|)
            else OpenedFirst(f.value, job, remaining, before, greedy, k)
    decreases |job.specs| - k
  {
    hide Times;
    if k < |job.specs| {
      assert MayOpen(job, before, k) <==>
             !(PassedOver(job, k) || (job.specs[k].count.Some? && Times(before, k) >= job.specs[k].count.value));
      FirstTakenIsFirst(job, remaining, before, greedy, k + 1);
    }
  }

  /** The baseline strands nothing that a bin type takes, half boards counting when there is
      nothing else, and opens each sheet of the first bin type that takes something. */
  lemma BaselineStrandsNothing(job: Job, pool: seq<Piece>, maxSheets: nat, greedy: Prober)
    ensures var s := Baseline(job, pool, maxSheets, greedy);
            && (s.unplaced == [] || |s.fills| == maxSheets
                || NoneTakes(job, s.unplaced, s.fills, greedy, 0, |job.specs|))
            && (forall i :: 0 <= i < |s.fills| ==>
                              OpenedFirst(s.fills[i], job, LeftOf(pool, s.fills[..i]), s.fills[..i], greedy, 0))
  {
    hide FirstTaken, NoneTakes, Baseline, LeftOf, OpenedFirst;
    BaselineRuns(job, pool, maxSheets, greedy);
    var s := Baseline(job, pool, maxSheets, greedy);
    FirstTakenIsFirst(job, s.unplaced, s.fills, greedy, 0);
    forall i | 0 <= i < |s.fills|
      ensures OpenedFirst(s.fills[i], job, LeftOf(pool, s.fills[..i]), s.fills[..i], greedy, 0)
    {
      FirstTakenIsFirst(job, LeftOf(pool, s.fills[..i]), s.fills[..i], greedy, 0);
    }
  }

  // ---- the search --------------------------------------------------------------------------

  /** Everything the searches of one run are free to choose. */
  datatype Choices = Choices(choose: Chooser, patience: nat, rounds: nat, restarts: nat, maxSheets: nat)

  /** A complete plan no worse than another. */
  ghost predicate Improves(s: Solution, start: Solution, pool: seq<Piece>, job: Job) {
    PlanFor(s.fills, pool, job) && s.unplaced == [] && NotWorse(ObjectiveOf(s, job), ObjectiveOf(start, job))
  }

  function RuinOf(x: Searcher, c: Choices): Ruin {
    Ruin(x.QuestFor(None), c.choose, c.maxSheets)
  }

  /** No plan the beam may put together is better. */
  ghost predicate Best(o: Objective, x: Searcher, c: Choices, pool: seq<Piece>) {
    Unbeaten(o, x.QuestFor(None), c.choose, pool, Zeros(x.job), c.maxSheets)
  }

  /** The plan is what the rounds of ruin and recreate make of one no beam beats. */
  ghost predicate Worked(s: Solution, x: Searcher, c: Choices, pool: seq<Piece>) {
    exists plans :: Found(plans, s, x, c, pool)
  }

  ghost predicate Found(plans: seq<Solution>, s: Solution, x: Searcher, c: Choices, pool: seq<Piece>) {
    plans != [] && Best(ObjectiveOf(plans[0], x.job), x, c, pool) && Refined(plans, plans[0], s, c.rounds, pool,
                                                                             RuinOf(x, c))
  }

  /** One beam and one round of repairs, never worse than where it started, and with no plan
      the beam may put together left that is better. */
  method Pipeline(x: Searcher, start: Solution, pool: seq<Piece>, bound: real, rootExact: bool, c: Choices, mem: Memory)
    returns (s: Solution, mem': Memory)
    requires x.Valid() && HonestChooser(c.choose) && pool != [] && Distinct(pool) && AllValid(pool)
    requires PlanFor(start.fills, pool, x.job) && start.unplaced == []
             && LowerBound(bound, PoolArea(pool), x.job.specs, x.job.p)
    requires AllFailed(mem.failed, RuinOf(x, c))
    modifies x
    ensures x.Valid() && Improves(s, start, pool, x.job) && AllFailed(mem'.failed, RuinOf(x, c))
    ensures Best(ObjectiveOf(s, x.job), x, c, pool) && Worked(s, x, c, pool)
  {
    hide Distinct, AllValid, LowerBound, PoolArea, ObjectiveOf, HonestChooser, Complete, Beats, AllPieces, FillSound,
         Times, Unbeaten, Went, LayersOk, ClosingTried, NoneCanWin, HonestGenerator, HonestProber, Remembers,
         x.WasAsked, Rounds, Settled, AllFailed, Cost, CostOf;
    s, mem' := start, mem;
    StockToStart(start.fills, x.job);
    var found, drop, layers, last := Search(x, pool, Zeros(x.job), c.maxSheets, None, Some(ObjectiveOf(start, x.job)),
                                            rootExact, c.choose);
    if found.Some? { s := found.value; }
    SearchUnbeaten(layers, last, x.QuestFor(None), c.choose, rootExact, ObjectiveOf(s, x.job), drop, c.maxSheets, pool,
                   Zeros(x.job));
    var optimal := ProvenOptimal(CostOf(s.fills, x.job), |s.fills|, bound, pool, x.job.specs, x.job.p);
    if optimal {
      NothingToRuin(s, c.rounds, pool, RuinOf(x, c));
      assert Found([s], s, x, c, pool);
    } else {
      var refined;
      ghost var plans;
      refined, mem', plans := Lns(x, s, pool, bound, c.rounds, c.maxSheets, rootExact, c.patience, c.choose, mem);
      BeatsTransitive(ObjectiveOf(refined, x.job), ObjectiveOf(s, x.job), ObjectiveOf(start, x.job));
      UnbeatenStays(ObjectiveOf(s, x.job), ObjectiveOf(refined, x.job), x.QuestFor(None), c.choose, pool, Zeros(x.job),
                    c.maxSheets);
      assert Found(plans, refined, x, c, pool);
      s := refined;
    }
  }

  lemma NothingToRuin(s: Solution, rounds: nat, pool: seq<Piece>, u: Ruin)
    requires !Undercut(CostOf(s.fills, u.q.job), pool, u.q.job)
    ensures Refined([s], s, s, rounds, pool, u)
  {
    hide Undercut;
  }

  lemma StockToStart(fills: seq<Fill>, job: Job)
    requires WithinStock(fills, Zeros(job), job)
    ensures WithinStock([], Zeros(job), job)
  {
    hide Times;
    NothingYet(job);
    forall k: nat | k < |job.specs| ensures Times(fills, k) >= 0 { TimesNonNegative(fills, k); }
  }

  lemma BillNotWorse(s: Solution, start: Solution, job: Job)
    requires NotWorse(ObjectiveOf(s, job), ObjectiveOf(start, job))
    ensures CostOf(s.fills, job) <= CostOf(start.fills, job)
  {
  }

  /** Fruitless restarts in a row before the search gives up. */
  const RESTART_PATIENCE: nat := 2

  /** Both openings, then seeded restarts; the best plan of them all. Unless the plan to
      start from is proven to be as cheap as any, no plan the search may put together is
      better than the answer. */
  method SearchPlan(x: Searcher, start: Solution, pool: seq<Piece>, c: Choices)
    returns (s: Solution, ghost proven: bool)
    requires x.Valid() && HonestChooser(c.choose) && pool != [] && Distinct(pool) && AllValid(pool)
    requires PlanFor(start.fills, pool, x.job) && start.unplaced == []
    modifies x
    ensures x.Valid() && Improves(s, start, pool, x.job)
    ensures proven ==> s == start && !Undercut(CostOf(start.fills, x.job), pool, x.job)
    ensures !proven ==> Best(ObjectiveOf(s, x.job), x, c, pool) && Worked(s, x, c, pool)
  {
    hide Distinct, AllValid, LowerBound, PoolArea, ObjectiveOf, HonestChooser, Complete, Beats, PlanFor, OneMaterial,
         Free, Holds, Best, Found, HonestGenerator, HonestProber, Remembers, Failed;
    var bound := CostLowerBound(PoolArea(pool), x.job.specs, x.job.p);
    s, proven := start, true;
    var optimal := ProvenOptimal(CostOf(s.fills, x.job), |s.fills|, bound, pool, x.job.specs, x.job.p);
    if optimal { return; }
    proven := false;
    var mem := Memory({}, 0);
    s, mem := Pipeline(x, start, pool, bound, true, c, mem);
    optimal := ProvenOptimal(CostOf(s.fills, x.job), |s.fills|, bound, pool, x.job.specs, x.job.p);
    if optimal { return; }
    var other;
    other, mem := Pipeline(x, start, pool, bound, false, c, mem);
    if Beats(ObjectiveOf(other, x.job), ObjectiveOf(s, x.job)) { s := other; }
    var stale := 0;
    for k := 0 to c.restarts
      invariant x.Valid() && Improves(s, start, pool, x.job)
      invariant Best(ObjectiveOf(s, x.job), x, c, pool) && Worked(s, x, c, pool)
    {
      optimal := ProvenOptimal(CostOf(s.fills, x.job), |s.fills|, bound, pool, x.job.specs, x.job.p);
      if optimal || stale >= RESTART_PATIENCE { break; }
      var alt := new Searcher(x.job, x.gen, x.probe, x.densest, x.byId);
      var again;
      again, mem := Pipeline(alt, s, pool, bound, true, c, Memory({}, mem.misses));
      BeatsTransitive(ObjectiveOf(again, x.job), ObjectiveOf(s, x.job), ObjectiveOf(start, x.job));
      StillBest(ObjectiveOf(s, x.job), ObjectiveOf(again, x.job), x, c, pool);
      AsWorked(again, alt, x, c, pool);
      stale := if Beats(ObjectiveOf(again, x.job), ObjectiveOf(s, x.job)) then 0 else stale + 1;
      s := again;
    }
  }

  lemma AsWorked(s: Solution, x: Searcher, y: Searcher, c: Choices, pool: seq<Piece>)
    requires Worked(s, x, c, pool) && x.job == y.job && x.QuestFor(None) == y.QuestFor(None)
    ensures Worked(s, y, c, pool)
  {
    hide Refined, Unbeaten, ObjectiveOf;
    var plans :| Found(plans, s, x, c, pool);
    assert Found(plans, s, y, c, pool);
  }

  lemma StillBest(o: Objective, o': Objective, x: Searcher, c: Choices, pool: seq<Piece>)
    requires Best(o, x, c, pool) && NotWorse(o', o)
    ensures Best(o', x, c, pool)
  {
    hide Unbeaten;
    UnbeatenStays(o, o', x.QuestFor(None), c.choose, pool, Zeros(x.job), c.maxSheets);
  }

  /** So the bill is at most that of any plan the search may put together. */
  lemma BestBill(s: Solution, start: Solution, proven: bool, x: Searcher, c: Choices, pool: seq<Piece>)
    requires HonestGenerator(x.gen, x.job) && HonestProber(x.probe, x.job, true)
    requires pool != [] && Distinct(pool) && AllValid(pool) && PlanFor(start.fills, pool, x.job)
    requires proven ==> s == start && !Undercut(CostOf(start.fills, x.job), pool, x.job)
    requires !proven ==> Best(ObjectiveOf(s, x.job), x, c, pool)
    ensures CheapestReached(CostOf(s.fills, x.job), x.QuestFor(None), c.choose, pool, Zeros(x.job), c.maxSheets)
  {
    hide Unbeaten, CheapestReached, HonestGenerator, HonestProber, Distinct, AllValid, Complete, Cost, CostOf,
         WithinStock, Partition;
    if proven {
      StockToStart(start.fills, x.job);
      ProvenIsCheapest(CostOf(s.fills, x.job), x.QuestFor(None), c.choose, pool, Zeros(x.job), c.maxSheets);
    } else {
      UnbeatenIsCheapest(ObjectiveOf(s, x.job), x.QuestFor(None), c.choose, pool, Zeros(x.job), c.maxSheets);
    }
  }

  // ---- everything together -------------------------------------------------------------------

  /** What the repairs of one run are given to work with. */
  datatype Helpers = Helpers(relax: Relaxer, repack: Repacker, refit: Refitter, solvable: bool,
                             lanes: int -> Option<seq<Fill>>)

  ghost predicate HonestHelpers(h: Helpers, pieces: seq<Piece>, job: Job) {
    && HonestRelaxer(h.relax, pieces, job) && HonestRepacker(h.repack, job)
    && HonestRefitter(h.refit, pieces, job)
    && forall below: int :: HonestLanes(h.lanes(below), pieces, job)
  }

  /** Whether any repair replaces the plan. */
  predicate RepairAdopted(job: Job, incumbent: seq<Fill>, pieces: seq<Piece>, h: Helpers) {
    || RelaxingHelps(job, incumbent, h.relax, h.repack)
    || HalvingHelps(job, incumbent, pieces, h.refit, h.solvable)
    || (EmptierThan(incumbent, job, LANE_PLAN_GATE)
        && LanesWin(h.lanes(CostOf(incumbent, job)), incumbent, pieces, job))
  }

  /** Whatever repairs come out sound, when the three-stage model is not asked or rounds
      nothing. */
  predicate RepairsSound(pieces: seq<Piece>, job: Job) {
    InTenths(pieces, job) || FirstUnlimited(job.specs, true, 0).None?
  }

  /** The repairs, each adopted only when it bills strictly less. */
  method Repair(job: Job, incumbent: seq<Fill>, pieces: seq<Piece>, h: Helpers)
    returns (plan: seq<Fill>, ghost repaired: bool)
    requires HonestHelpers(h, pieces, job) && AllValid(pieces) && Distinct(pieces) && NoneNegative(job.specs)
    ensures repaired <==> RepairAdopted(job, incumbent, pieces, h)
    ensures if repaired then Covers(plan, pieces) && CostOf(plan, job) < CostOf(incumbent, job) else plan == incumbent
    ensures AllSound(incumbent, job) && RepairsSound(pieces, job) ==> AllSound(plan, job)
    ensures StockSafe(job) && WithinStock(incumbent, Zeros(job), job) ==> WithinStock(plan, Zeros(job), job)
  {
    hide CostOf, AllValid, Distinct, NoneNegative, HonestRelaxer, HonestRepacker, HonestRefitter, HonestLanes,
         AllPieces, AllSound, WithinStock, InTenths, StockSafe, EmptierThan, RelaxingHelps, HalvingHelps, LanesWin;
    plan, repaired := incumbent, false;
    var recut := RelaxedKerfRepair(plan, pieces, job, h.relax, h.repack);
    if recut.Some? { plan, repaired := recut.value, true; }
    var moved := HalfRepartition(plan, pieces, job, h.refit, h.solvable);
    HalvesThere(job, plan, pieces, h.refit, h.solvable);
    if moved.Some? && CostOf(moved.value, job) < CostOf(plan, job) { plan, repaired := moved.value, true; }
    if EmptierThan(plan, job, LANE_PLAN_GATE) {
      var lanes := h.lanes(CostOf(plan, job));
      assert HonestLanes(lanes, pieces, job);
      var adopted := AdoptLanes(plan, pieces, job, lanes);
      if adopted { plan, repaired := lanes.value, true; }
    }
  }

  lemma HalvesThere(job: Job, incumbent: seq<Fill>, pieces: seq<Piece>, refit: Refitter, solvable: bool)
    ensures HalvingHelps(job, incumbent, pieces, refit, solvable) ==>
              HalvingAsked(job, pieces, solvable) && FirstUnlimited(job.specs, true, 0).Some?
  {
    hide EmptierThan, Steps;
  }

  predicate FitsSpec(p: Piece, s: BinSpec, g: Params) {
    FitsPiece(Box(0, 0, s.width - g.left - g.right, s.height - g.top - g.bottom), p)
  }

  predicate FitsSome(p: Piece, job: Job) {
    exists s :: s in job.specs && FitsSpec(p, s, job.p)
  }

  /** The pieces that fit some bin type, and those that fit none. */
  function Placeable(pool: seq<Piece>, job: Job, some: bool): (r: seq<Piece>)
    ensures forall p :: p in r ==> p in pool && FitsSome(p, job) == some
  {
    if pool == [] then []
    else Placeable(pool[..|pool|-1], job, some) + if FitsSome(pool[|pool|-1], job) == some then [pool[|pool|-1]] else []
  }

  lemma PlaceableLast(pool: seq<Piece>, job: Job, some: bool)
    requires pool != []
    ensures var rest, last := Placeable(pool[..|pool|-1], job, some), pool[|pool|-1];
            Placeable(pool, job, some) == if FitsSome(last, job) == some then rest + [last] else rest
  {
    hide FitsSome;
  }

  lemma OneOnEitherSide<T>(a: seq<T>, b: seq<T>, all: seq<T>, x: T)
    requires multiset(a) + multiset(b) == multiset(all)
    ensures multiset(a + [x]) + multiset(b) == multiset(all + [x]) == multiset(a) + multiset(b + [x])
  {
  }

  lemma {:induction false} PlaceableSplits(pool: seq<Piece>, job: Job)
    ensures multiset(Placeable(pool, job, true)) + multiset(Placeable(pool, job, false)) == multiset(pool)
  {
    hide FitsSome, Placeable;
    if pool == [] {
      NonePlaceable(job);
    } else {
      var init, last := pool[..|pool|-1], pool[|pool|-1];
      PlaceableSplits(init, job);
      PlaceableLast(pool, job, true);
      PlaceableLast(pool, job, false);
      assert pool == init + [last];
      OneOnEitherSide(Placeable(init, job, true), Placeable(init, job, false), init, last);
    }
  }

  lemma NonePlaceable(job: Job)
    ensures Placeable([], job, true) == [] && Placeable([], job, false) == []
  {
  }

  /** The pieces the baseline has no room for are laid out by a repair after all, and
      reported as left over too. */
  predicate CountsTwice(job: Job, gen: Generator, probe: Prober, ask: nat, pool: seq<Piece>, maxSheets: nat,
                        greedy: Prober, repair: bool, h: Helpers) {
    var pieces := Placeable(pool, job, true);
    var start := Baseline(job, pieces, maxSheets, greedy);
    repair && start.unplaced != [] && RepairAdopted(job, HalvedPlan(job, gen, probe, start.fills, ask), pieces, h)
  }

  /** One run.

      Every sheet is sound, unless the three-stage model is asked about lengths it rounds;
      no bin type is overdrawn, unless half boards are limited; and the bill is never above
      the greedy baseline's, nor, when that strands nothing, above that of any plan the search
      may put together. Unplaced are the pieces that fit nowhere and those the
      baseline strands. Every piece ends on exactly one sheet or among the unplaced,
      except in two cases: without bin types the pieces are lost, and when the baseline
      strands pieces and a repair is adopted, which lays out all pieces, the stranded ones
      are counted twice. */
  method Optimize(x: Searcher, pool: seq<Piece>, greedy: Prober, c: Choices, repair: bool, h: Helpers)
    returns (fills: seq<Fill>, unplaced: seq<Piece>)
    requires x.Valid() && HonestProber(greedy, x.job, false) && HonestChooser(c.choose)
    requires Distinct(pool) && AllValid(pool) && (repair ==> HonestHelpers(h, Placeable(pool, x.job, true), x.job))
    modifies x
    ensures x.Valid()
    ensures !repair || RepairsSound(Placeable(pool, x.job, true), x.job) ==> AllSound(fills, x.job)
    ensures StockSafe(x.job) ==> WithinStock(fills, Zeros(x.job), x.job)
    ensures var start := Baseline(x.job, Placeable(pool, x.job, true), c.maxSheets, greedy);
            && CostOf(fills, x.job) <= CostOf(start.fills, x.job)
            && (if pool == [] || x.job.specs == [] then fills == [] && unplaced == []
                else
                  && unplaced == Placeable(pool, x.job, false) + start.unplaced
                  && (Covers(fills, Placeable(pool, x.job, true))
                      || multiset(AllPieces(fills)) + multiset(start.unplaced) ==
                      multiset(Placeable(pool, x.job, true))))
    ensures var pieces := Placeable(pool, x.job, true);
            pieces != [] && Baseline(x.job, pieces, c.maxSheets, greedy).unplaced == [] ==>
              CheapestReached(CostOf(fills, x.job), x.QuestFor(None), c.choose, pieces, Zeros(x.job), c.maxSheets)
    ensures multiset(AllPieces(fills)) + multiset(unplaced) == multiset(pool) <==>
            && (pool == [] || x.job.specs != [])
            && !CountsTwice(x.job, x.gen, x.probe, old(x.asks), pool, c.maxSheets, greedy, repair, h)
  {
    hide Distinct, AllValid, HonestChooser, HonestProber, AllPieces, CostOf, FillSound, HonestHelpers, Sequential,
         ObjectiveOf, FitsSome, Placeable, StockSafe, WithinStock, NoneNegative, IsOrder, Remembers, HonestGenerator,
         SequentialRun, RepairAdopted, HalvedPlan, RepairsSound, Best, Undercut, CheapestReached, x.WasAsked;
    var pieces, misfits := Placeable(pool, x.job, true), Placeable(pool, x.job, false);
    PlaceableSplits(pool, x.job);
    SubpoolDistinct(pieces, pool);
    SubpoolValid(pieces, pool);
    fills, unplaced := [], [];
    NothingYet(x.job);
    NoStock(x.job);
    if pool == [] || x.job.specs == [] {
      NothingToPlace(x.job, pool, c.maxSheets, greedy);
      return;
    }
    if pieces == [] {
      NothingAtAll(x.job, c.maxSheets, greedy);
      unplaced := misfits;
      return;
    }
    var baseline, rest := SequentialFill(x.job, pieces, c.maxSheets, greedy);
    var s := Solution(baseline, rest);
    if rest == [] {
      PartitionDone(baseline, pieces, rest, x.job);
      ghost var proven;
      s, proven := SearchPlan(x, s, pieces, c);
      BillNotWorse(s, Solution(baseline, rest), x.job);
      BestBill(s, Solution(baseline, rest), proven, x, c, pieces);
    }
    PlacedValid(s.fills, rest, pieces);
    var t := HalfDowngrade(x, s, AllPieces(s.fills));
    fills := t.fills;
    ghost var done := false;
    if repair {
      var plan;
      plan, done := Repair(x.job, fills, pieces, h);
      fills := plan;
    }
    unplaced := misfits + rest;
    if rest == [] {
      CheapestStays(CostOf(s.fills, x.job), CostOf(fills, x.job), x.QuestFor(None), c.choose, pieces, Zeros(x.job),
                    c.maxSheets);
    }
    Accounted(multiset(AllPieces(fills)), multiset(pieces), multiset(misfits), rest, multiset(pool), done);
  }

  lemma NothingToPlace(job: Job, pool: seq<Piece>, maxSheets: nat, greedy: Prober)
    requires pool == [] || job.specs == []
    ensures Baseline(job, Placeable(pool, job, true), maxSheets, greedy).fills == []
    ensures Placeable(pool, job, true) == []
    ensures pool == [] ==> Baseline(job, Placeable(pool, job, true), maxSheets, greedy).unplaced == []
  {
    if pool == [] { NonePlaceable(job); }
    if Placeable(pool, job, true) != [] {
      assert Placeable(pool, job, true)[0] in Placeable(pool, job, true);
    }
  }

  lemma NothingAtAll(job: Job, maxSheets: nat, greedy: Prober)
    ensures Baseline(job, [], maxSheets, greedy) == Solution([], [])
  {
  }

  lemma PlacedValid(fills: seq<Fill>, rest: seq<Piece>, pieces: seq<Piece>)
    requires AllValid(pieces) && multiset(AllPieces(fills)) + multiset(rest) == multiset(pieces)
    ensures AllValid(AllPieces(fills))
  {
    hide AllPieces, AllValid;
    SubpoolValid(AllPieces(fills), pieces);
  }

  lemma NoStock(job: Job)
    ensures WithinStock([], Zeros(job), job)
  {
  }

  /** The books balance exactly when nothing stranded was placed after all. */
  lemma Accounted(placed: multiset<Piece>, pieces: multiset<Piece>, misfits: multiset<Piece>, rest: seq<Piece>,
                  pool: multiset<Piece>, repaired: bool)
    requires pieces + misfits == pool
    requires if repaired then placed == pieces else placed + multiset(rest) == pieces
    ensures placed + (misfits + multiset(rest)) == pool <==> rest == [] || !repaired
  {
    if repaired && rest != [] {
      assert rest[0] in multiset(rest);
      assert (placed + (misfits + multiset(rest)))[rest[0]] == pool[rest[0]] + multiset(rest)[rest[0]];
    }
  }
}
