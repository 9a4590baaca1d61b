/**
What the beam of search.py finds when it gives up nothing on its width: at least as good
a plan as any that can be put together from the fills it tries.
*/
module BeamReach {
  import opened Geometry
  import opened Plans
  import opened Sequences
  import opened Sheets
  import Strips
  import opened Constructors
  import opened Bounds
  import opened SearchPlans
  import opened Incumbents
  import opened Searching
  import opened Beam

  /** A generator that proposes the same fills whenever it is asked. */
  ghost predicate Steady(gen: Generator) {
    forall ask: nat, again: nat, pool: seq<Piece>, k: nat :: gen(ask, pool, k) == gen(again, pool, k)
  }

  /** A beam wide enough to keep every state. */
  ghost predicate KeepsAll(choose: Chooser) {
    forall ask: nat, states: seq<State>, s: State :: s in states ==> s in choose(ask, states)
  }

  /** Fills proposed one after the other, each of a bin type open by then, that use up the
      pool. */
  ghost predicate Composed(s: State, fills: seq<Fill>, gen: Generator, job: Job)
    decreases |fills|
  {
    if s.pool == [] then fills == []
    else
      && fills != [] && Openable(fills[0].kind, s.used, PoolArea(s.pool), job)
         && fills[0] in gen(0, s.pool, fills[0].kind)
      && Composed(AfterFill(s, fills[0], job), fills[1..], gen, job)
  }

  lemma ComposedNext(s: State, fills: seq<Fill>, gen: Generator, job: Job)
    requires s.pool != [] && Composed(s, fills, gen, job)
    ensures fills != [] && fills[0].kind < |job.specs| && fills[0].kind < |s.used|
    ensures Openable(fills[0].kind, s.used, PoolArea(s.pool), job) && InStock(fills[0].kind, s.used, job)
    ensures fills[0] in gen(0, s.pool, fills[0].kind)
    ensures Composed(AfterFill(s, fills[0], job), fills[1..], gen, job)
  {
    hide PoolArea, SheetArea, AfterFill;
  }

  lemma ComposedDone(s: State, fills: seq<Fill>, gen: Generator, job: Job)
    requires s.pool == [] && Composed(s, fills, gen, job)
    ensures fills == []
  {
  }

  /** The state after the first of composed fills. */
  lemma FirstStep(s: State, fills: seq<Fill>, gen: Generator, pieces: seq<Piece>, base: seq<nat>, job: Job)
    requires StateOk(s, pieces, base, job) && HonestGenerator(gen, job) && Composed(s, fills, gen, job)
    ensures fills != [] && fills[0].kind < |job.specs| && fills[0].kind < |s.used| && FillOk(fills[0], s.pool, job)
    ensures var t := AfterFill(s, fills[0], job);
            && (t.pool != [] ==> StateOk(t, pieces, base, job)) && t.fills == s.fills + [fills[0]]
            && multiset(t.pool) + multiset(PlacedIn(fills[0])) == multiset(s.pool)
  {
    hide FillOk, PoolArea, SheetArea, InStock, AfterFill, Openable, Follows;
    assert s.pool != [] && Distinct(s.pool) && AllValid(s.pool);
    ComposedNext(s, fills, gen, job);
    var f := fills[0];
    StateAfter(s, f, Rest(s, f), pieces, base, job);
    RestOfPool(s.pool, f, Rest(s, f), job);
    AfterFillIs(s, f, job);
  }

  function Rest(s: State, f: Fill): seq<Piece> {
    Strips.DropPlaced(s.pool, f.sheet.placed)
  }

  lemma AfterFillIs(s: State, f: Fill, job: Job)
    requires f.kind < |job.specs| && f.kind < |s.used|
    ensures AfterFill(s, f, job).pool == Rest(s, f) && AfterFill(s, f, job).fills == s.fills + [f]
  {
  }

  /** Composed fills are a plan for the pool. */
  lemma {:induction false} ComposedPartition(s: State, fills: seq<Fill>, gen: Generator, pieces: seq<Piece>,
                                             base: seq<nat>, job: Job)
    requires StateOk(s, pieces, base, job) && HonestGenerator(gen, job) && Composed(s, fills, gen, job)
    ensures Partition(fills, s.pool, job)
    decreases |fills|
  {
    hide StateOk, HonestGenerator, Composed, FillSound, PlacedIn, AfterFill;
    FirstStep(s, fills, gen, pieces, base, job);
    assert s.pool != [] by { StateNotDone(s, pieces, base, job); }
    ComposedNext(s, fills, gen, job);
    var t, rest := AfterFill(s, fills[0], job), fills[1..];
    if t.pool == [] {
      ComposedDone(t, rest, gen, job);
      NoFillsNoPieces();
    } else {
      ComposedPartition(t, rest, gen, pieces, base, job);
    }
    assert fills == [fills[0]] + rest;
    AllPiecesConcat([fills[0]], rest);
    NoFillsNoPieces();
    AllPiecesLast([], fills[0]);
    assert [] + [fills[0]] == [fills[0]];
  }

  lemma StateNotDone(s: State, pieces: seq<Piece>, base: seq<nat>, job: Job)
    requires StateOk(s, pieces, base, job)
    ensures s.pool != [] && s.cost == CostOf(s.fills, job)
  {
  }

  /** A plan that completes a state given up is no better than the bar. */
  lemma GivenUp(t: State, rest: seq<Fill>, bar: Objective, pieces: seq<Piece>, base: seq<nat>, job: Job)
    requires StateOk(t, pieces, base, job) && Partition(rest, t.pool, job)
    requires CannotWin(Dropped(t.pool, t.cost, |t.fills|), bar, job)
    ensures NotWorse(bar, ObjectiveOf(Solution(t.fills + rest, []), job))
  {
    hide StateOk, Partition, Complete, SumBy;
    StateNotDone(t, pieces, base, job);
    PartitionIsComplete(rest, t.pool, job);
    SumByConcat(CostIn(job), t.fills, rest);
    assert |SpecsOf(OpenedIn(rest, job))| == |rest|;
  }

  ghost function FrontierAt(layers: seq<Layer>, last: seq<State>, d: nat): seq<State>
    requires d <= |layers|
  {
    if d < |layers| then layers[d].frontier else last
  }

  lemma KeptNext(layers: seq<Layer>, last: seq<State>, start: State, q: Quest, choose: Chooser, rootExact: bool,
                 bar: Option<Objective>, drop: seq<Dropped>, d: nat, t: State)
    requires Went(layers, last, start, q, choose, rootExact, bar, drop) && KeepsAll(choose)
    requires d < |layers| && t in layers[d].reached
    ensures t in FrontierAt(layers, last, d + 1)
  {
    hide AllExplored;
    assert Chosen(choose, layers[d].reached, FrontierAt(layers, last, d + 1));
  }

  /** One fill tried from a state the search kept. */
  lemma StepAccounted(layers: seq<Layer>, last: seq<State>, start: State, q: Quest, choose: Chooser, rootExact: bool,
                      bar: Option<Objective>, drop: seq<Dropped>, d: nat, s: State, f: Fill)
    requires Went(layers, last, start, q, choose, rootExact, bar, drop) && Steady(q.gen)
    requires d < |layers| && s in layers[d].frontier && Openable(f.kind, s.used, PoolArea(s.pool), q.job)
    requires f in q.gen(0, s.pool, f.kind)
    ensures f.kind < |q.job.specs| && f.kind < |s.used|
            && Accounted(q, AfterFill(s, f, q.job), bar, layers[d].reached, drop)
  {
    hide Accounted, AfterFill, PoolArea, Openable;
    var k, root, next := f.kind, rootExact && d == 0, layers[d].reached;
    assert AllExplored(q, layers[d].frontier, root, bar, next, drop);
    assert Explored(q, s, k, root, bar, next, drop);
    var fills :| Tried(q.gen, q.densest, s.pool, k, root, fills) && AllAccounted(q, s, k, fills, bar, next, drop);
    var ask, again :| fills == q.gen(ask, s.pool, k) + if root then Found(q.densest(again, s.pool, k)) else [];
    assert q.gen(ask, s.pool, k) == q.gen(0, s.pool, k);
  }

  lemma {:induction false} ReachesAll(layers: seq<Layer>, last: seq<State>, start: State, q: Quest, choose: Chooser,
                                      rootExact: bool, bar: Option<Objective>, drop: seq<Dropped>, cap: nat, d: nat,
                                      s: State, fills: seq<Fill>, pieces: seq<Piece>, base: seq<nat>)
    requires Went(layers, last, start, q, choose, rootExact, bar, drop) && NoneCanWin(drop, bar, q.job)
    requires Steady(q.gen) && KeepsAll(choose) && HonestGenerator(q.gen, q.job)
    requires |layers| <= cap && (|layers| < cap ==> last == []) && d <= |layers| && s in FrontierAt(layers, last, d)
    requires StateOk(s, pieces, base, q.job) && Composed(s, fills, q.gen, q.job) && d + |fills| <= cap
    ensures bar.Some? && NotWorse(bar.value, ObjectiveOf(Solution(s.fills + fills, []), q.job))
    decreases |fills|
  {
    hide Went, StateOk, Composed, ObjectiveOf, NotWorse, AfterFill, HonestGenerator, Steady, KeepsAll, Openable,
         CannotWin, Partition, FillOk;
    FirstStep(s, fills, q.gen, pieces, base, q.job);
    StateNotDone(s, pieces, base, q.job);
    ComposedNext(s, fills, q.gen, q.job);
    var f, rest := fills[0], fills[1..];
    var t := AfterFill(s, f, q.job);
    StepAccounted(layers, last, start, q, choose, rootExact, bar, drop, d, s, f);
    assert s.fills + fills == t.fills + rest;
    if t.pool == [] {
      ComposedDone(t, rest, q.gen, q.job);
      assert t.fills + rest == t.fills;
    } else if t in layers[d].reached {
      KeptNext(layers, last, start, q, choose, rootExact, bar, drop, d, t);
      ReachesAll(layers, last, start, q, choose, rootExact, bar, drop, cap, d + 1, t, rest, pieces, base);
    } else {
      ComposedPartition(t, rest, q.gen, pieces, base, q.job);
      GivenUp(t, rest, bar.value, pieces, base, q.job);
    }
  }

  /** With a steady generator and a beam that keeps everything, no plan put together from
      proposed fills within the limit on bins is better than the answer. */
  lemma BeamIsExhaustive(layers: seq<Layer>, last: seq<State>, q: Quest, choose: Chooser, rootExact: bool,
                         bar: Option<Objective>, drop: seq<Dropped>, cap: nat, pieces: seq<Piece>, base: seq<nat>,
                         fills: seq<Fill>)
    requires pieces != [] && Distinct(pieces) && AllValid(pieces) && WithinStock([], base, q.job)
             && |base| == |q.job.specs|
    requires Went(layers, last, State(pieces, [], base, 0), q, choose, rootExact, bar, drop)
    requires NoneCanWin(drop, bar, q.job) && |layers| <= cap && (|layers| < cap ==> last == [])
    requires Steady(q.gen) && KeepsAll(choose) && HonestGenerator(q.gen, q.job)
    requires Composed(State(pieces, [], base, 0), fills, q.gen, q.job) && |fills| <= cap
    ensures Partition(fills, pieces, q.job)
    ensures bar.Some? && NotWorse(bar.value, ObjectiveOf(Solution(fills, []), q.job))
  {
    hide StateOk, Composed, ObjectiveOf, NotWorse, HonestGenerator, Steady, KeepsAll, AllExplored, Chosen, Partition,
         WithinStock, Distinct, AllValid, NoneCanWin;
    var start := State(pieces, [], base, 0);
    StartOk(pieces, base, q.job);
    ComposedPartition(start, fills, q.gen, pieces, base, q.job);
    assert start in FrontierAt(layers, last, 0);
    ReachesAll(layers, last, start, q, choose, rootExact, bar, drop, cap, 0, start, fills, pieces, base);
    assert [] + fills == fills;
  }
}
