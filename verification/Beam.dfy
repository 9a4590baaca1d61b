/**
The beam search over partitions: `_Searcher.beam` of search.py.
*/
module Beam {
  import opened Geometry
  import opened Plans
  import opened Sequences
  import opened Sheets
  import opened Constructors
  import opened Bounds
  import opened SearchPlans
  import opened Incumbents
  import opened Searching

  /** How the frontier is deduplicated, ranked and cut to the beam's width: any choice
      among the states reached. */
  type Chooser = (nat, seq<State>) -> seq<State>

  ghost predicate HonestChooser(choose: Chooser) {
    forall ask: nat, states: seq<State>, s: State :: s in choose(ask, states) ==> s in states
  }

  ghost predicate AllOk(states: seq<State>, pieces: seq<Piece>, base: seq<nat>, job: Job) {
    forall s :: s in states ==> StateOk(s, pieces, base, job)
  }

  lemma NoneCanWinJoin(a: seq<Dropped>, b: seq<Dropped>, bar: Option<Objective>, job: Job)
    requires NoneCanWin(a, bar, job) && NoneCanWin(b, bar, job)
    ensures NoneCanWin(a + b, bar, job)
  {
    hide CannotWin;
  }

  lemma LowersTransitive(a: Option<Objective>, b: Option<Objective>, c: Option<Objective>)
    requires Lowers(a, b) && Lowers(b, c)
    ensures Lowers(a, c)
  {
    if c.Some? { BeatsTransitive(a.value, b.value, c.value); }
  }

  lemma StateFits(s: State, pieces: seq<Piece>, base: seq<nat>, job: Job)
    requires StateOk(s, pieces, base, job)
    ensures |s.used| == |job.specs| && AllValid(s.pool)
  {
  }

  /** The fills tried for one bin type: the generated ones, and at the first move the
      densest. */
  method Candidates(x: Searcher, s: State, k: nat, root: bool) returns (fills: seq<Fill>)
    requires x.Valid() && k < |x.job.specs| && AllValid(s.pool)
    modifies x`asks
    ensures x.Valid()
    ensures forall f :: f in fills ==> f.kind == k && FillOk(f, s.pool, x.job)
    ensures Tried(x.gen, x.densest, s.pool, k, root, fills)
  {
    hide FillOk, Remembers, NoneNegative, IsOrder, AllValid;
    ghost var ask := x.asks;
    var generated := x.gen(x.asks, s.pool, k);
    x.asks := x.asks + 1;
    fills := generated + [];
    if root {
      var dense := x.densest(x.asks, s.pool, k);
      x.asks := x.asks + 1;
      fills := generated + Found(dense);
    }
    assert fills == x.gen(ask, s.pool, k) + if root then Found(x.densest(ask + 1, s.pool, k)) else [];
  }

  function Found(f: Option<Fill>): seq<Fill> {
    if f.Some? then [f.value] else []
  }

  /** The fills asked for: what the generator proposes, and at the first move the densest. */
  ghost predicate Tried(gen: Generator, densest: Prober, pool: seq<Piece>, k: nat, root: bool, fills: seq<Fill>) {
    exists ask, again :: fills == gen(ask, pool, k) + if root then Found(densest(again, pool, k)) else []
  }

  /** In stock, and half boards only near the end of the job. */
  predicate Openable(k: nat, used: seq<nat>, area: int, job: Job) {
    InStock(k, used, job) && (job.specs[k].half ==> 4 * area <= 5 * SheetArea(job.specs[k], job.p))
  }

  /** One bin type of one state was tried, and everything it leads to is accounted for. */
  ghost predicate Explored(q: Quest, s: State, k: nat, root: bool, bar: Option<Objective>, next: seq<State>,
                           drop: seq<Dropped>) {
    && k < |q.job.specs| && k < |s.used|
    && exists fills :: Tried(q.gen, q.densest, s.pool, k, root, fills) && AllAccounted(q, s, k, fills, bar, next, drop)
  }

  /** The states of one depth, every bin type open to them. */
  ghost predicate AllExplored(q: Quest, frontier: seq<State>, root: bool, bar: Option<Objective>, next: seq<State>,
                              drop: seq<Dropped>) {
    forall s, k: nat :: s in frontier && Openable(k, s.used, PoolArea(s.pool), q.job) ==>
      Explored(q, s, k, root, bar, next, drop)
  }

  lemma ExploredLater(q: Quest, s: State, k: nat, root: bool, bar: Option<Objective>, next: seq<State>,
                      drop: seq<Dropped>, bar': Option<Objective>, next': seq<State>, drop': seq<Dropped>)
    requires Explored(q, s, k, root, bar, next, drop) && Lowers(bar', bar)
    requires (forall t :: t in next ==> t in next') && (forall d :: d in drop ==> d in drop')
    ensures Explored(q, s, k, root, bar', next', drop')
  {
    hide AllAccounted, Tried, Lowers;
    var fills :| Tried(q.gen, q.densest, s.pool, k, root, fills) && AllAccounted(q, s, k, fills, bar, next, drop);
    AllAccountedLater(q, s, k, fills, bar, next, drop, bar', next', drop');
  }

  lemma AllExploredLater(q: Quest, frontier: seq<State>, root: bool, bar: Option<Objective>, next: seq<State>,
                         drop: seq<Dropped>, bar': Option<Objective>, next': seq<State>, drop': seq<Dropped>)
    requires AllExplored(q, frontier, root, bar, next, drop) && Lowers(bar', bar)
    requires (forall t :: t in next ==> t in next') && (forall d :: d in drop ==> d in drop')
    ensures AllExplored(q, frontier, root, bar', next', drop')
  {
    hide Explored, Openable, Lowers, PoolArea;
    forall s, k: nat | s in frontier && Openable(k, s.used, PoolArea(s.pool), q.job)
      ensures Explored(q, s, k, root, bar', next', drop')
    {
      ExploredLater(q, s, k, root, bar, next, drop, bar', next', drop');
    }
  }

  /** Everything one state leads to. */
  method Expand(x: Searcher, s: State, root: bool, largest: int, maxBins: Option<nat>, now: Incumbent,
                ghost upper: Option<Objective>, ghost pieces: seq<Piece>, ghost base: seq<nat>)
    returns (after: Incumbent, next: seq<State>, ghost drop: seq<Dropped>)
    requires x.Valid() && StateOk(s, pieces, base, x.job) && IncumbentOk(now, upper, pieces, base, x.job)
    requires HoldsAny(largest, x.job)
    modifies x
    ensures x.Valid() && IncumbentOk(after, upper, pieces, base, x.job) && Lowers(after.bar, now.bar)
    ensures AllOk(next, pieces, base, x.job) && NoneCanWin(drop, after.bar, x.job)
    ensures AllExplored(x.QuestFor(maxBins), [s], root, after.bar, next, drop)
  {
    hide StateOk, IncumbentOk, FillOk, NoneCanWin, AllValid, NotWorse, PoolArea, SheetArea, InStock, Explored, Tried,
         AllAccounted, Lowers;
    after, next, drop := now, [], [];
    StateFits(s, pieces, base, x.job);
    var area := PoolArea(s.pool);
    var open := x.OpenSpecs(s.used, area);
    NoneCanWinNothing(after.bar, x.job);
    LowersSelf(after.bar);
    for i := 0 to |open|
      invariant x.Valid() && IncumbentOk(after, upper, pieces, base, x.job) && Lowers(after.bar, now.bar)
      invariant AllOk(next, pieces, base, x.job) && NoneCanWin(drop, after.bar, x.job)
      invariant forall j :: 0 <= j < i ==> Explored(x.QuestFor(maxBins), s, open[j], root, after.bar, next, drop)
    {
      var k := open[i];
      assert k in open && InStock(k, s.used, x.job);
      StockIsSpec(k, s.used, x.job);
      var fills := Candidates(x, s, k, root);
      var after', next', drop' := TryFills(x, s, k, fills, area, largest, maxBins, after, upper, pieces, base);
      NoneCanWinLower(drop, after.bar, after'.bar, x.job);
      LowersTransitive(after'.bar, after.bar, now.bar);
      NoneCanWinJoin(drop, drop', after'.bar, x.job);
      OneMoreExplored(x.QuestFor(maxBins), s, open[..i], k, fills, root, after.bar, next, drop, after'.bar, next',
                      drop');
      after, next, drop := after', next + next', drop + drop';
    }
    forall k: nat | Openable(k, s.used, PoolArea(s.pool), x.job)
      ensures Explored(x.QuestFor(maxBins), s, k, root, after.bar, next, drop)
    {
      assert k in open;
    }
  }

  lemma OneMoreExplored(q: Quest, s: State, open: seq<nat>, k: nat, fills: seq<Fill>, root: bool,
                        bar: Option<Objective>, next: seq<State>, drop: seq<Dropped>, bar': Option<Objective>,
                        more: seq<State>, drop': seq<Dropped>)
    requires forall j :: 0 <= j < |open| ==> Explored(q, s, open[j], root, bar, next, drop)
    requires Lowers(bar', bar) && k < |q.job.specs| && k < |s.used|
    requires Tried(q.gen, q.densest, s.pool, k, root, fills) && AllAccounted(q, s, k, fills, bar', more, drop')
    ensures forall j ::
            0 <= j < |open| ==> Explored(q, s, open[j], root, bar', next + more, drop + drop')
    ensures Explored(q, s, k, root, bar', next + more, drop + drop')
  {
    hide AllAccounted, Tried, Lowers;
    LowersSelf(bar');
    AllAccountedLater(q, s, k, fills, bar', more, drop', bar', next + more, drop + drop');
    hide Explored;
    forall j | 0 <= j < |open| ensures Explored(q, s, open[j], root, bar', next + more, drop + drop') {
      ExploredLater(q, s, open[j], root, bar, next, drop, bar', next + more, drop + drop');
    }
  }

  lemma LowersSelf(a: Option<Objective>)
    ensures Lowers(a, a)
  {
  }

  lemma NoneCanWinNothing(bar: Option<Objective>, job: Job)
    ensures NoneCanWin([], bar, job)
  {
  }

  method TryFills(x: Searcher, s: State, k: nat, fills: seq<Fill>, area: int, largest: int, maxBins: Option<nat>,
                  now: Incumbent, ghost upper: Option<Objective>, ghost pieces: seq<Piece>, ghost base: seq<nat>)
    returns (after: Incumbent, next: seq<State>, ghost drop: seq<Dropped>)
    requires x.Valid() && StateOk(s, pieces, base, x.job) && IncumbentOk(now, upper, pieces, base, x.job)
    requires InStock(k, s.used, x.job) && area == PoolArea(s.pool)
    requires (forall f :: f in fills ==> f.kind == k && FillOk(f, s.pool, x.job)) && HoldsAny(largest, x.job)
    modifies x
    ensures x.Valid() && IncumbentOk(after, upper, pieces, base, x.job) && Lowers(after.bar, now.bar)
    ensures AllOk(next, pieces, base, x.job) && NoneCanWin(drop, after.bar, x.job)
    ensures AllAccounted(x.QuestFor(maxBins), s, k, fills, after.bar, next, drop)
  {
    hide StateOk, IncumbentOk, FillOk, NoneCanWin, NotWorse, PoolArea, InStock, Lowers, Accounted, AfterFill;
    after, next, drop := now, [], [];
    StockIsSpec(k, s.used, x.job);
    assert k < |s.used| by { StateFits(s, pieces, base, x.job); }
    NoneCanWinNothing(after.bar, x.job);
    LowersSelf(after.bar);
    for i := 0 to |fills|
      invariant x.Valid() && IncumbentOk(after, upper, pieces, base, x.job) && Lowers(after.bar, now.bar)
      invariant AllOk(next, pieces, base, x.job) && NoneCanWin(drop, after.bar, x.job)
      invariant AllAccounted(x.QuestFor(maxBins), s, k, fills[..i], after.bar, next, drop)
    {
      var f := fills[i];
      assert f in fills;
      var after', t, drop' := x.TryFill(s, k, f, area, largest, maxBins, after, upper, pieces, base);
      NoneCanWinLower(drop, after.bar, after'.bar, x.job);
      LowersTransitive(after'.bar, after.bar, now.bar);
      NoneCanWinJoin(drop, drop', after'.bar, x.job);
      var more := if t.Some? then next + [t.value] else next;
      OneMoreAccounted(x.QuestFor(maxBins), s, k, fills[..i], f, after.bar, next, drop, after'.bar,
                       if t.Some? then [t.value] else [], drop');
      assert fills[..i] + [f] == fills[..i+1];
      assert next + (if t.Some? then [t.value] else []) == more;
      after, next, drop := after', more, drop + drop';
    }
    assert fills[..|fills|] == fills;
  }

  /** Where each of these fills leads is accounted for. */
  ghost predicate AllAccounted(q: Quest, s: State, k: nat, fills: seq<Fill>, bar: Option<Objective>, next: seq<State>,
                               drop: seq<Dropped>)
    requires k < |q.job.specs| && k < |s.used|
  {
    forall f :: f in fills ==> f.kind == k && Accounted(q, AfterFill(s, f, q.job), bar, next, drop)
  }

  lemma AllAccountedLater(q: Quest, s: State, k: nat, fills: seq<Fill>, bar: Option<Objective>, next: seq<State>,
                          drop: seq<Dropped>, bar': Option<Objective>, next': seq<State>, drop': seq<Dropped>)
    requires k < |q.job.specs| && k < |s.used| && AllAccounted(q, s, k, fills, bar, next, drop) && Lowers(bar', bar)
    requires (forall t :: t in next ==> t in next') && (forall d :: d in drop ==> d in drop')
    ensures AllAccounted(q, s, k, fills, bar', next', drop')
  {
    hide Accounted, AfterFill, Lowers;
    forall f | f in fills ensures Accounted(q, AfterFill(s, f, q.job), bar', next', drop') {
      AccountedLater(q, AfterFill(s, f, q.job), bar, next, drop, bar', next', drop');
    }
  }

  lemma OneMoreAccounted(q: Quest, s: State, k: nat, fills: seq<Fill>, f: Fill, bar: Option<Objective>,
                         next: seq<State>, drop: seq<Dropped>, bar': Option<Objective>, more: seq<State>,
                         drop': seq<Dropped>)
    requires k < |q.job.specs| && k < |s.used| && AllAccounted(q, s, k, fills, bar, next, drop) && Lowers(bar', bar)
    requires f.kind == k && Accounted(q, AfterFill(s, f, q.job), bar', more, drop')
    ensures AllAccounted(q, s, k, fills + [f], bar', next + more, drop + drop')
  {
    hide Accounted, AfterFill, Lowers;
    AllAccountedLater(q, s, k, fills, bar, next, drop, bar', next + more, drop + drop');
    assert Lowers(bar', bar') by { LowersSelf(bar'); }
    AccountedLater(q, AfterFill(s, f, q.job), bar', more, drop', bar', next + more, drop + drop');
  }

  function LargestSheet(specs: seq<BinSpec>, p: Params): int {
    if specs == [] then 0 else Max(LargestSheet(specs[..|specs|-1], p), SheetArea(specs[|specs|-1], p))
  }

  lemma {:induction false} LargestIsLargest(job: Job, n: nat)
    requires n <= |job.specs|
    ensures forall k: nat :: k < n ==> SheetArea(job.specs[k], job.p) <= LargestSheet(job.specs[..n], job.p)
  {
    hide SheetArea;
    if n > 0 {
      LargestIsLargest(job, n - 1);
      assert job.specs[..n][..n-1] == job.specs[..n-1];
    }
  }

  lemma LargestHoldsAny(job: Job)
    ensures HoldsAny(LargestSheet(job.specs, job.p), job)
  {
    LargestIsLargest(job, |job.specs|);
    assert job.specs[..|job.specs|] == job.specs;
  }

  /** Before the search: the whole pool in one bin, the cheapest that always takes it at
      most. */
  method TrySingle(x: Searcher, pieces: seq<Piece>, base: seq<nat>, upper: Option<Objective>,
                   ghost maxBins: Option<nat>)
    returns (now: Incumbent)
    requires x.Valid() && |base| == |x.job.specs| && AllValid(pieces)
    requires StateOk(State(pieces, [], base, 0), pieces, base, x.job)
    modifies x
    ensures x.Valid() && IncumbentOk(now, upper, pieces, base, x.job)
    ensures ClosingTried(x.QuestFor(maxBins), State(pieces, [], base, 0), now.bar)
  {
    hide StateOk, AllValid, ObjectiveOf, Partition, WithinStock, Beats, Register, Closes, ClosingTried,
         x.ClosesForLeast;
    var start := State(pieces, [], base, 0);
    now := Incumbent(None, upper);
    var single := x.CompleteProbe(pieces, base);
    x.ClosedForLeast(start, single, maxBins, now, pieces, base);
    if single.Some? {
      ClosedPlan(start, single.value, pieces, base, x.job);
      assert start.fills + [single.value] == [single.value];
      RegisterOk(now, [single.value], upper, pieces, base, x.job);
      now := Register(now, [single.value], x.job);
    }
  }

  /** Everything the states of one depth lead to. */
  method ExpandAll(x: Searcher, frontier: seq<State>, root: bool, largest: int, maxBins: Option<nat>, now: Incumbent,
                   ghost upper: Option<Objective>, ghost pieces: seq<Piece>, ghost base: seq<nat>)
    returns (after: Incumbent, next: seq<State>, ghost drop: seq<Dropped>)
    requires x.Valid() && AllOk(frontier, pieces, base, x.job) && IncumbentOk(now, upper, pieces, base, x.job)
    requires HoldsAny(largest, x.job)
    modifies x
    ensures x.Valid() && IncumbentOk(after, upper, pieces, base, x.job) && Lowers(after.bar, now.bar)
    ensures AllOk(next, pieces, base, x.job) && NoneCanWin(drop, after.bar, x.job)
    ensures AllExplored(x.QuestFor(maxBins), frontier, root, after.bar, next, drop)
  {
    hide StateOk, IncumbentOk, NoneCanWin, Lowers, AllExplored;
    after, next, drop := now, [], [];
    NoneCanWinNothing(after.bar, x.job);
    LowersSelf(after.bar);
    NothingExplored(x.QuestFor(maxBins), root, after.bar);
    for i := 0 to |frontier|
      invariant x.Valid() && IncumbentOk(after, upper, pieces, base, x.job) && Lowers(after.bar, now.bar)
      invariant AllOk(next, pieces, base, x.job) && NoneCanWin(drop, after.bar, x.job)
      invariant AllExplored(x.QuestFor(maxBins), frontier[..i], root, after.bar, next, drop)
    {
      assert frontier[i] in frontier;
      var after', next', drop' := Expand(x, frontier[i], root, largest, maxBins, after, upper, pieces, base);
      NoneCanWinLower(drop, after.bar, after'.bar, x.job);
      LowersTransitive(after'.bar, after.bar, now.bar);
      NoneCanWinJoin(drop, drop', after'.bar, x.job);
      LowersSelf(after'.bar);
      AllExploredLater(x.QuestFor(maxBins), frontier[..i], root, after.bar, next, drop, after'.bar, next + next',
                       drop + drop');
      AllExploredLater(x.QuestFor(maxBins), [frontier[i]], root, after'.bar, next', drop', after'.bar, next + next',
                       drop + drop');
      ExploredJoin(x.QuestFor(maxBins), frontier[..i], frontier[i], root, after'.bar, next + next', drop + drop');
      assert frontier[..i] + [frontier[i]] == frontier[..i+1];
      after, next, drop := after', next + next', drop + drop';
    }
    assert frontier[..|frontier|] == frontier;
  }

  lemma NothingExplored(q: Quest, root: bool, bar: Option<Objective>)
    ensures AllExplored(q, [], root, bar, [], [])
  {
  }

  lemma ExploredJoin(q: Quest, a: seq<State>, s: State, root: bool, bar: Option<Objective>, next: seq<State>,
                     drop: seq<Dropped>)
    requires AllExplored(q, a, root, bar, next, drop)
             && AllExplored(q, [s], root, bar, next, drop)
    ensures AllExplored(q, a + [s], root, bar, next, drop)
  {
    hide Explored, Openable, PoolArea;
    assert s in [s];
  }

  /** One depth of the search: the states kept, and all they led to. */
  datatype Layer = Layer(frontier: seq<State>, reached: seq<State>)

  /** What the search went through: each depth explored, and the next one chosen from what
      it reached. */
  ghost predicate Went(layers: seq<Layer>, frontier: seq<State>, start: State, q: Quest, choose: Chooser,
                       rootExact: bool, bar: Option<Objective>, drop: seq<Dropped>) {
    && (forall d :: 0 <= d < |layers| ==>
          AllExplored(q, layers[d].frontier, rootExact && d == 0, bar, layers[d].reached, drop))
    && (if layers == [] then frontier == [start]
        else layers[0].frontier == [start] && Chosen(choose, layers[|layers|-1].reached, frontier))
    && (forall d :: 0 < d < |layers| ==> Chosen(choose, layers[d-1].reached, layers[d].frontier))
  }

  ghost predicate Chosen(choose: Chooser, reached: seq<State>, frontier: seq<State>) {
    exists ask :: frontier == choose(ask, reached)
  }

  lemma WentOn(layers: seq<Layer>, frontier: seq<State>, start: State, q: Quest, choose: Chooser, rootExact: bool,
               bar: Option<Objective>, drop: seq<Dropped>, bar': Option<Objective>, drop': seq<Dropped>,
               reached: seq<State>, ask: nat)
    requires Went(layers, frontier, start, q, choose, rootExact, bar, drop) && Lowers(bar', bar)
    requires AllExplored(q, frontier, rootExact && |layers| == 0, bar', reached, drop')
    ensures Went(layers + [Layer(frontier, reached)], choose(ask, reached), start, q, choose, rootExact, bar',
                 drop + drop')
  {
    hide AllExplored, Lowers;
    var more := layers + [Layer(frontier, reached)];
    LowersSelf(bar');
    forall d | 0 <= d < |more|
      ensures AllExplored(q, more[d].frontier, rootExact && d == 0, bar', more[d].reached, drop + drop')
    {
      var l := more[d];
      if d < |layers| {
        AllExploredLater(q, l.frontier, rootExact && d == 0, bar, l.reached, drop, bar', l.reached, drop + drop');
      } else {
        AllExploredLater(q, l.frontier, rootExact && d == 0, bar', l.reached, drop', bar', l.reached, drop + drop');
      }
    }
    assert Chosen(choose, reached, choose(ask, reached));
  }

  /** Every depth starts from states of the search. */
  ghost predicate LayersOk(layers: seq<Layer>, last: seq<State>, pieces: seq<Piece>, base: seq<nat>, job: Job) {
    (forall l :: l in layers ==> AllOk(l.frontier, pieces, base, job)) && AllOk(last, pieces, base, job)
  }

  /** The best complete plan found that beats `upper`, if any. Every piece of it lies in
      exactly one sound sheet, no bin type is overdrawn, and no state given up on its
      bounds could have been completed into anything better than the final answer. Every
      fill tried for a kept state completed a plan no better than the answer, or led to a
      state the next depth was chosen from, or was given up that way. */
  method Search(x: Searcher, pieces: seq<Piece>, base: seq<nat>, maxSheets: nat, maxBins: Option<nat>,
                upper: Option<Objective>, rootExact: bool, choose: Chooser)
    returns (best: Option<Solution>, ghost drop: seq<Dropped>, ghost layers: seq<Layer>, ghost last: seq<State>)
    requires x.Valid() && HonestChooser(choose) && |base| == |x.job.specs|
    requires pieces != [] && Distinct(pieces) && AllValid(pieces) && WithinStock([], base, x.job)
    modifies x
    ensures x.Valid()
    ensures best.Some? ==>
              && best.value.unplaced == []
              && Partition(best.value.fills, pieces, x.job) && WithinStock(best.value.fills, base, x.job)
              && (upper.Some? ==> Beats(ObjectiveOf(best.value, x.job), upper.value))
    ensures var bar := if best.Some? then Some(ObjectiveOf(best.value, x.job)) else upper;
            && NoneCanWin(drop, bar, x.job)
            && Went(layers, last, State(pieces, [], base, 0), x.QuestFor(maxBins), choose, rootExact, bar, drop)
    ensures var cap := if maxBins.Some? then Min(maxSheets, maxBins.value) else maxSheets;
            |layers| <= cap && (|layers| < cap ==> last == [])
    ensures LayersOk(layers, last, pieces, base, x.job)
    ensures ClosingTried(x.QuestFor(maxBins), State(pieces, [], base, 0),
                         if best.Some? then Some(ObjectiveOf(best.value, x.job)) else upper)
  {
    hide StateOk, IncumbentOk, NoneCanWin, AllValid, WithinStock, Lowers, Distinct, AllOk, AllExplored, ClosingTried,
         HoldsAny;
    StartOk(pieces, base, x.job);
    var now := TrySingle(x, pieces, base, upper, maxBins);
    drop, layers := [], [];
    NoneCanWinNothing(now.bar, x.job);
    var largest := LargestSheet(x.job.specs, x.job.p);
    LargestHoldsAny(x.job);
    ghost var start := State(pieces, [], base, 0);
    var frontier := [State(pieces, [], base, 0)];
    var cap := if maxBins.Some? then Min(maxSheets, maxBins.value) else maxSheets;
    for depth := 0 to cap
      invariant x.Valid() && IncumbentOk(now, upper, pieces, base, x.job)
      invariant ClosingTried(x.QuestFor(maxBins), start, now.bar)
      invariant AllOk(frontier, pieces, base, x.job) && NoneCanWin(drop, now.bar, x.job)
      invariant |layers| == depth && LayersOk(layers, frontier, pieces, base, x.job)
      invariant Went(layers, frontier, start, x.QuestFor(maxBins), choose, rootExact, now.bar, drop)
    {
      if frontier == [] { break; }
      var now', next, drop' := ExpandAll(x, frontier, rootExact && depth == 0, largest, maxBins, now, upper, pieces,
                                         base);
      NoneCanWinLower(drop, now.bar, now'.bar, x.job);
      NoneCanWinJoin(drop, drop', now'.bar, x.job);
      ClosingLater(x.QuestFor(maxBins), start, now.bar, now'.bar);
      WentOn(layers, frontier, start, x.QuestFor(maxBins), choose, rootExact, now.bar, drop, now'.bar, drop', next,
             x.asks);
      layers := layers + [Layer(frontier, next)];
      now, drop := now', drop + drop';
      frontier := choose(x.asks, next);
      ChosenOk(choose, x.asks, next, pieces, base, x.job);
      x.asks := x.asks + 1;
    }
    best, last := now.best, frontier;
    IncumbentEnd(now, upper, pieces, base, x.job);
  }

  lemma ChosenOk(choose: Chooser, ask: nat, states: seq<State>, pieces: seq<Piece>, base: seq<nat>, job: Job)
    requires HonestChooser(choose) && AllOk(states, pieces, base, job)
    ensures AllOk(choose(ask, states), pieces, base, job)
  {
    hide StateOk;
  }

  lemma IncumbentEnd(now: Incumbent, upper: Option<Objective>, pieces: seq<Piece>, base: seq<nat>, job: Job)
    requires IncumbentOk(now, upper, pieces, base, job)
    ensures now.best.Some? ==>
              && now.best.value.unplaced == [] && now.bar == Some(ObjectiveOf(now.best.value, job))
              && Partition(now.best.value.fills, pieces, job) && WithinStock(now.best.value.fills, base, job)
              && (upper.Some? ==> Beats(ObjectiveOf(now.best.value, job), upper.value))
    ensures now.best.None? ==> now.bar == upper
  {
    hide ObjectiveOf, Partition, WithinStock, Beats;
  }

  lemma StartOk(pieces: seq<Piece>, base: seq<nat>, job: Job)
    requires pieces != [] && Distinct(pieces) && AllValid(pieces) && WithinStock([], base, job)
    ensures StateOk(State(pieces, [], base, 0), pieces, base, job)
    ensures AllOk([State(pieces, [], base, 0)], pieces, base, job)
  {
    assert multiset(AllPieces([])) == multiset{};
  }
}
