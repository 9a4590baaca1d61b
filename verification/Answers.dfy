/**
The components search.py asks, put to the use it makes of them: `gen_fills`, `_probe_fill`
and `exact_fill`, the solver calls of `exact_best_fill`, `fits_bins` for the half-board
repair, and the runs of the optimizer the relaxed-blade repair makes. Each answer is what
the search relies on.
*/
module Answers {
  import opened Geometry
  import opened Guillotine
  import opened Plans
  import opened Sequences
  import opened Sheets
  import opened Packer
  import opened Constructors
  import opened Strips
  import opened Bounds
  import opened SearchPlans
  import opened Incumbents
  import opened Searching
  import opened Beam
  import opened Improving
  import opened HalfBoards
  import opened Repairs
  import opened Optimizer
  import O = Openings
  import G = Grouping
  import M = ExactModel
  import K = ExactBinding
  import E = Exact
  import T = Exact3
  import B = TowerBuilding

  // ---- fills of one bin -------------------------------------------------------------------

  /** One point of the greedy portfolio. */
  datatype GreedyConfig = GreedyConfig(order: seq<Piece> -> seq<Piece>, rule: SplitRule, selection: Selection)

  ghost predicate AllOrders(portfolio: seq<GreedyConfig>) {
    forall c :: c in portfolio ==> IsOrder(c.order)
  }

  /** What the saw can make of a bin of the job is a sound fill. */
  lemma RealizedIsSound(t: GTree, sheet: BinFill, k: nat, job: Job, g: Config)
    requires k < |job.specs| && g.kerf == job.p.kerf
    requires Realizes(t, UsableBounds(job.specs[k].width, job.specs[k].height, job.p), sheet, g)
    ensures FillSound(Fill(k, sheet), job)
  {
    hide PlanOf, Offcuts, Frees, UsableBounds;
  }

  function PlacedBy(f: Option<Fill>): seq<Placed> {
    if f.None? then [] else f.value.sheet.placed
  }

  /** What a greedy pass puts on a bin. */
  function Passed(job: Job, pool: seq<Piece>, k: nat, c: GreedyConfig, minRect: int): seq<Placed>
    requires k < |job.specs|
  {
    GreedyPlacing(pool, job.specs[k].width, job.specs[k].height, job.p, c.rule, c.selection, c.order, minRect)
  }

  method Greedy(job: Job, pool: seq<Piece>, k: nat, c: GreedyConfig, minRect: int) returns (f: Option<Fill>)
    requires k < |job.specs| && AllValid(pool) && IsOrder(c.order)
    ensures GoodFill(f, pool, k, job, false) && PlacedBy(f) == Passed(job, pool, k, c, minRect)
    ensures f.None? ==> forall q :: q in pool ==> !FitsSpec(q, job.specs[k], job.p)
  {
    hide Realizes, IsOrder, FillSound, UsableBounds, FitsPiece, GreedyPlacing;
    var s := job.specs[k];
    var fill := GreedyFill(pool, s.width, s.height, job.p, c.rule, c.selection, c.order, minRect);
    if fill.None? {
      forall q | q in pool ensures !FitsSpec(q, s, job.p) { NoRoomNoFit(q, s, job.p); }
      return None;
    }
    ghost var t, g :| Realizes(t, UsableBounds(s.width, s.height, job.p), fill.value, g) && g.kerf == job.p.kerf;
    RealizedIsSound(t, fill.value, k, job, g);
    f := Some(Fill(k, fill.value));
  }

  /** A piece that does not fit the usable area does not fit the bin. */
  lemma NoRoomNoFit(q: Piece, s: BinSpec, p: Params)
    requires p.left + p.right >= s.width || p.top + p.bottom >= s.height
             || !FitsPiece(UsableBounds(s.width, s.height, p), q)
    requires ValidPiece(q)
    ensures !FitsSpec(q, s, p)
  {
  }

  /** What the strips of one sheet hold. */
  ghost function Ripped(job: Job, pool: seq<Piece>, k: nat, h: bool, firstDim: Option<int>, maxRepeat: Option<int>,
                        order: StripOrder, minRect: int): seq<Placed>
    requires k < |job.specs| && IsStripOrder(order)
  {
    var s := job.specs[k];
    Placements(SheetStrips(pool, s.width, s.height, job.p, firstDim,
                           RulesFor(s.width, s.height, job.p, h, maxRepeat, order, minRect)))
  }

  method Stripped(job: Job, pool: seq<Piece>, k: nat, h: bool, firstDim: Option<int>, maxRepeat: Option<int>,
                  order: StripOrder, minRect: int) returns (f: Option<Fill>)
    requires k < |job.specs| && AllValid(pool) && IsStripOrder(order) && minRect >= 1
    ensures GoodFill(f, pool, k, job, false)
    ensures PlacedBy(f) == Ripped(job, pool, k, h, firstDim, maxRepeat, order, minRect)
  {
    hide Realizes, AllValid, IsStripOrder, FillSound, UsableBounds, Banded, BandContents, FitsPiece, SheetStrips, Full;
    var s := job.specs[k];
    var fill := StripFill(pool, s.width, s.height, job.p, h, firstDim, maxRepeat, order, minRect);
    if fill.None? { return None; }
    ghost var t :| Realizes(t, UsableBounds(s.width, s.height, job.p), fill.value, Config(job.p.kerf, minRect, 0));
    RealizedIsSound(t, fill.value, k, job, Config(job.p.kerf, minRect, 0));
    f := Some(Fill(k, fill.value));
  }

  // ---- the candidates of one bin type -------------------------------------------------------

  /** No two fills hold the same piece types. */
  predicate AllDiffer(fills: seq<Fill>) {
    forall i, j :: 0 <= i < j < |fills| ==> Signature(PlacedIn(fills[i])) != Signature(PlacedIn(fills[j]))
  }

  ghost predicate Collected(fills: seq<Fill>, seen: set<multiset<PieceType>>, pool: seq<Piece>, k: nat, job: Job) {
    && GoodFills(fills, pool, k, job) && AllDiffer(fills)
    && forall s :: s in seen <==> exists i :: 0 <= i < |fills| && Signature(PlacedIn(fills[i])) == s
  }

  /** A fill is kept unless one with the same piece types is there already. */
  method Push(fills: seq<Fill>, seen: set<multiset<PieceType>>, f: Option<Fill>, ghost pool: seq<Piece>, k: nat,
              job: Job)
    returns (fills': seq<Fill>, seen': set<multiset<PieceType>>)
    requires Collected(fills, seen, pool, k, job) && GoodFill(f, pool, k, job, false)
    ensures Collected(fills', seen', pool, k, job)
    ensures f.Some? ==> Signature(PlacedIn(f.value)) in seen'
    ensures seen <= seen' && fills <= fills'
  {
    hide FillOk, Signature, PlacedIn;
    fills', seen' := fills, seen;
    if f.None? { return; }
    var sig := Signature(PlacedIn(f.value));
    if sig in seen { return; }
    fills', seen' := fills + [f.value], seen + {sig};
    forall s ensures s in seen' <==> exists i :: 0 <= i < |fills'| && Signature(PlacedIn(fills'[i])) == s {
      if s in seen {
        var i :| 0 <= i < |fills| && Signature(PlacedIn(fills[i])) == s;
        assert fills'[i] == fills[i];
      }
      if s == sig { assert fills'[|fills|] == f.value; }
    }
  }

  /** The depths a first strip is tried with: the four largest that fit the width. */
  function StripSeeds(pool: seq<Piece>, s: BinSpec, p: Params): seq<int> {
    var dims := StripDims(pool, s.width - p.left - p.right, false);
    if |dims| <= 4 then dims else dims[..4]
  }

  /** A fill of this content, up to the types of the pieces, is among the fills. */
  ghost predicate IsListed(fills: seq<Fill>, placed: seq<Placed>) {
    placed != [] ==> exists f :: f in fills && Signature(PlacedIn(f)) == Signature(PiecesOf(placed))
  }

  lemma StayListed(fills: seq<Fill>, more: seq<Fill>, placed: seq<Placed>)
    requires IsListed(fills, placed) && fills <= more
    ensures IsListed(more, placed)
  {
    hide Signature, PlacedIn, PiecesOf;
  }

  /** One call of a constructor: strips, or a greedy pass. */
  datatype Call = Strips(horizontal: bool, firstDim: Option<int>, maxRepeat: Option<int>) | Pass(config: GreedyConfig)

  ghost function Placing(job: Job, pool: seq<Piece>, k: nat, stripOrder: StripOrder, minRect: int,
                         call: Call): seq<Placed>
    requires k < |job.specs| && IsStripOrder(stripOrder)
  {
    match call
    case Strips(h, firstDim, maxRepeat) => Ripped(job, pool, k, h, firstDim, maxRepeat, stripOrder, minRect)
    case Pass(c) => Passed(job, pool, k, c, minRect)
  }

  /** Strips one way, first with the depth of their own choosing, then with each given one. */
  function Seeded(h: bool, seeds: seq<int>): (r: seq<Call>)
    ensures |r| == |seeds| + 1
  {
    [Strips(h, None, None)] + seq(|seeds|, i requires 0 <= i < |seeds| => Strips(h, Some(seeds[i]), None))
  }

  function Passes(portfolio: seq<GreedyConfig>): (r: seq<Call>)
    ensures |r| == |portfolio|
  {
    seq(|portfolio|, i requires 0 <= i < |portfolio| => Pass(portfolio[i]))
  }

  const Capped: seq<Call> := [Strips(false, None, Some(1)), Strips(false, None, Some(2)),
                              Strips(true, None, Some(1)), Strips(true, None, Some(2))]

  function FirstOf(calls: seq<Call>, n: int): seq<Call> {
    if n <= 0 then [] else if n >= |calls| then calls else calls[..n]
  }

  /** The calls the budget allows: half of the tries, but at least six, for strips, four
      more for strips of few repeats, the rest for greedy passes. */
  function CallsMade(seeds: seq<int>, portfolio: seq<GreedyConfig>, tries: nat): seq<Call> {
    var strips := FirstOf(Seeded(false, seeds) + Seeded(true, seeds), Max(6, tries / 2)) + Capped;
    strips + FirstOf(Passes(portfolio), tries - |strips|)
  }

  ghost predicate AllListed(fills: seq<Fill>, calls: seq<Call>, job: Job, pool: seq<Piece>, k: nat,
                            stripOrder: StripOrder, minRect: int)
    requires k < |job.specs| && IsStripOrder(stripOrder)
  {
    forall call :: call in calls ==> IsListed(fills, Placing(job, pool, k, stripOrder, minRect, call))
  }

  /** One call made and its fill kept. */
  method Make(call: Call, fills: seq<Fill>, seen: set<multiset<PieceType>>, ghost made: seq<Call>, job: Job,
              pool: seq<Piece>, k: nat, stripOrder: StripOrder, minRect: int)
    returns (fills': seq<Fill>, seen': set<multiset<PieceType>>)
    requires k < |job.specs| && AllValid(pool) && IsStripOrder(stripOrder) && minRect >= 1
    requires call.Pass? ==> IsOrder(call.config.order)
    requires Collected(fills, seen, pool, k, job) && AllListed(fills, made, job, pool, k, stripOrder, minRect)
    ensures Collected(fills', seen', pool, k, job)
    ensures AllListed(fills', made + [call], job, pool, k, stripOrder, minRect)
  {
    hide Collected, GoodFill, IsOrder, AllValid, Signature, PiecesOf, Ripped, Passed, IsListed;
    var f;
    match call {
      case Strips(h, firstDim, maxRepeat) =>
        f := Stripped(job, pool, k, h, firstDim, maxRepeat, stripOrder, minRect);
      case Pass(c) =>
        f := Greedy(job, pool, k, c, minRect);
    }
    fills', seen' := Push(fills, seen, f, pool, k, job);
    CollectedListed(fills', seen', pool, k, job, f);
    forall c | c in made + [call] ensures IsListed(fills', Placing(job, pool, k, stripOrder, minRect, c)) {
      if c in made { StayListed(fills, fills', Placing(job, pool, k, stripOrder, minRect, c)); }
    }
  }

  lemma CollectedListed(fills: seq<Fill>, seen: set<multiset<PieceType>>, pool: seq<Piece>, k: nat, job: Job,
                        f: Option<Fill>)
    requires Collected(fills, seen, pool, k, job)
    requires f.Some? ==> Signature(PlacedIn(f.value)) in seen
    ensures IsListed(fills, PlacedBy(f))
  {
    hide Signature, PiecesOf, GoodFills, AllDiffer;
  }

  /** Strips both ways with and without a given first depth, as many as the budget allows. */
  method SeededFills(job: Job, pool: seq<Piece>, k: nat, budget: nat, seeds: seq<int>, stripOrder: StripOrder,
                     minRect: int) returns (fills: seq<Fill>, seen: set<multiset<PieceType>>, spent: nat)
    requires k < |job.specs| && AllValid(pool) && IsStripOrder(stripOrder) && minRect >= 1
    ensures Collected(fills, seen, pool, k, job) && spent <= budget
    ensures var made := FirstOf(Seeded(false, seeds) + Seeded(true, seeds), budget);
            spent == |made| && AllListed(fills, made, job, pool, k, stripOrder, minRect)
  {
    hide Collected, GoodFills, GoodFill, AllDiffer, IsOrder, AllValid, StripDims, AllListed, IsStripOrder, FirstOf;
    fills, seen, spent := [], {}, 0;
    NothingCollected(pool, k, job);
    ghost var n, made, plain := |seeds| + 1, [], Seeded(false, seeds) + Seeded(true, seeds);
    FirstOfNone(plain, budget);
    NothingListed(job, pool, k, stripOrder, minRect);
    for way := 0 to 2
      invariant Collected(fills, seen, pool, k, job) && AllListed(fills, made, job, pool, k, stripOrder, minRect)
      invariant spent == |made| && made == FirstOf(plain[..way * n], budget)
    {
      ghost var before := way * n;
      for i := 0 to |seeds| + 1
        invariant Collected(fills, seen, pool, k, job) && AllListed(fills, made, job, pool, k, stripOrder, minRect)
        invariant spent == |made| && made == FirstOf(plain[..before + i], budget)
      {
        FirstOfNext(plain, before + i, budget, before + n);
        if spent >= budget { break; }
        var call := Strips(way == 1, if i == 0 then None else Some(seeds[i-1]), None);
        assert call == plain[before + i];
        fills, seen := Make(call, fills, seen, made, job, pool, k, stripOrder, minRect);
        spent, made := spent + 1, made + [call];
      }
    }
    assert plain[..2 * n] == plain;
    FirstOfAtMost(plain, budget);
  }

  /** Candidate fills of one bin type, no two of the same piece types: strips both ways with
      and without a given first depth, strips of few repeats, then greedy passes, as many as
      the budget allows. What each of these calls puts on the bin is there. */
  method GenFills(job: Job, pool: seq<Piece>, k: nat, tries: nat, portfolio: seq<GreedyConfig>,
                  stripOrder: StripOrder, minRect: int) returns (fills: seq<Fill>)
    requires k < |job.specs| && AllValid(pool) && AllOrders(portfolio) && IsStripOrder(stripOrder) && minRect >= 1
    ensures GoodFills(fills, pool, k, job) && AllDiffer(fills)
    ensures AllListed(fills, CallsMade(StripSeeds(pool, job.specs[k], job.p), portfolio, tries), job, pool, k,
                      stripOrder, minRect)
  {
    hide Collected, GoodFills, GoodFill, AllDiffer, IsOrder, AllValid, StripDims, AllListed, IsStripOrder, FirstOf,
         Seeded;
    var budget, seeds := Max(6, tries / 2), StripSeeds(pool, job.specs[k], job.p);
    var seen, spent;
    fills, seen, spent := SeededFills(job, pool, k, budget, seeds, stripOrder, minRect);
    ghost var first := FirstOf(Seeded(false, seeds) + Seeded(true, seeds), budget);
    ghost var made := first;
    for way := 0 to 2
      invariant Collected(fills, seen, pool, k, job) && AllListed(fills, made, job, pool, k, stripOrder, minRect)
      invariant spent == |made| && made == first + Capped[..2 * way]
    {
      for cap := 1 to 3
        invariant Collected(fills, seen, pool, k, job) && AllListed(fills, made, job, pool, k, stripOrder, minRect)
        invariant spent == |made| && made == first + Capped[..2 * way + cap - 1]
      {
        if spent >= budget + 4 { break; }
        var call := Strips(way == 1, None, Some(cap));
        assert call == Capped[2 * way + cap - 1];
        fills, seen := Make(call, fills, seen, made, job, pool, k, stripOrder, minRect);
        spent, made := spent + 1, made + [call];
      }
    }
    ghost var strips, passes := made, Passes(portfolio);
    FirstOfNone(passes, tries - |strips|);
    for i := 0 to |portfolio|
      invariant Collected(fills, seen, pool, k, job) && AllListed(fills, made, job, pool, k, stripOrder, minRect)
      invariant spent == |made| && made == strips + FirstOf(passes[..i], tries - |strips|)
    {
      FirstOfNext(passes, i, tries - |strips|, |portfolio|);
      if spent >= tries { break; }
      assert portfolio[i] in portfolio;
      fills, seen := Make(Pass(portfolio[i]), fills, seen, made, job, pool, k, stripOrder, minRect);
      spent, made := spent + 1, made + [Pass(portfolio[i])];
    }
    assert passes[..|portfolio|] == passes;
    assert made == CallsMade(seeds, portfolio, tries);
    CollectedGood(fills, seen, pool, k, job);
  }

  lemma FirstOfNone(calls: seq<Call>, n: int)
    ensures FirstOf(calls[..0], n) == []
  {
  }

  lemma FirstOfAtMost(calls: seq<Call>, n: nat)
    ensures |FirstOf(calls, n)| <= n
  {
  }

  /** One call more is made, or the allowance is spent. */
  lemma FirstOfNext(calls: seq<Call>, i: nat, n: int, end: nat)
    requires i < end <= |calls|
    ensures var made := FirstOf(calls[..i], n);
            if |made| >= n then FirstOf(calls[..end], n) == made
            else FirstOf(calls[..i+1], n) == made + [calls[i]]
  {
  }

  lemma NothingListed(job: Job, pool: seq<Piece>, k: nat, stripOrder: StripOrder, minRect: int)
    requires k < |job.specs| && IsStripOrder(stripOrder)
    ensures AllListed([], [], job, pool, k, stripOrder, minRect)
  {
  }

  lemma NothingCollected(pool: seq<Piece>, k: nat, job: Job)
    ensures Collected([], {}, pool, k, job)
  {
  }

  lemma CollectedGood(fills: seq<Fill>, seen: set<multiset<PieceType>>, pool: seq<Piece>, k: nat, job: Job)
    requires Collected(fills, seen, pool, k, job)
    ensures GoodFills(fills, pool, k, job) && AllDiffer(fills)
  {
  }

  // ---- the whole pool on one bin ---------------------------------------------------------------

  lemma WholeIsGood(f: Fill, pool: seq<Piece>, k: nat, job: Job)
    requires GoodFill(Some(f), pool, k, job, false) && |f.sheet.placed| == |pool|
    ensures GoodFill(Some(f), pool, k, job, true)
  {
  }

  predicate TakesAll(placed: seq<Placed>, pool: seq<Piece>) {
    placed != [] && |placed| == |pool|
  }

  /** Eight greedy passes, then strips both ways. */
  function ProbeCalls(portfolio: seq<GreedyConfig>): (r: seq<Call>)
    ensures |r| == Min(8, |portfolio|) + 2
    ensures forall i :: 0 <= i < Min(8, |portfolio|) ==> r[i] == Pass(portfolio[i])
    ensures r[|r|-2] == Strips(false, None, None) && r[|r|-1] == Strips(true, None, None)
  {
    FirstOf(Passes(portfolio), 8) + [Strips(false, None, None), Strips(true, None, None)]
  }

  /** None of the first so many calls takes the whole pool. */
  ghost predicate NoneTakesAll(calls: seq<Call>, n: nat, job: Job, pool: seq<Piece>, k: nat, stripOrder: StripOrder,
                               minRect: int)
    requires k < |job.specs| && IsStripOrder(stripOrder) && n <= |calls|
  {
    forall i :: 0 <= i < n ==> !TakesAll(Placing(job, pool, k, stripOrder, minRect, calls[i]), pool)
  }

  /** The fill of the first call that takes the whole pool, or none does. */
  ghost predicate FirstToTakeAll(f: Option<Fill>, calls: seq<Call>, job: Job, pool: seq<Piece>, k: nat,
                                 stripOrder: StripOrder, minRect: int)
    requires k < |job.specs| && IsStripOrder(stripOrder)
  {
    if f.None? then NoneTakesAll(calls, |calls|, job, pool, k, stripOrder, minRect)
    else exists i: nat :: && i < |calls| && NoneTakesAll(calls, i, job, pool, k, stripOrder, minRect)
                          && PlacedBy(f) == Placing(job, pool, k, stripOrder, minRect, calls[i])
                          && TakesAll(PlacedBy(f), pool)
  }

  /** The first of eight greedy passes and two strip fills that takes everything. */
  method ProbeFill(job: Job, pool: seq<Piece>, k: nat, portfolio: seq<GreedyConfig>,
                   stripOrder: StripOrder, minRect: int) returns (f: Option<Fill>)
    requires k < |job.specs| && AllValid(pool) && AllOrders(portfolio) && IsStripOrder(stripOrder) && minRect >= 1
    ensures GoodFill(f, pool, k, job, true)
    ensures FirstToTakeAll(f, ProbeCalls(portfolio), job, pool, k, stripOrder, minRect)
  {
    hide IsOrder, AllValid, IsStripOrder, Ripped, Passed, FillSound, NoneTakesAll, ProbeCalls, FirstToTakeAll, PiecesOf;
    ghost var calls := ProbeCalls(portfolio);
    NoneAsked(calls, job, pool, k, stripOrder, minRect);
    for i := 0 to Min(8, |portfolio|)
      invariant NoneTakesAll(calls, i, job, pool, k, stripOrder, minRect)
    {
      assert portfolio[i] in portfolio && calls[i] == Pass(portfolio[i]);
      f := Greedy(job, pool, k, portfolio[i], minRect);
      if f.Some? && |f.value.sheet.placed| == |pool| {
        FirstIs(f, calls, i, job, pool, k, stripOrder, minRect);
        return;
      }
      NorThis(calls, i, job, pool, k, stripOrder, minRect);
    }
    for way := 0 to 2
      invariant NoneTakesAll(calls, Min(8, |portfolio|) + way, job, pool, k, stripOrder, minRect)
    {
      assert calls[Min(8, |portfolio|) + way] == Strips(way == 1, None, None);
      f := Stripped(job, pool, k, way == 1, None, None, stripOrder, minRect);
      if f.Some? && |f.value.sheet.placed| == |pool| {
        FirstIs(f, calls, Min(8, |portfolio|) + way, job, pool, k, stripOrder, minRect);
        return;
      }
      NorThis(calls, Min(8, |portfolio|) + way, job, pool, k, stripOrder, minRect);
    }
    f := None;
    NoneIs(calls, job, pool, k, stripOrder, minRect);
  }

  lemma FirstIs(f: Option<Fill>, calls: seq<Call>, i: nat, job: Job, pool: seq<Piece>, k: nat, stripOrder: StripOrder,
                minRect: int)
    requires k < |job.specs| && IsStripOrder(stripOrder) && i < |calls| && f.Some?
    requires NoneTakesAll(calls, i, job, pool, k, stripOrder, minRect) && TakesAll(PlacedBy(f), pool)
    requires PlacedBy(f) == Placing(job, pool, k, stripOrder, minRect, calls[i])
    ensures FirstToTakeAll(f, calls, job, pool, k, stripOrder, minRect)
  {
    hide Placing, NoneTakesAll;
  }

  lemma NoneIs(calls: seq<Call>, job: Job, pool: seq<Piece>, k: nat, stripOrder: StripOrder, minRect: int)
    requires k < |job.specs| && IsStripOrder(stripOrder)
    requires NoneTakesAll(calls, |calls|, job, pool, k, stripOrder, minRect)
    ensures FirstToTakeAll(None, calls, job, pool, k, stripOrder, minRect)
  {
    hide NoneTakesAll;
  }

  lemma NoneAsked(calls: seq<Call>, job: Job, pool: seq<Piece>, k: nat, stripOrder: StripOrder, minRect: int)
    requires k < |job.specs| && IsStripOrder(stripOrder)
    ensures NoneTakesAll(calls, 0, job, pool, k, stripOrder, minRect)
  {
  }

  lemma NorThis(calls: seq<Call>, i: nat, job: Job, pool: seq<Piece>, k: nat, stripOrder: StripOrder, minRect: int)
    requires k < |job.specs| && IsStripOrder(stripOrder) && i < |calls|
    requires NoneTakesAll(calls, i, job, pool, k, stripOrder, minRect)
    requires !TakesAll(Placing(job, pool, k, stripOrder, minRect, calls[i]), pool)
    ensures NoneTakesAll(calls, i + 1, job, pool, k, stripOrder, minRect)
  {
    hide Placing;
  }

  lemma SolvedIsSound(sheet: BinFill, pool: seq<Piece>, groups: seq<seq<Piece>>, k: nat, job: Job, all: bool)
    requires k < |job.specs| && multiset(K.Flatten(groups)) == multiset(pool)
    requires E.Sound(sheet, job.specs[k].width, job.specs[k].height, job.p, K.Flatten(groups), all)
    ensures FillSound(Fill(k, sheet), job) && multiset(PlacedIn(Fill(k, sheet))) <= multiset(pool)
    ensures all ==> |sheet.placed| == |pool|
  {
    hide Frees, UsableBounds, BoxesOf, PiecesOf;
    var boxes := BoxesOf(sheet.placed);
    CuttableHereditary(UsableBounds(job.specs[k].width, job.specs[k].height, job.p), boxes + sheet.remainders, boxes,
                       job.p.kerf);
    if all { NothingElse(PiecesOf(sheet.placed), pool); }
  }

  /** A question the solver is not asked: it is switched off, the pool is empty, too big or too
      thin for the bin, or the allowance is spent. */
  predicate Skipped(job: Job, pool: seq<Piece>, k: nat, enabled: bool, maxPieces: nat, minPercent: int, remaining: int)
    requires k < |job.specs|
  {
    var usable := SheetArea(job.specs[k], job.p);
    || !enabled || pool == [] || |pool| > maxPieces || usable <= 0
    || 100 * PoolArea(pool) < usable * minPercent || remaining <= 0
  }

  /** The pool as the solver sees it. */
  function Groups(byId: seq<Piece> -> seq<Piece>, pool: seq<Piece>): (r: seq<seq<Piece>>)
    requires AllValid(pool) && IsOrder(byId)
    ensures M.Grouped(r) && multiset(K.Flatten(r)) == multiset(pool)
  {
    OrderedValid(byId, pool);
    G.GroupsOf(byId(pool))
  }

  /** The solver asked whether the whole pool goes on one bin, when the pool is small and
      dense enough and the allowance lasts. */
  method ExactFill(job: Job, pool: seq<Piece>, k: nat, enabled: bool, maxPieces: nat, minPercent: int, remaining: int,
                   byId: seq<Piece> -> seq<Piece>, minRect: int, solve: E.Solver) returns (f: Option<Fill>, left: int)
    requires k < |job.specs| && AllValid(pool) && IsOrder(byId) && E.Honest(solve, true)
    ensures GoodFill(f, pool, k, job, true)
    ensures var skipped := Skipped(job, pool, k, enabled, maxPieces, minPercent, remaining);
            var groups, s := Groups(byId, pool), job.specs[k];
            && left == (if skipped then remaining else remaining - 1)
            && (f.None? <==> skipped || (&& E.Unsolved(groups, s.width, s.height, job.p, false, solve)
                                         && E.Unsolved(groups, s.width, s.height, job.p, true, solve)))
  {
    hide E.Honest, E.Sound, E.Unsolved, E.Unfilled, FillSound, M.Grouped, K.Flatten, IsOrder, PiecesOf;
    f, left := None, remaining;
    var usable := SheetArea(job.specs[k], job.p);
    if !enabled || pool == [] || |pool| > maxPieces || usable <= 0 { return; }
    if 100 * PoolArea(pool) < usable * minPercent || remaining <= 0 { return; }
    left := remaining - 1;
    var groups := Groups(byId, pool);
    var sheet := E.FitsOneBin(groups, job.specs[k].width, job.specs[k].height, job.p, minRect, solve);
    if sheet.Some? {
      SolvedIsSound(sheet.value, pool, groups, k, job, true);
      f := Some(Fill(k, sheet.value));
    }
  }

  /** The solver asked for the densest fill, columns one way. */
  method Opening(job: Job, pool: seq<Piece>, k: nat, transposed: bool, byId: seq<Piece> -> seq<Piece>, minRect: int,
                 solve: E.Solver) returns (f: Option<Fill>)
    requires k < |job.specs| && AllValid(pool) && IsOrder(byId) && E.Honest(solve, false)
    ensures O.GoodOpening(f, pool, k, job)
    ensures f.None? <==>
            E.Unfilled(Groups(byId, pool), job.specs[k].width, job.specs[k].height, job.p, transposed, solve)
  {
    hide E.Honest, E.Sound, E.Unsolved, E.Unfilled, FillSound, M.Grouped, K.Flatten, IsOrder, PiecesOf;
    f := None;
    var groups := Groups(byId, pool);
    var sheet := E.SolveBin(groups, job.specs[k].width, job.specs[k].height, job.p, false, transposed, minRect, solve);
    if sheet.Some? {
      SolvedIsSound(sheet.value, pool, groups, k, job, false);
      f := Some(Fill(k, sheet.value));
    }
  }

  /** The densest opening is one of the bin type asked for when no two types are alike. */
  method Densest(x: O.DenseOpenings, pool: seq<Piece>, k: nat) returns (f: Option<Fill>)
    requires x.Valid() && k < |x.job.specs| && AllValid(pool)
    modifies x
    ensures x.Valid()
    ensures SpecsApart(x.job) ==> GoodFill(f, pool, k, x.job, false)
  {
    hide FillOk, SpecsApart, Signature;
    f := x.BestFill(pool, k);
  }

  // ---- several bins at once -----------------------------------------------------------------------

  function ShapesOf(kinds: seq<nat>, job: Job): (shapes: seq<T.BinShape>)
    requires forall k :: k in kinds ==> k < |job.specs|
    ensures |shapes| == |kinds|
    ensures forall i :: 0 <= i < |kinds| ==>
              shapes[i] == (assert kinds[i] in kinds; T.BinShape(job.specs[kinds[i]].width, job.specs[kinds[i]].height,
                                                                 false))
  {
    seq(|kinds|, i requires 0 <= i < |kinds| =>
      assert kinds[i] in kinds; T.BinShape(job.specs[kinds[i]].width, job.specs[kinds[i]].height, false))
  }

  function AsFills(sheets: seq<BinFill>, kinds: seq<nat>): (fills: seq<Fill>)
    requires |sheets| == |kinds|
    ensures |fills| == |sheets| && forall i :: 0 <= i < |fills| ==> fills[i] == Fill(kinds[i], sheets[i])
  {
    seq(|sheets|, i requires 0 <= i < |sheets| => Fill(kinds[i], sheets[i]))
  }

  lemma {:induction false} SamePieces(sheets: seq<BinFill>, kinds: seq<nat>)
    requires |sheets| == |kinds|
    ensures AllPieces(AsFills(sheets, kinds)) == T.PiecesOver(sheets)
  {
    hide PiecesOf;
    if sheets != [] {
      var n := |sheets| - 1;
      SamePieces(sheets[..n], kinds[..n]);
      assert AsFills(sheets, kinds)[..n] == AsFills(sheets[..n], kinds[..n]);
    }
  }

  lemma BinsAreSound(sheets: seq<BinFill>, kinds: seq<nat>, job: Job, pool: seq<Piece>)
    requires (forall k :: k in kinds ==> k < |job.specs|) && |sheets| == |kinds|
    requires T.SoundBins(sheets, ShapesOf(kinds, job), job.p, pool)
    ensures AllSound(AsFills(sheets, kinds), job)
  {
    hide Cuttable, UsableBounds, BoxesOf;
    var fills := AsFills(sheets, kinds);
    forall f | f in fills ensures FillSound(f, job) {
      var i :| 0 <= i < |fills| && fills[i] == f;
      assert kinds[i] in kinds;
      var boxes, s := BoxesOf(f.sheet.placed), job.specs[f.kind];
      CuttableHereditary(UsableBounds(s.width, s.height, job.p), boxes + f.sheet.remainders, boxes, job.p.kerf);
    }
  }

  predicate WholeMillimetres(kinds: seq<nat>, job: Job, pieces: seq<Piece>) {
    && job.p.kerf % 100 == 0
    && (forall k :: k in kinds && k < |job.specs| ==> job.specs[k].width % 100 == 0 && job.specs[k].height % 100 == 0)
    && forall q :: q in pieces ==> q.width % 100 == 0 && q.height % 100 == 0
  }

  /** Tenths of a millimetre, or whole ones when every length is one. */
  function UnitOf(kinds: seq<nat>, job: Job, pieces: seq<Piece>): (unit: int)
    ensures unit > 0
    ensures InTenths(pieces, job) ==> job.p.kerf % unit == 0 && T.WholePieces(pieces, unit)
  {
    if WholeMillimetres(kinds, job, pieces) then 100 else 10
  }

  lemma SameWhole(a: seq<Piece>, b: seq<Piece>, unit: int)
    requires unit > 0 && multiset(a) == multiset(b) && T.WholePieces(a, unit)
    ensures T.WholePieces(b, unit)
  {
    forall q | q in b ensures q in a { assert q in multiset(b); }
  }

  /** The three-stage solver asked to put everything on the given bins: every piece once,
      and soundly when lengths are whole tenths of a millimetre. */
  method Refit(job: Job, pieces: seq<Piece>, kinds: seq<nat>, byId: seq<Piece> -> seq<Piece>, minRect: int,
               combos: seq<seq<bool>>, solve: B.TowerSolver) returns (r: Option<seq<Fill>>)
    requires AllValid(pieces) && IsOrder(byId) && B.HonestTowers(solve)
    requires (forall k :: k in kinds ==> k < |job.specs|) && forall c :: c in combos ==> |c| == |kinds|
    ensures GoodRefit(r, kinds, pieces, job)
    ensures r.Some? ==> Covers(r.value, pieces)
  {
    hide B.HonestTowers, T.SoundBins, M.Grouped, K.Flatten, IsOrder, AllSound, AllPieces, T.PiecesOver, T.ValidFrames,
         T.WholePieces, InTenths;
    OrderedValid(byId, pieces);
    var groups := G.GroupsOf(byId(pieces));
    var shapes, unit := ShapesOf(kinds, job), UnitOf(kinds, job, pieces);
    var sheets := B.FitsBins(groups, shapes, job.p, unit, minRect, combos, solve);
    if sheets.None? { return None; }
    var fills := AsFills(sheets.value, kinds);
    SamePieces(sheets.value, kinds);
    assert KindsOf(fills) == kinds;
    if InTenths(pieces, job) {
      SameWhole(pieces, K.Flatten(groups), unit);
      BinsAreSound(sheets.value, kinds, job, K.Flatten(groups));
    }
    r := Some(fills);
  }

  // ---- the optimizer asked again --------------------------------------------------------------------

  /** A job of one bin type in unlimited supply. */
  function Alone(job: Job, k: nat): Job
    requires k < |job.specs|
  {
    Job([job.specs[k].(count := None)], job.p)
  }

  /** Its fills as fills of the job. */
  function Back(fills: seq<Fill>, k: nat): (r: seq<Fill>)
    ensures |r| == |fills| && forall i :: 0 <= i < |r| ==> r[i] == Fill(k, fills[i].sheet)
  {
    seq(|fills|, i requires 0 <= i < |fills| => Fill(k, fills[i].sheet))
  }

  lemma {:induction false} BackPieces(fills: seq<Fill>, k: nat)
    ensures AllPieces(Back(fills, k)) == AllPieces(fills)
  {
    hide PiecesOf;
    if fills != [] {
      var n := |fills| - 1;
      BackPieces(fills[..n], k);
      assert Back(fills, k)[..n] == Back(fills[..n], k);
    }
  }

  lemma BackSound(fills: seq<Fill>, k: nat, job: Job)
    requires k < |job.specs| && AllSound(fills, Alone(job, k))
    ensures forall f :: f in Back(fills, k) ==> f.kind == k && FillSound(f, job)
  {
    hide Cuttable, UsableBounds, BoxesOf;
    var back := Back(fills, k);
    forall f | f in back ensures f.kind == k && FillSound(f, job) {
      var i :| 0 <= i < |back| && back[i] == f;
      assert fills[i] in fills && FillSound(fills[i], Alone(job, k));
    }
  }

  /** The pieces of one sheet re-packed on one bin type with the real blade: the optimizer
      without repairs, on that type alone. */
  method Repacked(job: Job, group: seq<Piece>, k: nat, x: Searcher, greedy: Prober, c: Choices, h: Helpers)
    returns (a: Answer)
    requires k < |job.specs| && x.Valid() && x.job == Alone(job, k) && HonestProber(greedy, x.job, false)
    requires HonestChooser(c.choose) && AllValid(group) && Distinct(group)
    modifies x
    ensures x.Valid() && GoodRepack(a, group, k, job)
  {
    hide HonestProber, HonestChooser, AllValid, Distinct, AllSound, AllPieces, Baseline, Placeable, Covers,
         HonestHelpers, StockSafe, RepairsSound, RepairAdopted, FillSound;
    var fills, unplaced := Optimize(x, group, greedy, c, false, h);
    BackPieces(fills, k);
    BackSound(fills, k, job);
    a := Answer(Back(fills, k), unplaced);
  }

  /** The same job with a thinner blade. */
  function Thinner(job: Job, delta: nat): Job
    requires delta <= job.p.kerf
  {
    job.(p := job.p.(kerf := job.p.kerf - delta))
  }

  lemma ThinnerIsAlike(job: Job, delta: nat, fills: seq<Fill>)
    requires delta <= job.p.kerf
    ensures StockSafe(Thinner(job, delta)) <==> StockSafe(job)
    ensures WithinStock(fills, Zeros(Thinner(job, delta)), Thinner(job, delta)) <==> WithinStock(fills, Zeros(job), job)
  {
    hide Times;
    forall kind: nat ensures SiblingOf(kind, Thinner(job, delta)) == SiblingOf(kind, job) {}
    assert Zeros(Thinner(job, delta)) == Zeros(job);
  }

  /** All pieces packed with a thinner blade: the optimizer without repairs. */
  method Relaxed(job: Job, pieces: seq<Piece>, delta: nat, x: Searcher, greedy: Prober, c: Choices, h: Helpers)
    returns (a: Answer)
    requires delta <= job.p.kerf && job.specs != [] && x.Valid() && x.job == Thinner(job, delta)
    requires HonestProber(greedy, x.job, false) && HonestChooser(c.choose) && AllValid(pieces) && Distinct(pieces)
    modifies x
    ensures x.Valid() && GoodRelaxed(a, pieces, job)
  {
    hide HonestProber, HonestChooser, AllValid, Distinct, AllPieces, Baseline, Placeable, HonestHelpers, StockSafe,
         RepairsSound, RepairAdopted, WithinStock;
    ThinnerIsAlike(job, delta, []);
    var fills, unplaced := Optimize(x, pieces, greedy, c, false, h);
    ThinnerIsAlike(job, delta, fills);
    a := Answer(fills, unplaced);
  }
}
