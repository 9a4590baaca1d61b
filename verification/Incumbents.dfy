/**
What the beam of search.py carries: partial plans, the best complete plan so far,
and the partial plans it gave up on because of their lower bounds.
*/
module Incumbents {
  import opened Geometry
  import opened Guillotine
  import opened Plans
  import opened Sequences
  import opened Sheets
  import opened Constructors
  import opened Strips
  import opened Bounds
  import opened SearchPlans

  predicate Distinct(pool: seq<Piece>) {
    forall i, j :: 0 <= i < j < |pool| ==> pool[i].id != pool[j].id
  }

  /** A pool with pairwise distinct ids loses exactly the placed pieces. */
  lemma {:induction false} DropPlacedExactly(pool: seq<Piece>, placed: seq<Placed>)
    requires Distinct(pool) && multiset(PiecesOf(placed)) <= multiset(pool)
    ensures multiset(DropPlaced(pool, placed)) + multiset(PiecesOf(placed)) == multiset(pool)
  {
    var P, D := multiset(PiecesOf(placed)), multiset(DropPlaced(pool, placed));
    forall p ensures (D + P)[p] == multiset(pool)[p] {
      DropPlacedCount(pool, placed, p);
      DistinctCounts(pool, p);
      if HasId(placed, p.id) {
        var q :| q in placed && q.piece.id == p.id;
        var i :| 0 <= i < |placed| && placed[i] == q;
        assert PiecesOf(placed)[i] == q.piece;
        assert q.piece in P && q.piece in multiset(pool);
        if p in pool { SameId(pool, p, q.piece); }
      } else if p in P {
        PlacedPieceHasId(placed, p);
      }
    }
  }

  lemma SameId(pool: seq<Piece>, p: Piece, q: Piece)
    requires Distinct(pool) && p in pool && q in pool && p.id == q.id
    ensures p == q
  {
    var i :| 0 <= i < |pool| && pool[i] == p;
    var j :| 0 <= j < |pool| && pool[j] == q;
  }

  lemma {:induction false} DistinctCounts(pool: seq<Piece>, p: Piece)
    requires Distinct(pool)
    ensures multiset(pool)[p] <= 1
  {
    if pool != [] {
      var init, last := pool[..|pool|-1], pool[|pool|-1];
      assert pool == init + [last];
      DistinctCounts(init, p);
    }
  }

  lemma {:induction false} DropPlacedKeepsDistinct(pool: seq<Piece>, placed: seq<Placed>)
    requires Distinct(pool)
    ensures Distinct(DropPlaced(pool, placed))
  {
    if pool != [] {
      var init, last := pool[..|pool|-1], pool[|pool|-1];
      DropPlacedKeepsDistinct(init, placed);
      var rest := DropPlaced(init, placed);
      forall i | 0 <= i < |rest| ensures rest[i].id != last.id {
        assert rest[i] in init;
        var j :| 0 <= j < |init| && init[j] == rest[i];
      }
    }
  }

  // ---- partial plans -------------------------------------------------------------------

  /** Some bins filled, `pool` still to place; `used` counts the bins of each type gone. */
  datatype State = State(pool: seq<Piece>, fills: seq<Fill>, used: seq<nat>, cost: int)

  ghost predicate Tallied(used: seq<nat>, fills: seq<Fill>, base: seq<nat>) {
    |used| == |base| && forall k: nat :: k < |base| ==> used[k] == base[k] + Times(fills, k)
  }

  ghost predicate StateOk(s: State, pieces: seq<Piece>, base: seq<nat>, job: Job) {
    && s.pool != [] && Distinct(s.pool) && AllValid(s.pool)
    && multiset(AllPieces(s.fills)) + multiset(s.pool) == multiset(pieces)
    && AllSound(s.fills, job) && WithinStock(s.fills, base, job)
    && Tallied(s.used, s.fills, base) && s.cost == CostOf(s.fills, job)
  }

  predicate InStock(k: nat, used: seq<nat>, job: Job) {
    k < |job.specs| && k < |used| && (job.specs[k].count.Some? ==> used[k] < job.specs[k].count.value)
  }

  /** Opening one more bin of a type still in stock stays within it. */
  lemma StockAfter(fills: seq<Fill>, f: Fill, used: seq<nat>, base: seq<nat>, job: Job)
    requires WithinStock(fills, base, job) && Tallied(used, fills, base) && InStock(f.kind, used, job)
    ensures WithinStock(fills + [f], base, job)
    ensures Tallied(used[f.kind := used[f.kind] + 1], fills + [f], base)
  {
    hide Times;
    OneMoreFill(fills, f, base, job);
  }

  // ---- the incumbent --------------------------------------------------------------------

  /** The best complete plan found, and the objective a better one must beat. */
  datatype Incumbent = Incumbent(best: Option<Solution>, bar: Option<Objective>)

  ghost predicate IncumbentOk(i: Incumbent, upper: Option<Objective>, pieces: seq<Piece>, base: seq<nat>, job: Job) {
    && (i.best.None? ==> i.bar == upper)
    && (i.best.Some? ==>
          && i.bar == Some(ObjectiveOf(i.best.value, job)) && i.best.value.unplaced == []
          && Partition(i.best.value.fills, pieces, job) && WithinStock(i.best.value.fills, base, job)
          && (upper.Some? ==> Beats(i.bar.value, upper.value)))
  }

  function Register(i: Incumbent, fills: seq<Fill>, job: Job): Incumbent {
    var candidate := Solution(fills, []);
    if i.bar.None? || Beats(ObjectiveOf(candidate, job), i.bar.value)
        then Incumbent(Some(candidate), Some(ObjectiveOf(candidate, job)))
    else i
  }

  /** The bar never rises. */
  predicate Lowers(after: Option<Objective>, before: Option<Objective>) {
    before.Some? ==> after.Some? && NotWorse(after.value, before.value)
  }

  lemma BeatsTransitive(a: Objective, b: Objective, c: Objective)
    requires NotWorse(a, b) && NotWorse(b, c)
    ensures NotWorse(a, c)
    ensures Beats(a, b) || Beats(b, c) ==> Beats(a, c)
  {
  }

  lemma RegisterOk(i: Incumbent, fills: seq<Fill>, upper: Option<Objective>, pieces: seq<Piece>, base: seq<nat>,
                   job: Job)
    requires IncumbentOk(i, upper, pieces, base, job)
    requires Partition(fills, pieces, job) && WithinStock(fills, base, job)
    ensures IncumbentOk(Register(i, fills, job), upper, pieces, base, job)
    ensures Lowers(Register(i, fills, job).bar, i.bar)
  {
    hide Partition, WithinStock, ObjectiveOf, Beats;
    var after := Register(i, fills, job);
    if after != i && i.bar.Some? && upper.Some? {
      BeatsTransitive(after.bar.value, i.bar.value, upper.value);
    }
  }

  // ---- states given up -------------------------------------------------------------------

  /** A partial plan: what it still has to place, its bill and its sheets. */
  datatype Dropped = Dropped(pool: seq<Piece>, cost: int, sheets: nat)

  /** However it is completed, it bills more than the bar, or as much on more sheets. */
  ghost predicate CannotWin(d: Dropped, bar: Objective, job: Job) {
    forall rest :: Complete(rest, d.pool, job.specs, job.p) ==>
      var cost, sheets := d.cost + Cost(SpecsOf(rest)), d.sheets + |rest|;
      cost > bar.cost || (cost == bar.cost && sheets > bar.sheets)
  }

  ghost predicate NoneCanWin(dropped: seq<Dropped>, bar: Option<Objective>, job: Job) {
    dropped != [] ==> bar.Some? && forall d :: d in dropped ==> CannotWin(d, bar.value, job)
  }

  lemma CannotWinLower(d: Dropped, bar: Objective, bar': Objective, job: Job)
    requires CannotWin(d, bar, job) && NotWorse(bar', bar)
    ensures CannotWin(d, bar', job)
  {
    hide Complete, Cost;
  }

  lemma NoneCanWinLower(dropped: seq<Dropped>, bar: Option<Objective>, bar': Option<Objective>, job: Job)
    requires NoneCanWin(dropped, bar, job) && Lowers(bar', bar)
    ensures NoneCanWin(dropped, bar', job)
  {
    hide CannotWin;
    forall d | d in dropped ensures CannotWin(d, bar'.value, job) { CannotWinLower(d, bar.value, bar'.value, job); }
  }

  predicate Exceeds(cost: real, sheets: int, bar: Objective) {
    cost > bar.cost as real || (cost == bar.cost as real && sheets > bar.sheets)
  }

  /** A state whose bounds exceed the bar cannot be completed into anything better. */
  lemma BoundsExclude(d: Dropped, lb: real, bins: int, bar: Objective, job: Job)
    requires LowerBound(lb, PoolArea(d.pool), job.specs, job.p)
    requires forall plan :: Holds(plan, job.specs, PoolArea(d.pool), job.p) ==> bins <= |plan|
    requires Exceeds(d.cost as real + lb, d.sheets + bins, bar)
    ensures CannotWin(d, bar, job)
  {
    hide Complete, Cost, Holds, PoolArea;
    forall rest | Complete(rest, d.pool, job.specs, job.p)
      ensures var cost, sheets := d.cost + Cost(SpecsOf(rest)), d.sheets + |rest|;
              cost > bar.cost || (cost == bar.cost && sheets > bar.sheets)
    {
      CompleteHolds(rest, d.pool, job.specs, job.p);
      assert lb <= Cost(SpecsOf(rest)) as real;
      assert (d.cost + Cost(SpecsOf(rest))) as real == d.cost as real + Cost(SpecsOf(rest)) as real;
    }
  }

  /** Placed pieces cover what they are worth. */
  lemma {:induction false} UsedAreaIs(ps: seq<Placed>)
    requires forall q :: q in ps ==> Legal(q)
    ensures UsedArea(ps) == PoolArea(PiecesOf(ps))
  {
    if ps != [] {
      var init, last := ps[..|ps|-1], ps[|ps|-1];
      assert last in ps && forall q :: q in init ==> q in ps;
      UsedAreaIs(init);
      assert PiecesOf(ps) == PiecesOf(init) + [last.piece];
      SumByLast(PieceArea, PiecesOf(init), last.piece);
      assert last.width * last.height == last.piece.width * last.piece.height;
    }
  }

  /** The area still to place after a fill. */
  lemma RemainingArea(pool: seq<Piece>, rest: seq<Piece>, f: Fill, job: Job)
    requires FillSound(f, job) && multiset(rest) + multiset(PlacedIn(f)) == multiset(pool)
    ensures PoolArea(rest) == PoolArea(pool) - UsedArea(f.sheet.placed)
  {
    hide Cuttable;
    UsedAreaIs(f.sheet.placed);
    SumByConcat(PieceArea, rest, PlacedIn(f));
    SumByPermuted(PieceArea, rest + PlacedIn(f), pool);
  }
}
