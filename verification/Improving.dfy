/**
What search.py's changes to a complete plan rest on: some sheets of it ruined and the
others kept.
*/
module Improving {
  import opened Geometry
  import opened Plans
  import opened Sequences
  import opened Sheets
  import opened Constructors
  import opened Strips
  import opened Bounds
  import opened SearchPlans
  import opened Incumbents
  import opened Searching
  import opened Beam

  function Zeros(job: Job): (z: seq<nat>)
    ensures |z| == |job.specs| && forall k :: 0 <= k < |z| ==> z[k] == 0
  {
    seq(|job.specs|, _ => 0)
  }

  /** A complete plan for the pool that respects the stock. */
  ghost predicate PlanFor(fills: seq<Fill>, pool: seq<Piece>, job: Job) {
    Partition(fills, pool, job) && WithinStock(fills, Zeros(job), job)
  }

  // ---- some sheets apart from the others -------------------------------------------------

  /** The fills whose place is in `places`, or the others. */
  function Part(fills: seq<Fill>, places: set<nat>, inside: bool): (r: seq<Fill>)
    ensures forall f :: f in r ==> f in fills
  {
    if fills == [] then []
    else Part(fills[..|fills|-1], places, inside) + if (|fills| - 1 in places) == inside then [fills[|fills|-1]] else []
  }

  lemma {:induction false} PartsAreAll(fills: seq<Fill>, places: set<nat>)
    ensures multiset(Part(fills, places, false) + Part(fills, places, true)) == multiset(fills)
  {
    if fills != [] {
      PartsAreAll(fills[..|fills|-1], places);
      assert fills == fills[..|fills|-1] + [fills[|fills|-1]];
    }
  }

  lemma {:induction false} PiecesPermuted(a: seq<Fill>, b: seq<Fill>)
    requires multiset(a) == multiset(b)
    ensures multiset(AllPieces(a)) == multiset(AllPieces(b))
  {
    NothingElse(a, b);
    if a != [] {
      var i := OneTaken(a, b);
      PiecesPermuted(a[..|a|-1], b[..i] + b[i+1..]);
      AllPiecesConcat(b[..i], b[i+1..]);
      AllPiecesLast(b[..i], b[i]);
      AllPiecesConcat(b[..i] + [b[i]], b[i+1..]);
      PiecesApart(b[..i], b[i], b[i+1..]);
    }
  }

  lemma PiecesApart(a: seq<Fill>, f: Fill, b: seq<Fill>)
    ensures multiset(AllPieces(a) + PlacedIn(f) + AllPieces(b)) ==
            multiset(AllPieces(a) + AllPieces(b)) + multiset(PlacedIn(f))
  {
  }

  /** Component by component. */
  function PlusObjective(a: Objective, b: Objective): Objective {
    Objective(a.cost + b.cost, a.sheets + b.sheets, a.unplaced + b.unplaced, a.waste + b.waste,
              a.cutLength + b.cutLength)
  }

  lemma ObjectiveConcat(a: seq<Fill>, b: seq<Fill>, unplaced: seq<Piece>, job: Job)
    ensures ObjectiveOf(Solution(a + b, unplaced), job) ==
            PlusObjective(ObjectiveOf(Solution(a, unplaced), job), ObjectiveOf(Solution(b, []), job))
  {
    SumByConcat(CostIn(job), a, b);
    SumByConcat(WasteIn(job), a, b);
    SumByConcat(TravelIn, a, b);
  }

  lemma ObjectivePermuted(a: seq<Fill>, b: seq<Fill>, unplaced: seq<Piece>, job: Job)
    requires multiset(a) == multiset(b)
    ensures ObjectiveOf(Solution(a, unplaced), job) == ObjectiveOf(Solution(b, unplaced), job)
  {
    NothingElse(a, b);
    SumByPermuted(CostIn(job), a, b);
    SumByPermuted(WasteIn(job), a, b);
    SumByPermuted(TravelIn, a, b);
  }

  lemma BeatsPlus(k: Objective, a: Objective, b: Objective)
    requires Beats(a, b)
    ensures Beats(PlusObjective(k, a), PlusObjective(k, b))
  {
  }

  /** Beating the ruined sheets on their own beats the whole plan: the comparison made
      after a successful repair cannot fail. */
  lemma PartImproves(fills: seq<Fill>, kept: seq<Fill>, ruined: seq<Fill>, sub: seq<Fill>, unplaced: seq<Piece>,
                     job: Job)
    requires multiset(kept + ruined) == multiset(fills)
    requires Beats(ObjectiveOf(Solution(sub, []), job), ObjectiveOf(Solution(ruined, []), job))
    ensures Beats(ObjectiveOf(Solution(kept + sub, unplaced), job), ObjectiveOf(Solution(fills, unplaced), job))
  {
    hide Beats, ObjectiveOf;
    ObjectivePermuted(kept + ruined, fills, unplaced, job);
    ObjectiveConcat(kept, ruined, unplaced, job);
    ObjectiveConcat(kept, sub, unplaced, job);
    BeatsPlus(ObjectiveOf(Solution(kept, unplaced), job), ObjectiveOf(Solution(sub, []), job),
              ObjectiveOf(Solution(ruined, []), job));
  }

  // ---- what is left in stock, and what is left to place -------------------------------------

  function UsedBy(fills: seq<Fill>, job: Job): (used: seq<nat>)
    ensures |used| == |job.specs| && forall k: nat :: k < |used| ==> used[k] == Times(fills, k)
  {
    seq(|job.specs|, k requires 0 <= k => TimesNat(fills, k))
  }

  function TimesNat(fills: seq<Fill>, k: nat): (n: nat)
    ensures n == Times(fills, k)
  {
    TimesNonNegative(fills, k);
    Times(fills, k)
  }

  lemma {:induction false} TimesNonNegative(fills: seq<Fill>, k: nat)
    ensures Times(fills, k) >= 0
  {
    if fills != [] { TimesNonNegative(fills[..|fills|-1], k); }
  }

  lemma SubpoolDistinct(a: seq<Piece>, pool: seq<Piece>)
    requires Distinct(pool) && multiset(a) <= multiset(pool)
    ensures Distinct(a)
  {
    forall i, j | 0 <= i < j < |a| ensures a[i].id != a[j].id {
      assert a[i] in multiset(a) && a[j] in multiset(a);
      if a[i].id == a[j].id {
        SameId(pool, a[i], a[j]);
        Twice(a, i, j);
        DistinctCounts(pool, a[i]);
      }
    }
  }

  lemma Twice(a: seq<Piece>, i: nat, j: nat)
    requires i < j < |a| && a[i] == a[j]
    ensures multiset(a)[a[i]] >= 2
  {
    assert a == a[..i] + [a[i]] + a[i+1..j] + [a[j]] + a[j+1..];
  }

  lemma SubpoolValid(a: seq<Piece>, pool: seq<Piece>)
    requires AllValid(pool) && multiset(a) <= multiset(pool)
    ensures AllValid(a)
  {
    forall p | p in a ensures ValidPiece(p) { assert p in multiset(pool); }
  }

  /** The ruined sheets free their pieces and their bins, and nothing else. */
  lemma RuinedPool(fills: seq<Fill>, kept: seq<Fill>, ruined: seq<Fill>, pool: seq<Piece>, job: Job)
    requires PlanFor(fills, pool, job) && Distinct(pool) && AllValid(pool) && multiset(kept + ruined) == multiset(fills)
    ensures var freed := AllPieces(ruined);
            && Distinct(freed) && AllValid(freed)
            && multiset(AllPieces(kept)) + multiset(freed) == multiset(pool)
            && WithinStock([], UsedBy(kept, job), job)
  {
    hide FillSound, AllValid, Distinct, Times;
    PiecesPermuted(kept + ruined, fills);
    AllPiecesConcat(kept, ruined);
    SubpoolDistinct(AllPieces(ruined), pool);
    SubpoolValid(AllPieces(ruined), pool);
    forall k: nat | k < |job.specs| && job.specs[k].count.Some?
      ensures Times(kept, k) + Times([], k) <= job.specs[k].count.value
    {
      KindTimes(kept, ruined, fills, k);
      TimesNonNegative(ruined, k);
      NoFills(k);
    }
  }

  lemma NoFills(k: nat)
    ensures Times([], k) == 0
  {
  }

  lemma KindTimes(a: seq<Fill>, b: seq<Fill>, fills: seq<Fill>, k: nat)
    requires multiset(a + b) == multiset(fills)
    ensures Times(a, k) + Times(b, k) == Times(fills, k)
  {
    SumByConcat(OfBin(k), a, b);
    SumByPermuted(OfBin(k), a + b, fills);
  }

  /** Kept sheets and new ones make a plan again. */
  lemma Reassembled(fills: seq<Fill>, kept: seq<Fill>, ruined: seq<Fill>, sub: seq<Fill>, pool: seq<Piece>, job: Job)
    requires PlanFor(fills, pool, job) && multiset(kept + ruined) == multiset(fills)
    requires multiset(AllPieces(kept)) + multiset(AllPieces(ruined)) == multiset(pool)
             && Partition(sub, AllPieces(ruined), job) && WithinStock(sub, UsedBy(kept, job), job)
    ensures PlanFor(kept + sub, pool, job)
  {
    hide FillSound, AllPieces, WithinStock;
    NothingElse(kept + ruined, fills);
    AllPiecesConcat(kept, sub);
    StockTogether(kept, sub, job);
    forall f | f in kept ensures f in fills { assert f in multiset(kept + ruined); }
    assert AllSound(kept + sub, job);
  }

  lemma StockTogether(kept: seq<Fill>, sub: seq<Fill>, job: Job)
    requires WithinStock(sub, UsedBy(kept, job), job)
    ensures WithinStock(kept + sub, Zeros(job), job)
  {
    hide Times;
    forall k: nat | k < |job.specs| && job.specs[k].count.Some?
      ensures Times(kept + sub, k) <= job.specs[k].count.value
    {
      KindTimes(kept, sub, kept + sub, k);
    }
  }
}
