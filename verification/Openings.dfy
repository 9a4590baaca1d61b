/**
`exact_best_fill` of search.py: the densest opening of a bin, asked of the solver at
most once per pool of the same types and bin of the same material and size.
*/
module Openings {
  import opened Geometry
  import opened Plans
  import opened Sequences
  import opened Sheets
  import opened Constructors
  import opened Strips
  import opened Bounds
  import opened SearchPlans
  import opened Incumbents
  import opened Searching

  /** What an opening is remembered under: the pool's types, the material and the size,
      but neither the price nor the supply of the bin. */
  type OpeningKey = (multiset<PieceType>, string, int, int)

  function KeyOf(signature: multiset<PieceType>, s: BinSpec): OpeningKey {
    (signature, s.key, s.width, s.height)
  }

  /** The solver's answer for one direction of the first cuts. */
  type Opener = (nat, seq<Piece>, nat, bool) -> Option<Fill>

  /** A sound fill of one bin type with pieces of the pool, perhaps of none. */
  ghost predicate GoodOpening(f: Option<Fill>, pool: seq<Piece>, k: nat, job: Job) {
    f.Some? ==> f.value.kind == k && FillSound(f.value, job) && multiset(PlacedIn(f.value)) <= multiset(pool)
  }

  ghost predicate HonestOpener(solve: Opener, job: Job) {
    forall ask: nat, pool: seq<Piece>, k: nat, transposed: bool ::
      k < |job.specs| && AllValid(pool) ==> GoodOpening(solve(ask, pool, k, transposed), pool, k, job)
  }

  /** A remembered opening: a sound fill of pieces of these types, on some bin type of
      this material and size. */
  ghost predicate Opens(key: OpeningKey, f: Fill, job: Job) {
    && FillSound(f, job) && f.sheet.placed != [] && Signature(PlacedIn(f)) <= key.0
    && KeyOf(key.0, job.specs[f.kind]) == key
  }

  ghost predicate Remembered(memo: map<OpeningKey, Option<Fill>>, job: Job) {
    forall key :: key in memo && memo[key].Some? ==> Opens(key, memo[key].value, job)
  }

  class DenseOpenings {
    const job: Job
    const solve: Opener
    const byId: seq<Piece> -> seq<Piece>
    const maxPieces: nat
    var remaining: int
    var asks: nat
    var memo: map<OpeningKey, Option<Fill>>

    ghost predicate Valid()
      reads this
    {
      HonestOpener(solve, job) && IsOrder(byId) && Remembered(memo, job)
    }

    constructor (job: Job, solve: Opener, byId: seq<Piece> -> seq<Piece>, maxPieces: nat, calls: int)
      requires HonestOpener(solve, job) && IsOrder(byId)
      ensures Valid() && this.job == job && memo == map[] && remaining == calls
    {
      this.job, this.solve, this.byId, this.maxPieces := job, solve, byId, maxPieces;
      remaining, asks, memo := calls, 0, map[];
    }

    /** The densest opening of bin type `k`: sound, of pieces of the pool, on a bin of
        that material and size. A pool and bin already asked about cost no call, and
        the answer re-bound to this pool never fails. */
    method BestFill(pool: seq<Piece>, k: nat) returns (r: Option<Fill>)
      requires Valid() && k < |job.specs| && AllValid(pool)
      modifies this
      ensures Valid()
      ensures r.Some? ==>
                && FillOk(r.value, pool, job)
                && KeyOf(Signature(pool), job.specs[r.value.kind]) == KeyOf(Signature(pool), job.specs[k])
                && (SpecsApart(job) ==> r.value.kind == k)
      ensures var key := KeyOf(Signature(pool), job.specs[k]);
              if pool == [] || |pool| > maxPieces then r.None? && memo == old(memo) && remaining == old(remaining)
              else if key in old(memo) then memo == old(memo) && remaining == old(remaining)
                  && Answered(old(memo)[key], r)
              else if old(remaining) <= 0 then r.None? && memo == old(memo) && remaining == old(remaining)
              else key in memo && memo == old(memo)[key := memo[key]] && remaining == old(remaining) - 1
                   && Answered(memo[key], r) && Densest(memo[key], pool, k, old(asks))
    {
      hide HonestOpener, Opens, Signature, FillOk, SpecsApart, IsOrder, AllValid, SameLayout, Densest;
      if pool == [] || |pool| > maxPieces { return None; }
      var key := KeyOf(Signature(pool), job.specs[k]);
      if key !in memo {
        if remaining <= 0 { return None; }
        remaining := remaining - 1;
        var best := AskBoth(pool, k);
        memo := memo[key := best];
      }
      if memo[key].None? { return None; }
      var f := memo[key].value;
      r := Rebind(f, pool, byId);
      OpeningTypes(key, f, job);
      OpeningFits(key, f, r.value, pool, k, job);
    }

    /** Both directions of the first cuts, the denser answer, the first of two equals. */
    method AskBoth(pool: seq<Piece>, k: nat) returns (best: Option<Fill>)
      requires HonestOpener(solve, job) && k < |job.specs| && AllValid(pool)
      modifies this`asks
      ensures best.Some? ==> Opens(KeyOf(Signature(pool), job.specs[k]), best.value, job)
      ensures Densest(best, pool, k, old(asks))
    {
      hide FillSound, AllValid, Signature, PlacedIn, UsedArea;
      best := None;
      for turned := 0 to 2
        invariant asks == old(asks) + turned
        invariant best.Some? ==> Opens(KeyOf(Signature(pool), job.specs[k]), best.value, job)
        invariant turned >= 1 ==> NoDenser(best, solve(old(asks), pool, k, false))
        invariant turned >= 2 ==> NoDenser(best, solve(old(asks) + 1, pool, k, true))
      {
        var candidate := solve(asks, pool, k, turned == 1);
        asks := asks + 1;
        if candidate.None? || candidate.value.sheet.placed == [] { continue; }
        SubpoolSignature(PlacedIn(candidate.value), pool);
        if best.None?
            || UsedArea(candidate.value.sheet.placed) > UsedArea(best.value.sheet.placed) { best := candidate; }
      }
    }

    /** Neither direction's answer covers more. */
    ghost predicate Densest(best: Option<Fill>, pool: seq<Piece>, k: nat, ask: nat) {
      NoDenser(best, solve(ask, pool, k, false)) && NoDenser(best, solve(ask + 1, pool, k, true))
    }
  }

  predicate NoDenser(best: Option<Fill>, f: Option<Fill>) {
    f.Some? && f.value.sheet.placed != [] ==>
        best.Some? && UsedArea(f.value.sheet.placed) <= UsedArea(best.value.sheet.placed)
  }

  /** The remembered layout with pieces of this pool, or nothing when nothing was found. */
  predicate Answered(remembered: Option<Fill>, r: Option<Fill>) {
    if remembered.Some? then r.Some? && SameLayout(remembered.value, r.value) else r.None?
  }

  lemma OpeningTypes(key: OpeningKey, f: Fill, job: Job)
    requires Opens(key, f, job)
    ensures Signature(PlacedIn(f)) <= key.0
  {
  }

  lemma OpeningFits(key: OpeningKey, f: Fill, g: Fill, pool: seq<Piece>, k: nat, job: Job)
    requires Opens(key, f, job) && k < |job.specs| && key == KeyOf(Signature(pool), job.specs[k])
    requires SameLayout(f, g) && multiset(PlacedIn(g)) <= multiset(pool)
    ensures FillOk(g, pool, job) && KeyOf(Signature(pool), job.specs[g.kind]) == key
    ensures SpecsApart(job) ==> g.kind == k
  {
    hide FillSound, Signature, PlacedIn;
    SameLayoutSound(f, g, job);
    SoundIsKind(f, job);
    assert Alike(g.kind, k, job) && Alike(k, g.kind, job);
  }

  lemma SoundIsKind(f: Fill, job: Job)
    requires FillSound(f, job)
    ensures f.kind < |job.specs|
  {
  }

  /** Asked for one bin type and then, with a pool of the same types, for another: once the
      first answer was a fill of its own type, the second is a fill of the first type
      exactly when the two agree in material and size, whatever their price and supply. */
  method AskTwice(x: DenseOpenings, pool: seq<Piece>, j: nat, again: seq<Piece>, k: nat)
    returns (first: Option<Fill>, second: Option<Fill>)
    requires x.Valid() && j < |x.job.specs| && k < |x.job.specs| && AllValid(pool) && AllValid(again)
    requires Signature(pool) == Signature(again)
    modifies x
    ensures x.Valid()
    ensures first.Some? && first.value.kind == j ==> (second.Some? && second.value.kind == j <==> Alike(j, k, x.job))
    ensures first.Some? && first.value.kind == j && Alike(j, k, x.job) ==>
            SamePlaces(first.value.sheet.placed, second.value.sheet.placed)
  {
    hide HonestOpener, Opens, Signature, FillOk, SpecsApart, IsOrder, AllValid;
    SignatureLength(pool);
    SignatureLength(again);
    first := x.BestFill(pool, j);
    second := x.BestFill(again, k);
  }

  /** What opening a bin of type `k` and putting a fill of another type in it does to the
      books: the running bill is right exactly when both cost the same, the running count
      of bins never is, and the plan stays within stock exactly when a bin of the fill's
      own type was left. */
  lemma MisbookedIff(s: State, f: Fill, k: nat, pieces: seq<Piece>, base: seq<nat>, job: Job)
    requires StateOk(s, pieces, base, job) && FillSound(f, job) && InStock(k, s.used, job)
    ensures f.kind < |job.specs|
    ensures s.cost + job.specs[k].cost == CostOf(s.fills + [f], job) <==> job.specs[k].cost == job.specs[f.kind].cost
    ensures Tallied(s.used[k := s.used[k] + 1], s.fills + [f], base) <==> f.kind == k
    ensures WithinStock(s.fills + [f], base, job) <==> InStock(f.kind, s.used, job)
  {
    hide FillSound, Times, CostOf, AllPieces, Distinct, AllValid;
    SoundIsKind(f, job);
    OneMoreFill(s.fills, f, base, job);
    var used := s.used[k := s.used[k] + 1];
    if Tallied(used, s.fills + [f], base) { assert used[k] == base[k] + Times(s.fills + [f], k); }
    if InStock(f.kind, s.used, job) { StockAfter(s.fills, f, s.used, base, job); }
    if WithinStock(s.fills + [f], base, job) && job.specs[f.kind].count.Some? {
      assert base[f.kind] + Times(s.fills + [f], f.kind) <= job.specs[f.kind].count.value;
    }
  }
}
