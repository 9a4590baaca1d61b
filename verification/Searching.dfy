/**
The searcher of search.py: the memoised completion probe and the beam.

Which fills are tried is left open: a generator may answer anything, as long as
every fill it proposes is sound; `asks` numbers the calls, so that its answers may
depend on budgets and random state.
*/
module Searching {
  import opened Geometry
  import opened Plans
  import opened Sequences
  import opened Sheets
  import opened Constructors
  import opened Strips
  import opened Bounds
  import opened SearchPlans
  import opened Incumbents

  /** Candidate fills of one bin type from a pool. */
  type Generator = (nat, seq<Piece>, nat) -> seq<Fill>

  /** A fill that takes a whole pool, or the densest one found. */
  type Prober = (nat, seq<Piece>, nat) -> Option<Fill>

  /** Sound fills of one bin type with pieces of the pool. */
  ghost predicate GoodFills(fills: seq<Fill>, pool: seq<Piece>, k: nat, job: Job) {
    forall f :: f in fills ==> f.kind == k && FillOk(f, pool, job)
  }

  /** Such a fill, perhaps of the whole pool, or none. */
  ghost predicate GoodFill(f: Option<Fill>, pool: seq<Piece>, k: nat, job: Job, whole: bool) {
    f.Some? ==> f.value.kind == k && FillOk(f.value, pool, job) && (whole ==> |f.value.sheet.placed| == |pool|)
  }

  ghost predicate HonestGenerator(gen: Generator, job: Job) {
    forall ask: nat, pool: seq<Piece>, k: nat ::
        k < |job.specs| && AllValid(pool) ==> GoodFills(gen(ask, pool, k), pool, k, job)
  }

  ghost predicate HonestProber(probe: Prober, job: Job, whole: bool) {
    forall ask: nat, pool: seq<Piece>, k: nat ::
      k < |job.specs| && AllValid(pool) ==> GoodFill(probe(ask, pool, k), pool, k, job, whole)
  }

  /** No two bin types agree in material and size. */
  predicate SpecsApart(job: Job) {
    forall i, j :: 0 <= i < j < |job.specs| ==> !Alike(i, j, job)
  }

  /** Alike in what an opening is remembered under. */
  predicate Alike(j: nat, k: nat, job: Job)
    requires j < |job.specs| && k < |job.specs|
  {
    var a, b := job.specs[j], job.specs[k];
    a.key == b.key && a.width == b.width && a.height == b.height
  }

  /** Cheapest bin type first. */
  function Cheapest(specs: seq<BinSpec>): (nat, nat) -> bool {
    (a: nat, b: nat) =>
      if a < |specs| && b < |specs| then specs[a].cost < specs[b].cost || (specs[a].cost == specs[b].cost && a <= b)
      else a < |specs| || (b >= |specs| && a <= b)
  }

  lemma CheapestFirst(specs: seq<BinSpec>, kinds: seq<nat>)
    ensures Sorted(Cheapest(specs), SortBy(Cheapest(specs), kinds))
  {
    SortBySorts(Cheapest(specs), kinds);
  }

  type Key = (multiset<PieceType>, seq<nat>)

  /** A remembered fill takes every piece of a pool of its types, from stock. */
  ghost predicate Remembers(key: Key, f: Fill, job: Job) {
    FillSound(f, job) && f.sheet.placed != [] && Signature(PlacedIn(f)) == key.0 && InStock(f.kind, key.1, job)
  }

  /** A fill that closes a pool with one more bin. */
  ghost predicate Closes(f: Fill, pool: seq<Piece>, used: seq<nat>, job: Job) {
    FillOk(f, pool, job) && multiset(PlacedIn(f)) == multiset(pool) && InStock(f.kind, used, job)
  }

  lemma {:induction false} SignatureLength(ps: seq<Piece>)
    ensures |Signature(ps)| == |ps|
  {
    if ps != [] { SignatureLength(ps[..|ps|-1]); }
  }

  lemma WholePool<T>(a: seq<T>, pool: seq<T>)
    requires multiset(a) <= multiset(pool) && |a| == |pool|
    ensures multiset(a) == multiset(pool)
  {
    var rest := multiset(pool) - multiset(a);
    assert multiset(pool) == multiset(a) + rest;
    assert |multiset(pool)| == |multiset(a)| + |rest|;
  }

  /** Re-bound to any pool of its types a remembered fill closes that pool. */
  lemma RememberedCloses(key: Key, f: Fill, g: Fill, pool: seq<Piece>, job: Job)
    requires Remembers(key, f, job) && key.0 == Signature(pool)
    requires SameLayout(f, g) && multiset(PlacedIn(g)) <= multiset(pool)
    ensures Closes(g, pool, key.1, job)
  {
    hide FillSound, Signature;
    SameLayoutSound(f, g, job);
    SignatureLength(PlacedIn(f));
    SignatureLength(pool);
    WholePool(PlacedIn(g), pool);
  }

  lemma WholeFillRemembered(f: Fill, pool: seq<Piece>, used: seq<nat>, job: Job)
    requires FillOk(f, pool, job) && |f.sheet.placed| == |pool| && InStock(f.kind, used, job)
    ensures Remembers((Signature(pool), used), f, job)
  {
    hide FillSound, Signature;
    WholePool(PlacedIn(f), pool);
    SignaturePermuted(PlacedIn(f), pool);
  }

  // ---- piece types and areas ------------------------------------------------------------------

  function TypeArea(t: PieceType): int {
    t.width * t.height
  }

  lemma {:induction false} TypesListed(pool: seq<Piece>)
    ensures multiset(MapBy(TypeOf, pool)) == Signature(pool) && PoolArea(pool) == SumBy(TypeArea, MapBy(TypeOf, pool))
  {
    if pool != [] {
      var init, last := pool[..|pool|-1], pool[|pool|-1];
      TypesListed(init);
      SumByLast(TypeArea, MapBy(TypeOf, init), TypeOf(last));
    }
  }

  lemma SameTypes(a: seq<Piece>, b: seq<Piece>)
    requires Signature(a) == Signature(b)
    ensures PoolArea(a) == PoolArea(b) && |a| == |b|
  {
    TypesListed(a);
    TypesListed(b);
    SumByPermuted(TypeArea, MapBy(TypeOf, a), MapBy(TypeOf, b));
    SignatureLength(a);
    SignatureLength(b);
  }

  // ---- closing a pool ------------------------------------------------------------------------

  /** A search: what is asked about it, and at most how many bins it may open. */
  datatype Quest = Quest(job: Job, gen: Generator, densest: Prober, probe: Prober, maxBins: Option<nat>)

  /** Asked about a pool of these types, the prober always finds a bin of type `k` that takes
      all of it. */
  ghost predicate AlwaysTakes(probe: Prober, types: multiset<PieceType>, k: nat) {
    forall ask: nat, pool: seq<Piece> :: Signature(pool) == types ==> probe(ask, pool, k).Some?
  }

  /** No bin type is larger. */
  predicate HoldsAny(largest: int, job: Job) {
    forall s :: s in job.specs ==> SheetArea(s, job.p) <= largest
  }

  /** No dearer, and at the same cost on no more sheets. */
  predicate BillsAtMost(bar: Objective, cost: int, sheets: int) {
    bar.cost < cost || (bar.cost == cost && bar.sheets <= sheets)
  }

  lemma NotWorseBillsAtMost(bar: Objective, fills: seq<Fill>, job: Job)
    requires NotWorse(bar, ObjectiveOf(Solution(fills, []), job))
    ensures BillsAtMost(bar, CostOf(fills, job), |fills|)
  {
    hide CostOf;
  }

  class Searcher {
    const job: Job
    const gen: Generator
    const probe: Prober
    const densest: Prober
    const byId: seq<Piece> -> seq<Piece>
    var asks: nat
    var memo: map<Key, Option<Fill>>

    ghost predicate Valid()
      reads this
    {
      && HonestGenerator(gen, job) && HonestProber(probe, job, true)
      && HonestProber(densest, job, false) && IsOrder(byId) && NoneNegative(job.specs)
      && (forall key :: key in memo && memo[key].Some? ==> Remembers(key, memo[key].value, job))
      && forall key :: key in memo ==> WasAsked(key, memo[key])
    }

    function QuestFor(maxBins: Option<nat>): Quest {
      Quest(job, gen, densest, probe, maxBins)
    }

    /** What is remembered was asked about some pool of these types. */
    ghost predicate WasAsked(key: Key, best: Option<Fill>) {
      exists pool, from: nat, to: nat :: Signature(pool) == key.0 && NothingCheaper(pool, key.1, best, from, to)
    }

    /** So no bin type that always takes such a pool is cheaper. */
    lemma AskedIsCheapest(key: Key, best: Option<Fill>, pool: seq<Piece>, k: nat)
      requires WasAsked(key, best) && Signature(pool) == key.0
      requires InStock(k, key.1, job) && PoolArea(pool) <= SheetArea(job.specs[k], job.p)
      requires AlwaysTakes(probe, key.0, k)
      ensures best.Some? && (best.value.kind < |job.specs| ==> job.specs[best.value.kind].cost <= job.specs[k].cost)
    {
      hide Signature, PoolArea, SheetArea, InStock;
      var asked, from: nat, to: nat :| Signature(asked) == key.0 && NothingCheaper(asked, key.1, best, from, to);
      SameTypes(pool, asked);
    }

    /** The answer costs no more than any bin type that always takes such a pool. */
    ghost predicate ClosesForLeast(r: Option<Fill>, pool: seq<Piece>, used: seq<nat>) {
      forall k: nat :: InStock(k, used, job) && PoolArea(pool) <= SheetArea(job.specs[k], job.p)
                       && AlwaysTakes(probe, Signature(pool), k) ==>
        r.Some? && r.value.kind < |job.specs| && job.specs[r.value.kind].cost <= job.specs[k].cost
    }

    constructor (job: Job, gen: Generator, probe: Prober, densest: Prober, byId: seq<Piece> -> seq<Piece>)
      requires HonestGenerator(gen, job) && HonestProber(probe, job, true)
      requires HonestProber(densest, job, false) && IsOrder(byId) && NoneNegative(job.specs)
      ensures Valid() && this.job == job && this.gen == gen && this.probe == probe && this.densest == densest
      ensures memo == map[] && asks == 0
    {
      this.job, this.gen, this.probe, this.densest, this.byId := job, gen, probe, densest, byId;
      asks, memo := 0, map[];
    }

    /** Bin types still in stock; half boards only near the end of the job. */
    method OpenSpecs(used: seq<nat>, area: int) returns (open: seq<nat>)
      requires |used| == |job.specs|
      ensures forall k: nat ::
              k in open <==>
                  InStock(k, used, job) && (job.specs[k].half ==> 4 * area <= 5 * SheetArea(job.specs[k], job.p))
    {
      hide SheetArea;
      open := [];
      for k := 0 to |job.specs|
        invariant forall j: nat ::
                  j in open <==>
                      j < k && InStock(j, used, job)
                          && (job.specs[j].half ==> 4 * area <= 5 * SheetArea(job.specs[j], job.p))
      {
        var s := job.specs[k];
        if s.count.Some? && used[k] >= s.count.value { continue; }
        if s.half && 4 * area > 5 * SheetArea(s, job.p) { continue; }
        open := open + [k];
      }
    }

    /** Bin types in stock with room enough that are cheaper than the answer were all
        asked for the whole pool, and refused. */
    ghost predicate NothingCheaper(pool: seq<Piece>, used: seq<nat>, best: Option<Fill>, from: nat, to: nat) {
      forall k: nat :: InStock(k, used, job) && PoolArea(pool) <= SheetArea(job.specs[k], job.p)
                       && (best.Some? && best.value.kind < |job.specs| ==>
                           job.specs[k].cost < job.specs[best.value.kind].cost)
                       ==> Refused(pool, k, from, to)
    }

    ghost predicate Refused(pool: seq<Piece>, k: nat, from: nat, to: nat) {
      exists ask: nat :: from <= ask < to && probe(ask, pool, k).None?
    }

    /** Does the whole pool fit one more bin, and which is the cheapest? Asked at most
        once for pools of the same types; a remembered answer is re-bound, which never
        fails. */
    method CompleteProbe(pool: seq<Piece>, used: seq<nat>) returns (r: Option<Fill>)
      requires Valid() && |used| == |job.specs| && AllValid(pool)
      modifies this
      ensures Valid()
      ensures r.Some? ==> Closes(r.value, pool, used, job)
      ensures ClosesForLeast(r, pool, used)
      ensures var key := (Signature(pool), used);
              && key in memo && memo == old(memo)[key := memo[key]]
              && (if r.Some? then memo[key].Some? && SameLayout(memo[key].value, r.value) else memo[key].None?)
              && (if key in old(memo) then memo == old(memo) && asks == old(asks)
                  else NothingCheaper(pool, used, memo[key], old(asks), asks))
    {
      hide HonestGenerator, HonestProber, Remembers, Closes, Signature, InStock, SheetArea, FillOk, IsOrder, SameLayout,
           PlacedIn, NothingCheaper, WasAsked, ClosesForLeast;
      var key := (Signature(pool), used);
      if key !in memo {
        ghost var from := asks;
        var best := AskProbe(pool, used);
        assert WasAsked(key, best) by { JustAsked(key, best, pool, from, asks); }
        memo := memo[key := best];
      }
      if memo[key].None? {
        AskedForLeast(key, None, None, pool);
        return None;
      }
      var f := memo[key].value;
      r := Rebind(f, pool, byId);
      assert Signature(PlacedIn(f)) <= Signature(pool) by { RememberedTypes(key, f, job); }
      RememberedCloses(key, f, r.value, pool, job);
      SameLayoutSameKind(f, r.value);
      RememberedKind(key, f);
      AskedForLeast(key, memo[key], r, pool);
    }

    lemma AskedForLeast(key: Key, best: Option<Fill>, r: Option<Fill>, pool: seq<Piece>)
      requires WasAsked(key, best) && key.0 == Signature(pool) && (r.Some? <==> best.Some?)
      requires r.Some? ==> r.value.kind == best.value.kind < |job.specs|
      ensures ClosesForLeast(r, pool, key.1)
    {
      hide WasAsked, AlwaysTakes, Signature, PoolArea, SheetArea;
      forall k: nat | InStock(k, key.1, job) && PoolArea(pool) <= SheetArea(job.specs[k], job.p)
                      && AlwaysTakes(probe, Signature(pool), k)
        ensures r.Some? && job.specs[r.value.kind].cost <= job.specs[k].cost
      {
        AskedIsCheapest(key, best, pool, k);
      }
    }

    lemma RememberedKind(key: Key, f: Fill)
      requires Remembers(key, f, job)
      ensures f.kind < |job.specs|
    {
    }

    lemma JustAsked(key: Key, best: Option<Fill>, pool: seq<Piece>, from: nat, to: nat)
      requires Signature(pool) == key.0 && NothingCheaper(pool, key.1, best, from, to)
      ensures WasAsked(key, best)
    {
      hide NothingCheaper;
    }

    /** Tries the bin types in stock, cheapest first, until a dearer one cannot help. */
    method AskProbe(pool: seq<Piece>, used: seq<nat>) returns (best: Option<Fill>)
      requires Valid() && |used| == |job.specs| && AllValid(pool)
      modifies this`asks
      ensures Valid()
      ensures best.Some? ==> Remembers((Signature(pool), used), best.value, job)
      ensures NothingCheaper(pool, used, best, old(asks), asks)
    {
      hide HonestGenerator, HonestProber, Remembers, Signature, InStock, SheetArea, FillOk, IsOrder, NoneNegative;
      best := None;
      var area := PoolArea(pool);
      var ranked := RankedSpecs(used);
      ghost var at := 0;
      for i := 0 to |ranked|
        invariant Valid() && old(asks) <= asks
        invariant best.Some? ==> Remembers((Signature(pool), used), best.value, job) && best.value.kind < |job.specs|
        invariant best.Some? ==> at < i && ranked[at] == best.value.kind
        invariant best.None? ==> forall j :: 0 <= j < i ==> Settled(pool, used, ranked[j], old(asks), asks)
        invariant best.Some? ==> forall j :: 0 <= j < at ==> Settled(pool, used, ranked[j], old(asks), asks)
      {
        var k := ranked[i];
        assert k in ranked && InStock(k, used, job);
        assert k < |job.specs| by { StockIsSpec(k, used, job); }
        if area > SheetArea(job.specs[k], job.p) { continue; }
        assert best.Some? ==> Cheapest(job.specs)(ranked[at], ranked[i]);
        if best.Some? && job.specs[k].cost >= job.specs[best.value.kind].cost { break; }
        var found := probe(asks, pool, k);
        HonestAnswer(asks, pool, k);
        asks := asks + 1;
        if found.Some? {
          WholeFillRemembered(found.value, pool, used, job);
          best, at := found, i;
        } else {
          assert Refused(pool, k, old(asks), asks);
        }
      }
      AllAsked(pool, used, best, ranked, at, old(asks), asks);
    }

    /** Everything in stock, cheapest first. */
    method RankedSpecs(used: seq<nat>) returns (ranked: seq<nat>)
      requires |used| == |job.specs|
      ensures forall k: nat :: k in ranked <==> InStock(k, used, job)
      ensures Sorted(Cheapest(job.specs), ranked)
    {
      hide SheetArea, InStock, Cheapest, SortBy;
      var open := OpenSpecs(used, 0);
      ranked := SortBy(Cheapest(job.specs), open);
      CheapestFirst(job.specs, open);
      forall k: nat ensures k in ranked <==> InStock(k, used, job) {
        assert k in ranked <==> k in multiset(ranked);
        assert k in open <==> k in multiset(open);
      }
    }

    lemma HonestAnswer(ask: nat, pool: seq<Piece>, k: nat)
      requires HonestProber(probe, job, true) && k < |job.specs| && AllValid(pool)
      ensures probe(ask, pool, k).Some? ==>
                var f := probe(ask, pool, k).value;
                f.kind == k && FillOk(f, pool, job) && |f.sheet.placed| == |pool|
    {
    }

    /** Too small for the pool, or asked in vain. */
    ghost predicate Settled(pool: seq<Piece>, used: seq<nat>, k: nat, from: nat, to: nat) {
      k < |job.specs| && (PoolArea(pool) > SheetArea(job.specs[k], job.p) || Refused(pool, k, from, to))
    }

    lemma AllAsked(pool: seq<Piece>, used: seq<nat>, best: Option<Fill>, ranked: seq<nat>, at: nat, from: nat, to: nat)
      requires forall k: nat :: k in ranked <==> InStock(k, used, job)
      requires Sorted(Cheapest(job.specs), ranked)
      requires best.Some? ==> at < |ranked| && ranked[at] == best.value.kind && best.value.kind < |job.specs|
      requires forall j :: 0 <= j < (if best.Some? then at else |ranked|) ==> Settled(pool, used, ranked[j], from, to)
      ensures NothingCheaper(pool, used, best, from, to)
    {
      hide SheetArea, PoolArea, Refused;
      forall j | best.Some? && at <= j < |ranked|
        ensures ranked[j] < |job.specs| ==> job.specs[ranked[j]].cost >= job.specs[best.value.kind].cost
      {
        if at < j { assert Cheapest(job.specs)(ranked[at], ranked[j]); }
      }
      forall k: nat | InStock(k, used, job) && PoolArea(pool) <= SheetArea(job.specs[k], job.p)
                      && (best.Some? && best.value.kind < |job.specs| ==>
                          job.specs[k].cost < job.specs[best.value.kind].cost)
        ensures Refused(pool, k, from, to)
      {
        assert k in ranked;
        var j :| 0 <= j < |ranked| && ranked[j] == k;
      }
    }

    /** Endgame lookahead: when the rest may fit one more bin, ask. */
    method TryClosing(t: State, rest: int, largest: int, maxBins: Option<nat>, now: Incumbent,
                      ghost upper: Option<Objective>, ghost pieces: seq<Piece>, ghost base: seq<nat>)
      returns (after: Incumbent)
      requires Valid() && StateOk(t, pieces, base, job) && IncumbentOk(now, upper, pieces, base, job)
      requires |t.used| == |job.specs| && AllValid(t.pool) && rest == PoolArea(t.pool) && HoldsAny(largest, job)
      modifies this
      ensures Valid() && IncumbentOk(after, upper, pieces, base, job) && Lowers(after.bar, now.bar)
      ensures ClosingTried(QuestFor(maxBins), t, after.bar)
    {
      hide HonestGenerator, HonestProber, Remembers, Closes, Signature, Partition, StateOk, IncumbentOk, WithinStock,
           IsOrder, Register, AllValid, WasAsked, ClosesForLeast, ClosingTried, PoolArea, HoldsAny;
      after := now;
      NothingClosesLate(t, rest, largest, maxBins, after.bar);
      if rest <= largest && (maxBins.None? || |t.fills| < maxBins.value) {
        var closing := CompleteProbe(t.pool, t.used);
        ClosedForLeast(t, closing, maxBins, after, pieces, base);
        if closing.Some? {
          ClosedPlan(t, closing.value, pieces, base, job);
          RegisterOk(now, t.fills + [closing.value], upper, pieces, base, job);
          after := Register(now, t.fills + [closing.value], job);
        }
      }
    }

    /** A pool larger than the largest sheet, or a plan with no bin to spare, is not closed. */
    lemma NothingClosesLate(t: State, rest: int, largest: int, maxBins: Option<nat>, bar: Option<Objective>)
      requires rest == PoolArea(t.pool) && HoldsAny(largest, job)
      ensures rest > largest || (maxBins.Some? && |t.fills| >= maxBins.value) ==>
                ClosingTried(QuestFor(maxBins), t, bar)
    {
      hide PoolArea, SheetArea, AlwaysTakes, Signature;
      forall k: nat | k < |job.specs| && MayClose(QuestFor(maxBins), t, k) ensures PoolArea(t.pool) <= largest {
        assert job.specs[k] in job.specs;
      }
    }

    /** The plan closed with the answer is no dearer than with any bin that always takes the
        rest. */
    lemma ClosedForLeast(t: State, closing: Option<Fill>, maxBins: Option<nat>, now: Incumbent, pieces: seq<Piece>,
                         base: seq<nat>)
      requires StateOk(t, pieces, base, job) && ClosesForLeast(closing, t.pool, t.used)
      ensures closing.None? ==> ClosingTried(QuestFor(maxBins), t, now.bar)
      ensures closing.Some? ==>
                ClosingTried(QuestFor(maxBins), t, Register(now, t.fills + [closing.value], job).bar)
    {
      hide PoolArea, SheetArea, AlwaysTakes, Signature, CostOf, AllSound, AllPieces, WithinStock, Tallied, InStock,
           ObjectiveOf, Register;
      if closing.Some? {
        var all := t.fills + [closing.value];
        RegisterAccounts(now, all, job);
        NotWorseBillsAtMost(Register(now, all, job).bar.value, all, job);
        OneMoreFill(t.fills, closing.value, [], job);
      }
      forall k: nat | k < |job.specs| && MayClose(QuestFor(maxBins), t, k)
        ensures closing.Some? && BillsAtMost(Register(now, t.fills + [closing.value], job).bar.value,
                                             t.cost + job.specs[k].cost, |t.fills| + 1)
      {
      }
    }

    /** A state is kept unless its bounds prove that no completion of it, of any shape,
        beats the bar. */
    method WorthKeeping(t: State, rest: int, bar: Option<Objective>) returns (keep: bool)
      requires NoneNegative(job.specs) && rest == PoolArea(t.pool)
      ensures !keep ==> bar.Some? && CannotWin(Dropped(t.pool, t.cost, |t.fills|), bar.value, job)
    {
      hide PoolArea, CannotWin, LowerBound, Holds, SheetArea, NoneNegative;
      var lb := CostLowerBound(rest, job.specs, job.p);
      var bins := BinsLowerBound(rest, job.specs, job.p);
      if bar.Some? && Exceeds(t.cost as real + lb, |t.fills| + bins, bar.value) {
        BoundsExclude(Dropped(t.pool, t.cost, |t.fills|), lb, bins, bar.value, job);
        return false;
      }
      return true;
    }

    /** One candidate fill of one state: it may complete the plan, or close it with one
        more bin, or be given up on its bounds, or lead to a further state. There is no
        other way to lose a state. */
    method TryFill(s: State, k: nat, f: Fill, area: int, largest: int, maxBins: Option<nat>, now: Incumbent,
                   ghost upper: Option<Objective>, ghost pieces: seq<Piece>, ghost base: seq<nat>)
      returns (after: Incumbent, next: Option<State>, ghost drop: seq<Dropped>)
      requires Valid() && StateOk(s, pieces, base, job) && IncumbentOk(now, upper, pieces, base, job)
      requires FillOk(f, s.pool, job) && f.kind == k && InStock(k, s.used, job) && area == PoolArea(s.pool)
      requires HoldsAny(largest, job)
      modifies this
      ensures Valid() && IncumbentOk(after, upper, pieces, base, job) && Lowers(after.bar, now.bar)
      ensures next.Some? ==> StateOk(next.value, pieces, base, job)
      ensures NoneCanWin(drop, after.bar, job)
      ensures var t := AfterFill(s, f, job);
              if t.pool == [] then next.None? && drop == [] && after == Register(now, t.fills, job)
              else if next.Some? then next.value == t && drop == []
              else drop == [Dropped(t.pool, t.cost, |t.fills|)]
      ensures Accounted(QuestFor(maxBins), AfterFill(s, f, job), after.bar, if next.Some? then [next.value] else [],
                        drop)
    {
      hide HonestGenerator, HonestProber, Remembers, FillOk, Partition, StateOk, IncumbentOk, WithinStock, InStock,
           IsOrder, PoolArea, AllSound, Register, CannotWin, UsedArea, DropPlaced, AllValid, Beats, ClosingTried,
           WasAsked, HoldsAny;
      after, next, drop := now, None, [];
      var rest := DropPlaced(s.pool, f.sheet.placed);
      StateAfter(s, f, rest, pieces, base, job);
      var t := AfterFill(s, f, job);
      if rest == [] {
        PartitionDone(t.fills, pieces, rest, job);
        RegisterOk(now, t.fills, upper, pieces, base, job);
        after := Register(now, t.fills, job);
        RegisterAccounts(now, t.fills, job);
        return;
      }
      var restArea := area - UsedArea(f.sheet.placed);
      after := TryClosing(t, restArea, largest, maxBins, now, upper, pieces, base);
      var keep := WorthKeeping(t, restArea, after.bar);
      if keep {
        next := Some(t);
      } else {
        drop := [Dropped(rest, t.cost, |t.fills|)];
      }
    }
  }

  /** What became of a state: complete, and the bar is no worse; or offered to the next
      depth; or given up on its bounds. */
  ghost predicate Accounted(q: Quest, t: State, bar: Option<Objective>, next: seq<State>, drop: seq<Dropped>) {
    if t.pool == [] then bar.Some? && NotWorse(bar.value, ObjectiveOf(Solution(t.fills, []), q.job))
    else (t in next || Dropped(t.pool, t.cost, |t.fills|) in drop) && ClosingTried(q, t, bar)
  }

  /** Wherever one more bin would have closed the plan, the bar is no worse. */
  ghost predicate ClosingTried(q: Quest, t: State, bar: Option<Objective>) {
    forall k: nat :: k < |q.job.specs| && MayClose(q, t, k) ==>
      bar.Some? && BillsAtMost(bar.value, t.cost + q.job.specs[k].cost, |t.fills| + 1)
  }

  /** One more bin of this type, in stock and large enough, takes what is left whenever asked,
      and one more bin is allowed. */
  ghost predicate MayClose(q: Quest, t: State, k: nat) {
    && InStock(k, t.used, q.job) && PoolArea(t.pool) <= SheetArea(q.job.specs[k], q.job.p)
    && AlwaysTakes(q.probe, Signature(t.pool), k)
    && (q.maxBins.None? || |t.fills| < q.maxBins.value)
  }

  lemma ClosingLater(q: Quest, t: State, bar: Option<Objective>, bar': Option<Objective>)
    requires ClosingTried(q, t, bar) && Lowers(bar', bar)
    ensures ClosingTried(q, t, bar')
  {
    hide MayClose;
    forall k: nat | k < |q.job.specs| && MayClose(q, t, k)
      ensures bar'.Some? && BillsAtMost(bar'.value, t.cost + q.job.specs[k].cost, |t.fills| + 1)
    {
      assert bar.Some?;
    }
  }

  lemma AccountedLater(q: Quest, t: State, bar: Option<Objective>, next: seq<State>, drop: seq<Dropped>,
                       bar': Option<Objective>, next': seq<State>, drop': seq<Dropped>)
    requires Accounted(q, t, bar, next, drop) && Lowers(bar', bar)
    requires (forall s :: s in next ==> s in next') && (forall d :: d in drop ==> d in drop')
    ensures Accounted(q, t, bar', next', drop')
  {
    hide ObjectiveOf;
    if t.pool == [] {
      BeatsTransitive(bar'.value, bar.value, ObjectiveOf(Solution(t.fills, []), q.job));
    } else {
      ClosingLater(q, t, bar, bar');
    }
  }

  lemma RegisterAccounts(i: Incumbent, fills: seq<Fill>, job: Job)
    ensures var after := Register(i, fills, job);
            after.bar.Some? && NotWorse(after.bar.value, ObjectiveOf(Solution(fills, []), job))
  {
    hide ObjectiveOf;
  }

  /** One more bin filled. */
  function AfterFill(s: State, f: Fill, job: Job): State
    requires f.kind < |job.specs| && f.kind < |s.used|
  {
    State(DropPlaced(s.pool, f.sheet.placed), s.fills + [f], s.used[f.kind := s.used[f.kind] + 1],
          s.cost + job.specs[f.kind].cost)
  }

  /** A state after one more fill, whether or not anything is left to place. */
  ghost predicate Follows(t: State, pieces: seq<Piece>, base: seq<nat>, job: Job) {
    && multiset(AllPieces(t.fills)) + multiset(t.pool) == multiset(pieces)
    && AllSound(t.fills, job) && WithinStock(t.fills, base, job)
  }

  lemma StateAfter(s: State, f: Fill, rest: seq<Piece>, pieces: seq<Piece>, base: seq<nat>, job: Job)
    requires StateOk(s, pieces, base, job) && FillOk(f, s.pool, job) && InStock(f.kind, s.used, job)
    requires rest == DropPlaced(s.pool, f.sheet.placed)
    ensures f.kind < |job.specs| && f.kind < |s.used|
    ensures var t := AfterFill(s, f, job);
            && Follows(t, pieces, base, job)
            && (rest != [] ==> StateOk(t, pieces, base, job))
            && |t.used| == |job.specs| && AllValid(rest)
    ensures PoolArea(rest) == PoolArea(s.pool) - UsedArea(f.sheet.placed)
  {
    hide FillSound, PoolArea, UsedArea, DropPlaced, Times, CostOf, AllValid, Distinct, PlacedIn, AllPieces;
    OneMoreFill(s.fills, f, base, job);
    StockAfter(s.fills, f, s.used, base, job);
    RestOfPool(s.pool, f, rest, job);
    MoveFill(multiset(AllPieces(s.fills)), multiset(PlacedIn(f)), multiset(rest), multiset(s.pool), multiset(pieces));
  }

  lemma MoveFill<T>(A: multiset<T>, F: multiset<T>, R: multiset<T>, P: multiset<T>, all: multiset<T>)
    requires A + P == all && R + F == P
    ensures A + F + R == all
  {
  }

  lemma RestOfPool(pool: seq<Piece>, f: Fill, rest: seq<Piece>, job: Job)
    requires Distinct(pool) && AllValid(pool) && FillOk(f, pool, job) && rest == DropPlaced(pool, f.sheet.placed)
    ensures Distinct(rest) && AllValid(rest) && multiset(rest) + multiset(PlacedIn(f)) == multiset(pool)
    ensures PoolArea(rest) == PoolArea(pool) - UsedArea(f.sheet.placed)
  {
    hide FillSound, PoolArea, UsedArea, DropPlaced, AllValid, Distinct;
    DropPlacedExactly(pool, f.sheet.placed);
    DropPlacedKeepsDistinct(pool, f.sheet.placed);
    RemainingArea(pool, rest, f, job);
    ValidPart(rest, multiset(PlacedIn(f)), pool);
  }

  lemma ValidPart(a: seq<Piece>, b: multiset<Piece>, pool: seq<Piece>)
    requires AllValid(pool) && multiset(a) + b == multiset(pool)
    ensures AllValid(a)
  {
    forall p | p in a ensures ValidPiece(p) { assert p in multiset(a) + b; }
  }

  lemma PartitionDone(fills: seq<Fill>, pieces: seq<Piece>, rest: seq<Piece>, job: Job)
    requires AllSound(fills, job) && multiset(AllPieces(fills)) + multiset(rest) == multiset(pieces) && rest == []
    ensures Partition(fills, pieces, job)
  {
    assert multiset(rest) == multiset{};
  }

  lemma ClosedPlan(t: State, f: Fill, pieces: seq<Piece>, base: seq<nat>, job: Job)
    requires StateOk(t, pieces, base, job) && Closes(f, t.pool, t.used, job)
    ensures Partition(t.fills + [f], pieces, job) && WithinStock(t.fills + [f], base, job)
  {
    hide FillSound, Times;
    OneMoreFill(t.fills, f, base, job);
    StockAfter(t.fills, f, t.used, base, job);
  }

  lemma StockIsSpec(k: nat, used: seq<nat>, job: Job)
    requires InStock(k, used, job)
    ensures k < |job.specs|
  {
  }

  lemma RememberedTypes(key: Key, f: Fill, job: Job)
    requires Remembers(key, f, job)
    ensures Signature(PlacedIn(f)) == key.0
  {
  }

  lemma SameLayoutSameKind(f: Fill, g: Fill)
    requires SameLayout(f, g)
    ensures f.kind == g.kind
  {
  }
}
