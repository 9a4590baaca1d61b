/**
The stock of half boards under the half-board downgrade of search.py: when a plan within
stock stays within stock, and an input for which it does not.
*/
module HalfStock {
  import opened Geometry
  import opened Guillotine
  import opened Plans
  import opened Sequences
  import opened Sheets
  import opened Constructors
  import opened Strips
  import opened SheetCheck
  import opened Bounds
  import opened SearchPlans
  import opened Incumbents
  import opened Searching
  import opened Improving
  import opened HalfBoards

  // ---- plans that stay within stock ----------------------------------------------------------

  /** What an honest answer puts in the place of a sheet is its half. */
  lemma SwapIsHalf(job: Job, gen: Generator, probe: Prober, f: Fill, ask: nat)
    requires HonestGenerator(gen, job) && HonestProber(probe, job, true)
    requires FillSound(f, job) && AllValid(PlacedIn(f))
    ensures var g := SwapAt(job, gen, probe, f, ask); g.Some? ==> Halved(f, g.value, job)
  {
    hide Sawable, AllValid, PiecesOf;
    var k, pool, g := SiblingOf(f.kind, job), PlacedIn(f), SwapAt(job, gen, probe, f, ask);
    if g.Some? {
      assert GoodFills(gen(ask, pool, k.value), pool, k.value, job);
      assert GoodFill(probe(ask + 1, pool, k.value), pool, k.value, job, true);
      assert g.value.kind == k.value && FillOk(g.value, pool, job);
      WholePool(PlacedIn(g.value), pool);
      assert |PlacedIn(g.value)| == |g.value.sheet.placed|;
    }
  }

  lemma {:induction false} HalvedIsNoWorse(job: Job, gen: Generator, probe: Prober, fills: seq<Fill>, ask: nat)
    requires HonestGenerator(gen, job) && HonestProber(probe, job, true) && AllSound(fills, job)
    requires forall f :: f in fills ==> AllValid(PlacedIn(f))
    ensures NoWorseThan(HalvedPlan(job, gen, probe, fills, ask), fills, job)
  {
    hide FillSound, AllValid, PlacedIn, SwapAt, HonestGenerator, HonestProber, Halved, NoWorseThan, HalvedAsks;
    if fills == [] {
      NothingIsNoWorse(job);
    } else {
      var init, f := fills[..|fills|-1], fills[|fills|-1];
      HalvedIsNoWorse(job, gen, probe, init, ask);
      var at := HalvedAsks(job, gen, init, ask);
      SwapIsHalf(job, gen, probe, f, at);
      var g := SwapAt(job, gen, probe, f, at);
      OneMoreKept(HalvedPlan(job, gen, probe, init, ask), init, if g.Some? then g.value else f, f, job);
      assert fills == init + [f];
    }
  }

  lemma NothingIsNoWorse(job: Job)
    ensures NoWorseThan([], [], job)
  {
    NothingYet(job);
  }

  // ---- a plan that leaves the stock ----------------------------------------------------------

  function Unit(i: nat): Piece {
    Piece(seq(i, _ => 'x'), 1, 1, false, 0)
  }

  function Units(n: nat): (r: seq<Piece>)
    ensures |r| == n && forall i :: 0 <= i < n ==> r[i] == Unit(i)
  {
    seq(n, i requires 0 <= i < n => Unit(i))
  }

  predicate IsUnit(q: Piece) {
    q.width == 1 && q.height == 1
  }

  lemma UnitIsUnit(i: nat)
    ensures IsUnit(Unit(i))
  {
  }

  /** A piece in the corner of a board. */
  function InCorner(kind: nat, q: Piece, job: Job): Fill {
    Fill(kind, BinFill([Placed(q, job.p.left, job.p.bottom, 1, 1, false)], [], []))
  }

  lemma CornerIsSound(kind: nat, q: Piece, job: Job)
    requires kind < |job.specs| && HasRoom(kind, job) && IsUnit(q)
    ensures FillSound(InCorner(kind, q, job), job) && PlacedIn(InCorner(kind, q, job)) == [q]
  {
    hide Cuttable;
    var spec, at := job.specs[kind], InCorner(kind, q, job).sheet.placed;
    var r, b := UsableBounds(spec.width, spec.height, job.p), BoxOf(at[0]);
    AloneCuttableIff(r, b, job.p.kerf);
    assert BoxesOf(at) == [b];
  }

  /** So many half boards with a piece each, all there are, and one full board. */
  function Halves(half: nat, n: nat, job: Job): seq<Fill> {
    if n == 0 then [] else Halves(half, n - 1, job) + [InCorner(half, Unit(n - 1), job)]
  }

  function AllAndOneFull(full: nat, half: nat, n: nat, job: Job): seq<Fill> {
    Halves(half, n, job) + [InCorner(full, Unit(n), job)]
  }

  lemma {:induction false} HalvesAre(half: nat, n: nat, job: Job)
    requires half < |job.specs| && HasRoom(half, job)
    ensures AllSound(Halves(half, n, job), job) && AllPieces(Halves(half, n, job)) == Units(n)
    ensures forall k: nat :: Times(Halves(half, n, job), k) == if k == half then n else 0
  {
    hide FillSound, Times, AllPieces, PlacedIn, HasRoom;
    if n == 0 {
      NothingYet(job);
    } else {
      HalvesAre(half, n - 1, job);
      CornerIsSound(half, Unit(n - 1), job);
      OneMoreFill(Halves(half, n - 1, job), InCorner(half, Unit(n - 1), job), Zeros(job), job);
      AllPiecesLast(Halves(half, n - 1, job), InCorner(half, Unit(n - 1), job));
      assert Units(n) == Units(n - 1) + [Unit(n - 1)];
    }
  }

  lemma UnitsAreDistinct(n: nat)
    ensures Distinct(Units(n)) && AllValid(Units(n))
  {
    forall i, j | 0 <= i < j < n ensures Unit(i).id != Unit(j).id {
      assert |Unit(i).id| == i && |Unit(j).id| == j;
    }
  }

  /** The plan before the downgrade: as many halves as there are, and one full board. */
  lemma WitnessPlan(full: nat, half: nat, n: nat, job: Job)
    requires MaySwap(full, job) && SiblingOf(full, job) == Some(half) && job.specs[half].count == Some(n)
    ensures PlanFor(AllAndOneFull(full, half, n, job), Units(n + 1), job)
  {
    hide FillSound, Times, AllPieces, PlacedIn, HasRoom;
    var before, f := Halves(half, n, job), InCorner(full, Unit(n), job);
    HalvesAre(half, n, job);
    CornerIsSound(full, Unit(n), job);
    OneMoreFill(before, f, Zeros(job), job);
    AllPiecesLast(before, f);
    assert Units(n + 1) == Units(n) + [Unit(n)];
  }

  /** A solver that finds the corner of the half board. */
  function CornerProber(half: nat, job: Job): Prober {
    (ask: nat, pool: seq<Piece>, k: nat) =>
      if k == half && |pool| == 1 && IsUnit(pool[0]) then Some(InCorner(half, pool[0], job)) else None
  }

  function NoGenerator(): Generator {
    (ask: nat, pool: seq<Piece>, k: nat) => []
  }

  lemma WitnessAnswers(half: nat, job: Job)
    requires half < |job.specs| && HasRoom(half, job)
    ensures HonestGenerator(NoGenerator(), job) && HonestProber(CornerProber(half, job), job, true)
  {
    hide FillSound, PlacedIn, HasRoom;
    forall ask: nat, pool: seq<Piece>, k: nat | k < |job.specs| && AllValid(pool)
      ensures GoodFill(CornerProber(half, job)(ask, pool, k), pool, k, job, true)
    {
      if k == half && |pool| == 1 && IsUnit(pool[0]) {
        CornerIsSound(half, pool[0], job);
        assert pool == [pool[0]];
      }
    }
  }

  lemma {:induction false} HalvesStay(full: nat, half: nat, n: nat, job: Job, ask: nat)
    requires SiblingOf(full, job) == Some(half)
    ensures HalvedPlan(job, NoGenerator(), CornerProber(half, job), Halves(half, n, job), ask) == Halves(half, n, job)
    ensures HalvedAsks(job, NoGenerator(), Halves(half, n, job), ask) == ask
  {
    hide SwapAt, AsksAt, HalvedPlan, HalvedAsks, CornerProber, NoGenerator, InCorner, Unit;
    if n == 0 {
      NothingHalved(job, NoGenerator(), CornerProber(half, job), ask);
    } else {
      HalvesStay(full, half, n - 1, job, ask);
      HalvedNext(job, NoGenerator(), CornerProber(half, job), Halves(half, n - 1, job),
                 InCorner(half, Unit(n - 1), job), ask);
      HalfStays(half, Unit(n - 1), job, ask);
    }
  }

  lemma HalfStays(half: nat, q: Piece, job: Job, ask: nat)
    requires half < |job.specs| && job.specs[half].half
    ensures var f := InCorner(half, q, job);
            && SwapAt(job, NoGenerator(), CornerProber(half, job), f, ask) == None
               && AsksAt(job, NoGenerator(), f, ask) == 0
  {
  }

  lemma FullIsSwapped(full: nat, half: nat, q: Piece, job: Job, ask: nat)
    requires SiblingOf(full, job) == Some(half) && IsUnit(q)
    ensures SwapAt(job, NoGenerator(), CornerProber(half, job), InCorner(full, q, job), ask)
         == Some(InCorner(half, q, job))
  {
    assert PlacedIn(InCorner(full, q, job)) == [q];
    assert FirstWholeOf([], 1) == None;
  }

  /** Afterwards the plan needs one half board more than there are. */
  lemma WitnessOverdraws(full: nat, half: nat, n: nat, job: Job, ask: nat)
    requires MaySwap(full, job) && SiblingOf(full, job) == Some(half) && job.specs[half].count == Some(n)
    ensures HalvedPlan(job, NoGenerator(), CornerProber(half, job), AllAndOneFull(full, half, n, job), ask)
         == Halves(half, n + 1, job)
    ensures !WithinStock(Halves(half, n + 1, job), Zeros(job), job)
  {
    hide SwapAt, AsksAt, Times, HasRoom, HalvedPlan, HalvedAsks, CornerProber, NoGenerator, InCorner, Unit;
    HalvesStay(full, half, n, job, ask);
    HalvedNext(job, NoGenerator(), CornerProber(half, job), Halves(half, n, job), InCorner(full, Unit(n), job), ask);
    UnitIsUnit(n);
    FullIsSwapped(full, half, Unit(n), job, ask);
    HalvesAre(half, n + 1, job);
  }

  // ---- the exact condition -------------------------------------------------------------------

  /** Whatever honest answers there are, the downgrade keeps every sound plan within stock. */
  ghost predicate KeepsStock(job: Job) {
    forall gen: Generator, probe: Prober, fills: seq<Fill>, pool: seq<Piece>, ask: nat ::
      && HonestGenerator(gen, job) && HonestProber(probe, job, true)
      && PlanFor(fills, pool, job) && AllValid(pool) && Distinct(pool)
      ==> WithinStock(HalvedPlan(job, gen, probe, fills, ask), Zeros(job), job)
  }

  lemma SafeKeeps(job: Job, gen: Generator, probe: Prober, fills: seq<Fill>, pool: seq<Piece>, ask: nat)
    requires StockSafe(job) && HonestGenerator(gen, job) && HonestProber(probe, job, true)
    requires PlanFor(fills, pool, job) && AllValid(pool)
    ensures WithinStock(HalvedPlan(job, gen, probe, fills, ask), Zeros(job), job)
  {
    hide AllValid, PlacedIn, HonestGenerator, HonestProber, NoWorseThan, StockSafe, HalvedPlan, WithinStock, FillSound,
         AllPieces;
    forall f | f in fills ensures AllValid(PlacedIn(f)) {
      var i :| 0 <= i < |fills| && fills[i] == f;
      PartValid(fills, i, pool, job);
    }
    HalvedIsNoWorse(job, gen, probe, fills, ask);
    StandsFor(HalvedPlan(job, gen, probe, fills, ask), fills, pool, job);
  }

  /** The downgrade does not look at the supply of half boards. It keeps every plan within
      stock exactly when every half board that may be swapped in is unlimited. */
  lemma KeepsStockIff(job: Job)
    ensures KeepsStock(job) <==> StockSafe(job)
  {
    hide HonestGenerator, HonestProber, PlanFor, WithinStock, HalvedPlan, AllValid, Distinct, HasRoom, SiblingOf;
    if StockSafe(job) {
      forall gen: Generator, probe: Prober, fills: seq<Fill>, pool: seq<Piece>, ask: nat |
        HonestGenerator(gen, job) && HonestProber(probe, job, true) && PlanFor(fills, pool, job) && AllValid(pool)
        && Distinct(pool)
        ensures WithinStock(HalvedPlan(job, gen, probe, fills, ask), Zeros(job), job)
      {
        SafeKeeps(job, gen, probe, fills, pool, ask);
      }
    } else {
      var full: nat :| full < |job.specs| && MaySwap(full, job)
                       && job.specs[SiblingOf(full, job).value].count.Some?;
      var half := SiblingOf(full, job).value;
      var n := job.specs[half].count.value;
      WitnessPlan(full, half, n, job);
      UnitsAreDistinct(n + 1);
      WitnessAnswers(half, job);
      WitnessOverdraws(full, half, n, job, 0);
      assert !WithinStock(HalvedPlan(job, NoGenerator(), CornerProber(half, job), AllAndOneFull(full, half, n, job), 0),
                          Zeros(job), job);
    }
  }

  // ---- an input ------------------------------------------------------------------------------

  const FULL := BinSpec(2000, 1000, 5, false, None, "oak")
  const HALF := BinSpec(1000, 1000, 3, true, Some(1), "oak")
  const JOB := Job([FULL, HALF], Params(0, 0, 0, 0, 0))

  /** One half board in stock, used by a plan that needs a full board as well. */
  function OneOfEach(full: nat, half: nat, job: Job): seq<Fill> {
    [InCorner(half, Unit(0), job), InCorner(full, Unit(1), job)]
  }

  lemma ListedLast(specs: seq<BinSpec>, key: string)
    requires specs != [] && specs[|specs|-1].half && specs[|specs|-1].key == key
    ensures HalfOf(specs, key) == Some(|specs| - 1)
  {
  }

  lemma SiblingIsHalf(job: Job)
    requires job == JOB
    ensures SiblingOf(0, job) == Some(1) && MaySwap(0, job) && HasRoom(1, job) && job.specs[1].count == Some(1)
  {
    hide HalfOf;
    ListedLast(job.specs, FULL.key);
  }

  lemma OneIsUsedTwice(full: nat, half: nat, job: Job, ask: nat)
    requires MaySwap(full, job) && SiblingOf(full, job) == Some(half) && job.specs[half].count == Some(1)
    ensures PlanFor(OneOfEach(full, half, job), [Unit(0), Unit(1)], job)
    ensures Distinct([Unit(0), Unit(1)]) && AllValid([Unit(0), Unit(1)])
    ensures HonestGenerator(NoGenerator(), job) && HonestProber(CornerProber(half, job), job, true)
    ensures HalvedPlan(job, NoGenerator(), CornerProber(half, job), OneOfEach(full, half, job), ask)
         == [InCorner(half, Unit(0), job), InCorner(half, Unit(1), job)]
    ensures !WithinStock([InCorner(half, Unit(0), job), InCorner(half, Unit(1), job)], Zeros(job), job)
  {
    hide HonestGenerator, HonestProber, PlanFor, WithinStock, HalvedPlan, InCorner, Unit, Units, SiblingOf, HasRoom,
         Distinct, AllValid, Halves, Zeros;
    WitnessPlan(full, half, 1, job);
    UnitsAreDistinct(2);
    WitnessAnswers(half, job);
    WitnessOverdraws(full, half, 1, job, ask);
    TwoHalves(half, job);
    TwoUnits();
    assert AllAndOneFull(full, half, 1, job) == OneOfEach(full, half, job);
  }

  lemma TwoHalves(half: nat, job: Job)
    ensures Halves(half, 1, job) == [InCorner(half, Unit(0), job)]
    ensures Halves(half, 2, job) == [InCorner(half, Unit(0), job), InCorner(half, Unit(1), job)]
  {
    hide InCorner, Unit;
    assert Halves(half, 0, job) == [];
  }

  lemma TwoUnits()
    ensures Units(2) == [Unit(0), Unit(1)]
  {
    hide Unit;
  }

  /** The one half board in stock is used twice: the downgrade swaps the full board for
      another, on two unit squares and a solver that finds the corner of the half board. */
  lemma LastHalfIsUsedTwice()
    ensures PlanFor(OneOfEach(0, 1, JOB), [Unit(0), Unit(1)], JOB)
    ensures Distinct([Unit(0), Unit(1)]) && AllValid([Unit(0), Unit(1)])
    ensures HonestGenerator(NoGenerator(), JOB) && HonestProber(CornerProber(1, JOB), JOB, true)
    ensures !WithinStock(HalvedPlan(JOB, NoGenerator(), CornerProber(1, JOB), OneOfEach(0, 1, JOB), 0), Zeros(JOB), JOB)
  {
    hide *;
    SiblingIsHalf(JOB);
    OneIsUsedTwice(0, 1, JOB, 0);
  }
}
