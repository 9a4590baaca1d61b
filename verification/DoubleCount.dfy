/**
A run of search.py that reports a piece as left over although one of its sheets holds it.

Two squares, one of which fits a dear small board and both a cheap larger one; one sheet
allowed. The baseline opens the first bin type and strands a square, the lane planner then
puts both on the larger board for less, and the stranded square is still reported.
*/
module DoubleCount {
  import opened Geometry
  import opened Guillotine
  import opened Plans
  import opened Sequences
  import opened Sheets
  import opened Constructors
  import opened Strips
  import opened Bounds
  import opened SearchPlans
  import opened Incumbents
  import opened Searching
  import opened Beam
  import opened Improving
  import opened HalfBoards
  import opened Repairs
  import opened Optimizer

  const A := Piece("a", 1000, 1000, false, 0)
  const B := Piece("b", 1000, 1000, false, 0)
  const SMALL := BinSpec(1900, 1000, 5, false, None, "small")
  const LARGE := BinSpec(2000, 1000, 1, false, None, "large")
  const JOB := Job([SMALL, LARGE], Params(0, 0, 0, 0, 0))

  function At(p: Piece, x: int): Placed {
    Placed(p, x, 0, 1000, 1000, false)
  }

  const ONE := Fill(0, BinFill([At(A, 0)], [], []))
  const BOTH := Fill(1, BinFill([At(A, 0), At(B, 1000)], [], []))

  /** One pass over the small board takes the first square. */
  const GREEDY: Prober := (ask: nat, pool: seq<Piece>, k: nat) => if k == 0 && A in pool then Some(ONE) else None

  /** The lane planner puts both squares on the large board when that is cheaper. */
  const LANES: int -> Option<seq<Fill>> := (below: int) => if below > 1 then Some([BOTH]) else None

  const NOTHING_GENERATED: Generator := (ask: nat, pool: seq<Piece>, k: nat) => []
  const NOTHING_PROBED: Prober := (ask: nat, pool: seq<Piece>, k: nat) => None
  const HELPERS := Helpers((d: nat) => Answer([], [A]), (ask: nat, group: seq<Piece>, k: nat) => Answer([], group),
                           (ask: nat, kinds: seq<nat>) => None, true, LANES)

  lemma SideOfTwo(a: Box, b: Box, at: int, far: bool)
    ensures Side([a], false, at, far) == if OnSide(a, false, at, far) then [a] else []
    ensures Side([a, b], false, at, far) == Side([a], false, at, far) + if OnSide(b, false, at, far) then [b] else []
  {
    assert [a][..0] == [] && [a, b][..1] == [a];
    assert Side([], false, at, far) == [];
  }

  lemma OneCuts()
    ensures Cuttable(Box(0, 0, 1900, 1000), [Box(0, 0, 1000, 1000)], 0)
  {
    hide Frees, Side;
    var r, a := Box(0, 0, 1900, 1000), Box(0, 0, 1000, 1000);
    SideOfTwo(a, a, 1000, false);
    SideOfTwo(a, a, 1000, true);
    FreesLeaf(Whole, NearRegion(r, false, 1000), [a], 0);
    FreesLeaf(Empty, FarRegion(r, false, 1000, 0), [], 0);
    CutFrees(false, 1000, Whole, Empty, r, [a], 0);
  }

  lemma BothCut()
    ensures Cuttable(Box(0, 0, 2000, 1000), [Box(0, 0, 1000, 1000), Box(1000, 0, 2000, 1000)], 0)
  {
    hide Frees, Side;
    var r, a, b := Box(0, 0, 2000, 1000), Box(0, 0, 1000, 1000), Box(1000, 0, 2000, 1000);
    SideOfTwo(a, b, 1000, false);
    SideOfTwo(a, b, 1000, true);
    FreesLeaf(Whole, NearRegion(r, false, 1000), [a], 0);
    FreesLeaf(Whole, FarRegion(r, false, 1000, 0), [b], 0);
    CutFrees(false, 1000, Whole, Whole, r, [a, b], 0);
  }

  lemma OneIsSound()
    ensures FillSound(ONE, JOB) && PlacedIn(ONE) == [A]
  {
    hide Cuttable, BoxesOf, PiecesOf;
    assert BoxesOf([At(A, 0)]) == [Box(0, 0, 1000, 1000)];
    OneCuts();
  }

  lemma BothAreSound()
    ensures FillSound(BOTH, JOB) && PlacedIn(BOTH) == [A, B]
  {
    hide Cuttable, BoxesOf, PiecesOf;
    assert BoxesOf([At(A, 0), At(B, 1000)]) == [Box(0, 0, 1000, 1000), Box(1000, 0, 2000, 1000)];
    BothCut();
  }

  lemma OneOnly(f: Fill)
    ensures AllPieces([f]) == PlacedIn(f) && CostOf([f], JOB) == CostIn(JOB)(f)
    ensures forall k: nat :: Times([f], k) == if f.kind == k then 1 else 0
  {
    assert [] + [f] == [f];
    AllPiecesLast([], f);
    OneMoreFill([], f, Zeros(JOB), JOB);
    NothingYet(JOB);
  }

  lemma PiecesAre()
    ensures Distinct([A, B]) && AllValid([A, B]) && Placeable([A, B], JOB, true) == [A, B]
  {
    hide FitsSome, Placeable;
    TheyFit();
    assert [A, B][..1] == [A] && [A][..0] == [];
    NonePlaceable(JOB);
    PlaceableLast([A], JOB, true);
    PlaceableLast([A, B], JOB, true);
  }

  lemma TheyFit()
    ensures FitsSome(A, JOB) && FitsSome(B, JOB)
  {
    assert SMALL in JOB.specs && FitsSpec(A, SMALL, JOB.p) && FitsSpec(B, SMALL, JOB.p);
  }

  /** Every answer of this run is as good as it should be. */
  lemma AnswersAreHonest()
    ensures HonestGenerator(NOTHING_GENERATED, JOB) && HonestProber(NOTHING_PROBED, JOB, true)
    ensures HonestProber(NOTHING_PROBED, JOB, false) && NoneNegative(JOB.specs)
    ensures HonestProber(GREEDY, JOB, false) && HonestHelpers(HELPERS, [A, B], JOB)
  {
    hide FillSound, AllPieces, CostOf, Times;
    OneIsSound();
    BothAreSound();
    OneOnly(BOTH);
    forall ask: nat, pool: seq<Piece>, k: nat | k < |JOB.specs| && AllValid(pool)
      ensures GoodFill(GREEDY(ask, pool, k), pool, k, JOB, false)
    {
      if A in pool { assert multiset([A]) <= multiset(pool); }
    }
    forall ask: nat, group: seq<Piece>, k: nat
      ensures GoodRepack(HELPERS.repack(ask, group, k), group, k, JOB) { NothingYet(JOB); }
    forall d: nat ensures GoodRelaxed(HELPERS.relax(d), [A, B], JOB) { NoStock(JOB); }
    forall below: int ensures HonestLanes(HELPERS.lanes(below), [A, B], JOB) {
    }
  }

  lemma BaselineStrands()
    ensures Baseline(JOB, [A, B], 1, GREEDY) == Solution([ONE], [B])
  {
    assert [] + [ONE] == [ONE];
    assert FirstTaken(JOB, [A, B], [], GREEDY, 0) == Some(ONE);
    assert [A, B][..1] == [A] && [A][..0] == [];
    assert At(A, 0) in ONE.sheet.placed;
    assert HasId(ONE.sheet.placed, "a") && !HasId(ONE.sheet.placed, "b");
    assert DropPlaced([], ONE.sheet.placed) == [] && DropPlaced([A], ONE.sheet.placed) == [];
    assert DropPlaced([A, B], ONE.sheet.placed) == [B];
    assert Sequential(JOB, [ONE], [B], 0, GREEDY) == Solution([ONE], [B]);
  }

  lemma NothingToHalve()
    ensures HalvedPlan(JOB, NOTHING_GENERATED, NOTHING_PROBED, [ONE], 0) == [ONE]
  {
    assert HalfOf([], "small") == None && JOB.specs[..1] == [SMALL] && [SMALL][..0] == [];
    assert HalfOf([SMALL], "small") == None && HalfOf(JOB.specs, "small") == None;
    assert [ONE][..0] == [];
  }

  lemma OneIsHalfEmpty()
    ensures EmptierThan([ONE], JOB, LANE_PLAN_GATE)
  {
    assert [At(A, 0)][..0] == [];
    assert UsedArea([]) == 0 && UsedArea([At(A, 0)]) == 1000000;
    assert ONE in [ONE];
  }

  lemma LanesAreAdopted()
    ensures RepairAdopted(JOB, [ONE], [A, B], HELPERS)
  {
    hide RelaxingHelps, HalvingHelps, EmptierThan, CostOf, AllPieces, FillSound;
    OneIsHalfEmpty();
    OneOnly(ONE);
    OneOnly(BOTH);
    BothAreSound();
    assert LanesWin(HELPERS.lanes(CostOf([ONE], JOB)), [ONE], [A, B], JOB);
  }

  /** The guard of the failing case holds of this input. */
  lemma StrandedThenPlaced()
    ensures CountsTwice(JOB, NOTHING_GENERATED, NOTHING_PROBED, 0, [A, B], 1, GREEDY, true, HELPERS)
  {
    hide Baseline, HalvedPlan, RepairAdopted;
    PiecesAre();
    BaselineStrands();
    NothingToHalve();
    LanesAreAdopted();
  }

  /** The run itself: its sheets and its leftovers together are not the pieces it was given. */
  method Run(c: Choices) returns (fills: seq<Fill>, unplaced: seq<Piece>)
    requires HonestChooser(c.choose) && c.maxSheets == 1
    ensures multiset(AllPieces(fills)) + multiset(unplaced) != multiset([A, B])
  {
    hide AllPieces, CountsTwice, HonestGenerator, HonestProber, HonestHelpers, Placeable, Covers;
    AnswersAreHonest();
    PiecesAre();
    StrandedThenPlaced();
    var x := new Searcher(JOB, NOTHING_GENERATED, NOTHING_PROBED, NOTHING_PROBED, ps => ps);
    fills, unplaced := Optimize(x, [A, B], GREEDY, c, true, HELPERS);
  }
}
