/**
The half-board downgrade of search.py.
*/
module HalfBoards {
  import opened Geometry
  import opened Guillotine
  import opened Plans
  import opened Sequences
  import opened Sheets
  import opened Constructors
  import opened Strips
  import opened Bounds
  import opened SearchPlans
  import opened Incumbents
  import opened Searching
  import opened Improving

  /** The half sibling of a material, the last one listed. */
  function HalfOf(specs: seq<BinSpec>, key: string): (k: Option<nat>)
    ensures k.Some? ==> k.value < |specs| && specs[k.value].half && specs[k.value].key == key
    ensures forall i :: (if k.Some? then k.value + 1 else 0) <= i < |specs| ==> !(specs[i].half && specs[i].key == key)
  {
    if specs == [] then None
    else if specs[|specs|-1].half && specs[|specs|-1].key == key then Some(|specs| - 1)
    else HalfOf(specs[..|specs|-1], key)
  }

  /** The first fill that takes the whole pool. */
  function FirstWholeOf(fills: seq<Fill>, target: nat): (f: Option<Fill>)
    ensures f.Some? ==> f.value in fills && |f.value.sheet.placed| == target
  {
    if fills == [] then None
    else if |fills[0].sheet.placed| == target then Some(fills[0])
    else FirstWholeOf(fills[1..], target)
  }

  method FirstWhole(fills: seq<Fill>, target: nat) returns (f: Option<Fill>)
    ensures f == FirstWholeOf(fills, target)
  {
    for i := 0 to |fills|
      invariant FirstWholeOf(fills[i..], target) == FirstWholeOf(fills, target)
    {
      if |fills[i].sheet.placed| == target { return Some(fills[i]); }
    }
    return None;
  }

  /** The half sibling a full board may be swapped for: one that is cheaper. */
  function SiblingOf(kind: nat, job: Job): (k: Option<nat>)
    ensures k.Some? ==> k.value < |job.specs| && kind < |job.specs|
    ensures k.Some? ==>
            job.specs[k.value].half && !job.specs[kind].half && job.specs[k.value].cost < job.specs[kind].cost
  {
    if kind >= |job.specs| || job.specs[kind].half then None
    else
      var half := HalfOf(job.specs, job.specs[kind].key);
      if half.Some? && job.specs[half.value].cost < job.specs[kind].cost then half else None
  }

  /** A piece can lie on such a board. */
  predicate HasRoom(kind: nat, job: Job)
    requires kind < |job.specs|
  {
    var r := UsableBounds(job.specs[kind].width, job.specs[kind].height, job.p);
    r.x0 < r.x1 && r.y0 < r.y1
  }

  /** A board of this kind can be on a plan with a piece on it, and its half sibling can
      hold a piece too. */
  predicate MaySwap(kind: nat, job: Job) {
    && SiblingOf(kind, job).Some? && job.specs[kind].count != Some(0)
    && HasRoom(kind, job) && HasRoom(SiblingOf(kind, job).value, job)
  }

  /** Half boards that may be swapped in come in unlimited supply. */
  predicate StockSafe(job: Job) {
    forall kind: nat :: kind < |job.specs| && MaySwap(kind, job) ==>
        job.specs[SiblingOf(kind, job).value].count.None?
  }

  /** The same pieces on the half sibling. */
  ghost predicate Halved(f: Fill, g: Fill, job: Job) {
    && SiblingOf(f.kind, job) == Some(g.kind) && FillSound(g, job)
    && PlacedIn(f) != [] && multiset(PlacedIn(g)) == multiset(PlacedIn(f))
  }

  /** What a full board is swapped for, asked from `ask` on: the first generated fill that
      holds everything, or else the solver's. */
  function SwapAt(job: Job, gen: Generator, probe: Prober, f: Fill, ask: nat): Option<Fill> {
    var k := SiblingOf(f.kind, job);
    if k.None? then None
    else
      var whole := FirstWholeOf(gen(ask, PlacedIn(f), k.value), |PlacedIn(f)|);
      if whole.Some? then whole else probe(ask + 1, PlacedIn(f), k.value)
  }

  /** A full board is swapped exactly when its last listed half sibling is cheaper and some
      fill proposed for its pieces there, or the solver's, takes all of them. */
  lemma SwapIff(job: Job, gen: Generator, probe: Prober, f: Fill, ask: nat)
    requires f.kind < |job.specs|
    ensures SwapAt(job, gen, probe, f, ask).Some? <==>
            && !job.specs[f.kind].half
            && exists k: nat :: && k < |job.specs| && IsLastHalf(k, job.specs[f.kind].key, job)
                                && job.specs[k].cost < job.specs[f.kind].cost
                                && (probe(ask + 1, PlacedIn(f), k).Some?
                                    || exists g :: g in gen(ask, PlacedIn(f), k)
                                                   && |g.sheet.placed| == |PlacedIn(f)|)
  {
    hide PlacedIn, FirstWholeOf;
    var half := HalfOf(job.specs, job.specs[f.kind].key);
    if half.Some? { FirstWholeIff(gen(ask, PlacedIn(f), half.value), |PlacedIn(f)|); }
  }

  predicate IsLastHalf(k: nat, key: string, job: Job) {
    && k < |job.specs| && job.specs[k].half && job.specs[k].key == key
    && forall i :: k < i < |job.specs| ==> !(job.specs[i].half && job.specs[i].key == key)
  }

  lemma {:induction false} FirstWholeIff(fills: seq<Fill>, target: nat)
    ensures FirstWholeOf(fills, target).Some? <==> exists g :: g in fills && |g.sheet.placed| == target
  {
    if fills != [] {
      FirstWholeIff(fills[1..], target);
      assert fills == [fills[0]] + fills[1..];
    }
  }

  function AsksAt(job: Job, gen: Generator, f: Fill, ask: nat): nat {
    var k := SiblingOf(f.kind, job);
    if k.None? then 0 else if FirstWholeOf(gen(ask, PlacedIn(f), k.value), |PlacedIn(f)|).Some? then 1 else 2
  }

  function HalvedAsks(job: Job, gen: Generator, fills: seq<Fill>, ask: nat): nat {
    if fills == [] then ask
    else
      var before := HalvedAsks(job, gen, fills[..|fills|-1], ask);
      before + AsksAt(job, gen, fills[|fills|-1], before)
  }

  /** Every full board swapped that can be. */
  function HalvedPlan(job: Job, gen: Generator, probe: Prober, fills: seq<Fill>, ask: nat): seq<Fill> {
    if fills == [] then []
    else
      var init, f := fills[..|fills|-1], fills[|fills|-1];
      var g := SwapAt(job, gen, probe, f, HalvedAsks(job, gen, init, ask));
      HalvedPlan(job, gen, probe, init, ask) + [if g.Some? then g.value else f]
  }

  lemma HalvedNext(job: Job, gen: Generator, probe: Prober, fills: seq<Fill>, f: Fill, ask: nat)
    ensures var at := HalvedAsks(job, gen, fills, ask);
            var g := SwapAt(job, gen, probe, f, at);
            && HalvedAsks(job, gen, fills + [f], ask) == at + AsksAt(job, gen, f, at)
            && HalvedPlan(job, gen, probe, fills + [f], ask) ==
               HalvedPlan(job, gen, probe, fills, ask) + [if g.Some? then g.value else f]
  {
    hide SwapAt, AsksAt;
    assert (fills + [f])[..|fills|] == fills;
  }

  /** The content of one full board on its half sibling, when it fits and is cheaper. */
  method HalfSwap(x: Searcher, f: Fill) returns (g: Option<Fill>)
    requires x.Valid() && FillSound(f, x.job) && AllValid(PlacedIn(f))
    modifies x`asks
    ensures x.Valid()
    ensures g == SwapAt(x.job, x.gen, x.probe, f, old(x.asks))
    ensures x.asks == old(x.asks) + AsksAt(x.job, x.gen, f, old(x.asks))
    ensures g.Some? ==> Halved(f, g.value, x.job)
  {
    hide Sawable, AllValid, PiecesOf, NoneNegative, IsOrder, Remembers;
    g := None;
    var spec := x.job.specs[f.kind];
    if spec.half { return; }
    var half := HalfOf(x.job.specs, spec.key);
    if half.None? || x.job.specs[half.value].cost >= spec.cost { return; }
    var pool := PlacedIn(f);
    var fills := x.gen(x.asks, pool, half.value);
    x.asks := x.asks + 1;
    g := FirstWhole(fills, |pool|);
    if g.None? {
      g := x.probe(x.asks, pool, half.value);
      assert GoodFill(g, pool, half.value, x.job, true);
      x.asks := x.asks + 1;
    }
    if g.Some? {
      assert g.value.kind == half.value && FillOk(g.value, pool, x.job);
      WholePool(PlacedIn(g.value), pool);
      assert |PlacedIn(g.value)| == |g.value.sheet.placed|;
    }
  }

  /** Swaps full boards for halves where their content fits: sheet by sheet the same
      pieces, and never a higher bill, and within stock when no half board that may be
      swapped in is limited. */
  method HalfDowngrade(x: Searcher, s: Solution, ghost pool: seq<Piece>) returns (r: Solution)
    requires x.Valid() && Partition(s.fills, pool, x.job) && AllValid(pool)
    modifies x`asks
    ensures x.Valid() && Partition(r.fills, pool, x.job) && r.unplaced == s.unplaced
    ensures r.fills == HalvedPlan(x.job, x.gen, x.probe, s.fills, old(x.asks))
    ensures |r.fills| == |s.fills| && CostOf(r.fills, x.job) <= CostOf(s.fills, x.job)
    ensures forall i: nat :: i < |s.fills| ==> r.fills[i] == s.fills[i] || Halved(s.fills[i], r.fills[i], x.job)
    ensures StockSafe(x.job) && WithinStock(s.fills, Zeros(x.job), x.job) ==> WithinStock(r.fills, Zeros(x.job), x.job)
  {
    hide FillSound, AllValid, PlacedIn, Times, CostOf, AllPieces, Halved, Partition, StockSafe, SwapAt, AsksAt,
         HalvedAsks, HalvedPlan;
    var fills: seq<Fill> := [];
    NothingYet(x.job);
    NothingHalved(x.job, x.gen, x.probe, x.asks);
    for i := 0 to |s.fills|
      invariant x.Valid() && |fills| == i && NoWorseThan(fills, s.fills[..i], x.job)
      invariant forall j: nat :: j < i ==> fills[j] == s.fills[j] || Halved(s.fills[j], fills[j], x.job)
      invariant x.asks == HalvedAsks(x.job, x.gen, s.fills[..i], old(x.asks))
      invariant fills == HalvedPlan(x.job, x.gen, x.probe, s.fills[..i], old(x.asks))
    {
      var f := s.fills[i];
      PartValid(s.fills, i, pool, x.job);
      HalvedNext(x.job, x.gen, x.probe, s.fills[..i], f, old(x.asks));
      var g := HalfSwap(x, f);
      var kept := if g.Some? then g.value else f;
      OneMoreKept(fills, s.fills[..i], kept, f, x.job);
      assert s.fills[..i+1] == s.fills[..i] + [f];
      fills := fills + [kept];
    }
    assert s.fills[..|s.fills|] == s.fills;
    StandsFor(fills, s.fills, pool, x.job);
    r := Solution(fills, s.unplaced);
  }

  lemma NothingHalved(job: Job, gen: Generator, probe: Prober, ask: nat)
    ensures HalvedAsks(job, gen, [], ask) == ask && HalvedPlan(job, gen, probe, [], ask) == []
  {
  }

  /** A sheet that holds a piece has room for one. */
  lemma HoldsHasRoom(f: Fill, job: Job)
    requires FillSound(f, job) && PlacedIn(f) != []
    ensures HasRoom(f.kind, job)
  {
    hide Frees;
    var spec, q := job.specs[f.kind], f.sheet.placed[0];
    var r := UsableBounds(spec.width, spec.height, job.p);
    var t :| Frees(t, r, BoxesOf(f.sheet.placed), job.p.kerf);
    assert BoxesOf(f.sheet.placed)[0] == BoxOf(q);
    FreesInside(t, r, BoxesOf(f.sheet.placed), job.p.kerf, BoxOf(q));
  }

  /** Only boards of kinds that may be swapped are. */
  lemma SwappedMay(f: Fill, g: Fill, job: Job)
    requires FillSound(f, job) && Halved(f, g, job) && job.specs[f.kind].count != Some(0)
    ensures MaySwap(f.kind, job)
  {
    hide FillSound, HasRoom;
    assert PlacedIn(f)[0] in multiset(PlacedIn(g));
    HoldsHasRoom(f, job);
    HoldsHasRoom(g, job);
  }

  /** No sheet of a kind that is not in stock at all. */
  predicate AllStocked(fills: seq<Fill>, job: Job) {
    forall f :: f in fills && f.kind < |job.specs| ==> job.specs[f.kind].count != Some(0)
  }

  lemma {:induction false} UsedAtLeastOnce(fills: seq<Fill>, f: Fill)
    requires f in fills
    ensures Times(fills, f.kind) >= 1
  {
    TimesNonNegative(fills[..|fills|-1], f.kind);
    if f in fills[..|fills|-1] { UsedAtLeastOnce(fills[..|fills|-1], f); }
  }

  lemma WithinIsStocked(fills: seq<Fill>, job: Job)
    requires WithinStock(fills, Zeros(job), job)
    ensures AllStocked(fills, job)
  {
    hide Times;
    forall f | f in fills && f.kind < |job.specs| ensures job.specs[f.kind].count != Some(0) {
      UsedAtLeastOnce(fills, f);
    }
  }

  /** The same pieces on sound sheets, for no more money and from no scarcer stock unless
      a half board swapped in is limited. */
  ghost predicate NoWorseThan(fills: seq<Fill>, before: seq<Fill>, job: Job) {
    && AllSound(fills, job) && multiset(AllPieces(fills)) == multiset(AllPieces(before))
    && CostOf(fills, job) <= CostOf(before, job)
    && (StockSafe(job) && AllStocked(before, job) ==>
          forall k: nat :: k < |job.specs| && job.specs[k].count.Some? ==> Times(fills, k) <= Times(before, k))
  }

  lemma OneMoreKept(fills: seq<Fill>, before: seq<Fill>, g: Fill, f: Fill, job: Job)
    requires NoWorseThan(fills, before, job) && FillSound(f, job)
    requires g == f || Halved(f, g, job)
    ensures NoWorseThan(fills + [g], before + [f], job)
  {
    hide FillSound, PlacedIn, Times, CostOf, AllPieces, MaySwap;
    OneMoreFill(fills, g, Zeros(job), job);
    OneMoreFill(before, f, Zeros(job), job);
    assert forall x :: x in before ==> x in before + [f];
    if g != f && AllStocked(before + [f], job) {
      assert f in before + [f];
      SwappedMay(f, g, job);
    }
  }

  lemma StandsFor(fills: seq<Fill>, before: seq<Fill>, pool: seq<Piece>, job: Job)
    requires NoWorseThan(fills, before, job) && Partition(before, pool, job)
    ensures Partition(fills, pool, job) && CostOf(fills, job) <= CostOf(before, job)
    ensures StockSafe(job) && WithinStock(before, Zeros(job), job) ==> WithinStock(fills, Zeros(job), job)
  {
    hide FillSound, Times, CostOf, AllPieces, StockSafe, AllStocked;
    if WithinStock(before, Zeros(job), job) { WithinIsStocked(before, job); }
  }

  lemma NothingYet(job: Job)
    ensures AllPieces([]) == [] && CostOf([], job) == 0 && forall k: nat :: Times([], k) == 0
  {
  }

  lemma PartValid(fills: seq<Fill>, i: nat, pool: seq<Piece>, job: Job)
    requires i < |fills| && Partition(fills, pool, job) && AllValid(pool)
    ensures AllValid(PlacedIn(fills[i])) && FillSound(fills[i], job)
  {
    hide AllValid, PlacedIn, FillSound;
    assert fills == fills[..i] + [fills[i]] + fills[i+1..];
    AllPiecesConcat(fills[..i] + [fills[i]], fills[i+1..]);
    AllPiecesLast(fills[..i], fills[i]);
    SubpoolValid(PlacedIn(fills[i]), pool);
  }
}
