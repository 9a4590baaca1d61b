/**
The repairs of search.py that replace a whole plan: re-cutting the plan of a thinner
blade, re-partitioning onto fewer full boards, and the plan of full-height lanes.
Each is adopted only when it holds every piece and bills strictly less.
*/
module Repairs {
  import opened Geometry
  import opened Plans
  import opened Sequences
  import opened Sheets
  import opened Constructors
  import opened Strips
  import opened Bounds
  import opened SearchPlans
  import opened Incumbents
  import opened Searching
  import opened Improving
  import opened HalfBoards

  /** What a run of the optimizer answers: fills, and the pieces left over. */
  datatype Answer = Answer(fills: seq<Fill>, spilled: seq<Piece>)

  const REPAIR_FILL_GATE := 30
  const HALF_REPARTITION_GATE := 55
  const LANE_PLAN_GATE := 55

  /** Thinner blades tried, by how much, in hundredths of a millimetre. */
  const REPAIR_KERF_DELTAS := [100, 200]

  /** The most pieces the three-stage model is asked about. */
  const MAX_PIECES := 60

  /** Some sheet is filled to less than so many percent of its area. */
  predicate EmptierThan(fills: seq<Fill>, job: Job, percent: int) {
    exists f :: f in fills && f.kind < |job.specs|
      && var area := job.specs[f.kind].width * job.specs[f.kind].height;
         area > 0 && 100 * UsedArea(f.sheet.placed) < percent * area
  }

  /** Every piece of the pool once. */
  predicate Covers(fills: seq<Fill>, pieces: seq<Piece>) {
    multiset(AllPieces(fills)) == multiset(pieces)
  }

  // ---- re-cutting a relaxed plan -------------------------------------------------------

  /** A run of the optimizer on some pieces and one bin type, blade as given. */
  type Repacker = (nat, seq<Piece>, nat) -> Answer

  /** Sound sheets of that bin type, that hold the pieces when none is left over. */
  ghost predicate GoodRepack(a: Answer, group: seq<Piece>, k: nat, job: Job) {
    && (forall f :: f in a.fills ==> f.kind == k && FillSound(f, job))
    && (a.spilled == [] ==> multiset(AllPieces(a.fills)) == multiset(group))
  }

  ghost predicate HonestRepacker(repack: Repacker, job: Job) {
    forall ask: nat, group: seq<Piece>, k: nat :: k < |job.specs| && AllValid(group) && Distinct(group) ==>
      GoodRepack(repack(ask, group, k), group, k, job)
  }

  /** Bin types of a plan, sheet by sheet. */
  function KindsOf(fills: seq<Fill>): (r: seq<nat>)
    ensures |r| == |fills| && forall i :: 0 <= i < |r| ==> r[i] == fills[i].kind
  {
    seq(|fills|, i requires 0 <= i < |fills| => fills[i].kind)
  }

  predicate OneSheet(a: Answer) {
    a.spilled == [] && |a.fills| == 1
  }

  /** Every sheet's pieces go onto one sheet of its kind again. */
  predicate Recuttable(hint: seq<Fill>, repack: Repacker) {
    forall i: nat :: i < |hint| ==> OneSheet(repack(i, PlacedIn(hint[i]), hint[i].kind))
  }

  /** Re-packs every sheet of a plan made for another blade, each onto a sheet of the
      very kind it had; all or nothing. */
  method Recut(hint: seq<Fill>, job: Job, repack: Repacker) returns (rebuilt: Option<seq<Fill>>)
    requires HonestRepacker(repack, job) && AllValid(AllPieces(hint)) && Distinct(AllPieces(hint))
    requires forall f :: f in hint ==> f.kind < |job.specs|
    ensures rebuilt.Some? <==> Recuttable(hint, repack)
    ensures rebuilt.Some? ==>
              && Partition(rebuilt.value, AllPieces(hint), job)
              && KindsOf(rebuilt.value) == KindsOf(hint)
  {
    hide FillSound, AllValid, Distinct, PlacedIn, AllPieces, HonestRepacker, OneSheet;
    var fills: seq<Fill> := [];
    NoPlan(job);
    for i := 0 to |hint|
      invariant |fills| == i && AllSound(fills, job)
      invariant forall j :: 0 <= j < i ==> fills[j].kind == hint[j].kind
      invariant forall j: nat :: j < i ==> OneSheet(repack(j, PlacedIn(hint[j]), hint[j].kind))
      invariant multiset(AllPieces(fills)) == multiset(AllPieces(hint[..i]))
    {
      var f := hint[i];
      assert f in hint;
      ValidGroup(hint, i);
      var packed := repack(i, PlacedIn(f), f.kind);
      assert OneSheet(packed) <==> packed.spilled == [] && |packed.fills| == 1 by { SheetIsOne(packed); }
      if packed.spilled != [] || |packed.fills| != 1 { return None; }
      OnRealSheet(repack, i, f, job);
      AllPiecesLast(fills, packed.fills[0]);
      AllPiecesLast(hint[..i], f);
      assert hint[..i+1] == hint[..i] + [f];
      fills := fills + [packed.fills[0]];
    }
    assert hint[..|hint|] == hint;
    rebuilt := Some(fills);
  }

  lemma SheetIsOne(a: Answer)
    ensures OneSheet(a) <==> a.spilled == [] && |a.fills| == 1
  {
  }

  /** A group that goes onto one sheet is exactly what lies there. */
  lemma OnRealSheet(repack: Repacker, ask: nat, f: Fill, job: Job)
    requires HonestRepacker(repack, job) && f.kind < |job.specs| && AllValid(PlacedIn(f)) && Distinct(PlacedIn(f))
    requires repack(ask, PlacedIn(f), f.kind).spilled == [] && |repack(ask, PlacedIn(f), f.kind).fills| == 1
    ensures var g := repack(ask, PlacedIn(f), f.kind).fills[0];
            g.kind == f.kind && FillSound(g, job) && multiset(PlacedIn(g)) == multiset(PlacedIn(f))
  {
    hide FillSound, AllValid, Distinct, PlacedIn, AllPieces;
    assert GoodRepack(repack(ask, PlacedIn(f), f.kind), PlacedIn(f), f.kind, job);
    var fills := repack(ask, PlacedIn(f), f.kind).fills;
    assert fills[0] in fills && fills == [fills[0]];
    assert [] + [fills[0]] == fills;
    AllPiecesLast([], fills[0]);
    NoFillsNoPieces();
  }

  lemma NoPlan(job: Job)
    ensures AllPieces([]) == [] && multiset(AllPieces([])) == multiset{}
  {
  }

  lemma ValidGroup(fills: seq<Fill>, i: nat)
    requires i < |fills| && AllValid(AllPieces(fills)) && Distinct(AllPieces(fills))
    ensures AllValid(PlacedIn(fills[i])) && Distinct(PlacedIn(fills[i]))
  {
    hide AllValid, Distinct, PlacedIn;
    assert fills == fills[..i] + [fills[i]] + fills[i+1..];
    AllPiecesConcat(fills[..i] + [fills[i]], fills[i+1..]);
    AllPiecesLast(fills[..i], fills[i]);
    SubpoolValid(PlacedIn(fills[i]), AllPieces(fills));
    SubpoolDistinct(PlacedIn(fills[i]), AllPieces(fills));
  }

  lemma {:induction false} SameKinds(a: seq<Fill>, b: seq<Fill>, k: nat, job: Job)
    requires KindsOf(a) == KindsOf(b)
    ensures CostOf(a, job) == CostOf(b, job) && Times(a, k) == Times(b, k)
  {
    if a != [] {
      var n := |a| - 1;
      assert KindsOf(a)[n] == a[n].kind && KindsOf(b)[n] == b[n].kind;
      forall i | 0 <= i < n ensures KindsOf(a[..n])[i] == KindsOf(b[..n])[i] {
        assert KindsOf(a)[i] == a[i].kind && KindsOf(b)[i] == b[i].kind;
      }
      SameKinds(a[..n], b[..n], k, job);
    }
  }

  /** The optimizer's answer for a thinner blade. Its sheets need not be sound for the real
      one. */
  type Relaxer = nat -> Answer

  /** Every piece once when none is left over, within stock unless the half boards are
      limited. */
  ghost predicate GoodRelaxed(a: Answer, pieces: seq<Piece>, job: Job) {
    && (forall f :: f in a.fills ==> f.kind < |job.specs|)
    && (StockSafe(job) ==> WithinStock(a.fills, Zeros(job), job))
    && (a.spilled == [] ==> Covers(a.fills, pieces))
  }

  ghost predicate HonestRelaxer(relax: Relaxer, pieces: seq<Piece>, job: Job) {
    forall d: nat :: GoodRelaxed(relax(d), pieces, job)
  }

  /** A thinner blade that saves something the real blade can follow. */
  predicate Rescues(d: nat, job: Job, relax: Relaxer, repack: Repacker, target: int)
    requires d < |REPAIR_KERF_DELTAS|
  {
    && job.p.kerf - REPAIR_KERF_DELTAS[d] >= 0 && relax(d).spilled == [] && CostOf(relax(d).fills, job) < target
    && Recuttable(relax(d).fills, repack)
  }

  /** When the plan of a thinner blade is adopted. */
  predicate RelaxingHelps(job: Job, incumbent: seq<Fill>, relax: Relaxer, repack: Repacker) {
    && EmptierThan(incumbent, job, REPAIR_FILL_GATE)
    && exists d: nat :: d < |REPAIR_KERF_DELTAS| && Rescues(d, job, relax, repack, CostOf(incumbent, job))
  }

  /** Solves with a thinner blade and re-cuts with the real one. Whatever comes back is
      a complete sound plan for the real blade that bills strictly less, and something
      does exactly when the plan leaves a sheet nearly empty and one of the blades
      rescues. */
  method RelaxedKerfRepair(incumbent: seq<Fill>, pieces: seq<Piece>, job: Job, relax: Relaxer, repack: Repacker)
    returns (repaired: Option<seq<Fill>>)
    requires HonestRelaxer(relax, pieces, job) && HonestRepacker(repack, job) && AllValid(pieces) && Distinct(pieces)
    ensures repaired.Some? ==>
            Partition(repaired.value, pieces, job) && CostOf(repaired.value, job) < CostOf(incumbent, job)
    ensures repaired.Some? && StockSafe(job) ==> WithinStock(repaired.value, Zeros(job), job)
    ensures repaired.Some? <==> RelaxingHelps(job, incumbent, relax, repack)
  {
    hide FillSound, AllValid, Distinct, AllPieces, CostOf, KindsOf, HonestRepacker, Recuttable, EmptierThan, StockSafe;
    if !EmptierThan(incumbent, job, REPAIR_FILL_GATE) { return None; }
    var target := CostOf(incumbent, job);
    for d := 0 to |REPAIR_KERF_DELTAS|
      invariant forall e: nat :: e < d ==> !Rescues(e, job, relax, repack, target)
    {
      if job.p.kerf - REPAIR_KERF_DELTAS[d] < 0 { continue; }
      var hint := relax(d);
      assert GoodRelaxed(hint, pieces, job);
      if hint.spilled != [] || CostOf(hint.fills, job) >= target { continue; }
      SubpoolValid(AllPieces(hint.fills), pieces);
      SubpoolDistinct(AllPieces(hint.fills), pieces);
      var rebuilt := Recut(hint.fills, job, repack);
      if rebuilt.Some? {
        forall k: nat
          ensures Times(rebuilt.value, k) == Times(hint.fills, k) { SameKinds(rebuilt.value, hint.fills, k, job); }
        SameKinds(rebuilt.value, hint.fills, 0, job);
        assert Rescues(d, job, relax, repack, target);
        return rebuilt;
      }
    }
    return None;
  }

  // ---- fewer full boards --------------------------------------------------------------------

  /** The three-stage solver's answer for a list of bins. */
  type Refitter = (nat, seq<nat>) -> Option<seq<Fill>>

  /** Lengths in whole tenths of a millimetre: what the three-stage model rounds nothing
      of. */
  predicate InTenths(pieces: seq<Piece>, job: Job) {
    job.p.kerf % 10 == 0 && forall q :: q in pieces ==> q.width % 10 == 0 && q.height % 10 == 0
  }

  /** A fill for each bin asked for, perhaps with nothing on it, and no piece twice; sound
      when nothing is rounded. */
  ghost predicate GoodRefit(r: Option<seq<Fill>>, kinds: seq<nat>, pieces: seq<Piece>, job: Job) {
    r.Some? ==>
      && KindsOf(r.value) == kinds && multiset(AllPieces(r.value)) <= multiset(pieces)
      && (InTenths(pieces, job) ==> AllSound(r.value, job))
  }

  ghost predicate HonestRefitter(refit: Refitter, pieces: seq<Piece>, job: Job) {
    forall ask: nat, kinds: seq<nat> :: (forall k :: k in kinds ==> k < |job.specs|) ==>
      GoodRefit(refit(ask, kinds), kinds, pieces, job)
  }

  /** Bins with something on them; an empty one is not bought. */
  function Bought(fills: seq<Fill>): (r: seq<Fill>)
    ensures forall f :: f in r ==> f in fills
  {
    if fills == [] then []
    else Bought(fills[..|fills|-1]) + if fills[|fills|-1].sheet.placed != [] then [fills[|fills|-1]] else []
  }

  lemma BoughtLast(fills: seq<Fill>)
    requires fills != []
    ensures var init, f := fills[..|fills|-1], fills[|fills|-1];
            Bought(fills) == if f.sheet.placed != [] then Bought(init) + [f] else Bought(init)
  {
  }

  lemma NothingOn(f: Fill)
    requires f.sheet.placed == []
    ensures PlacedIn(f) == []
  {
  }

  lemma {:induction false} BoughtPieces(fills: seq<Fill>, job: Job)
    requires NoneNegative(job.specs)
    ensures AllPieces(Bought(fills)) == AllPieces(fills) && CostOf(Bought(fills), job) <= CostOf(fills, job)
    ensures forall k: nat :: Times(Bought(fills), k) <= Times(fills, k)
  {
    hide AllPieces, CostOf, Times, PlacedIn, NoneNegative, CostIn;
    if fills == [] {
      assert Bought(fills) == fills;
    } else {
      var init, f := fills[..|fills|-1], fills[|fills|-1];
      BoughtPieces(init, job);
      BoughtLast(fills);
      hide Bought;
      OneMoreFill(Bought(init), f, Zeros(job), job);
      OneMoreFill(init, f, Zeros(job), job);
      assert fills == init + [f];
      AllPiecesLast(Bought(init), f);
      AllPiecesLast(init, f);
      CostInNonNegative(f, job);
      if f.sheet.placed == [] { NothingOn(f); }
    }
  }

  lemma CostInNonNegative(f: Fill, job: Job)
    requires NoneNegative(job.specs)
    ensures CostIn(job)(f) >= 0
  {
  }

  function CostOfKinds(kinds: seq<nat>, job: Job): int {
    if kinds == [] then 0
    else CostOfKinds(kinds[..|kinds|-1], job) + if kinds[|kinds|-1] < |job.specs| then job.specs[kinds[|kinds|-1]].cost
        else 0
  }

  lemma {:induction false} KindsCost(fills: seq<Fill>, job: Job)
    ensures CostOf(fills, job) == CostOfKinds(KindsOf(fills), job)
  {
    if fills != [] {
      KindsCost(fills[..|fills|-1], job);
      assert KindsOf(fills)[..|fills|-1] == KindsOf(fills[..|fills|-1]);
    }
  }

  /** The first unlimited bin type that is, or is not, a half board. */
  function FirstUnlimited(specs: seq<BinSpec>, half: bool, k: nat): (r: Option<nat>)
    requires k <= |specs|
    ensures r.Some? ==> r.value < |specs| && specs[r.value].half == half && specs[r.value].count.None?
    ensures forall i :: k <= i < (if r.Some? then r.value else |specs|) ==>
                          !(specs[i].half == half && specs[i].count.None?)
    decreases |specs| - k
  {
    if k == |specs| then None
    else if specs[k].half == half && specs[k].count.None? then Some(k)
    else FirstUnlimited(specs, half, k + 1)
  }

  function FullBoards(fills: seq<Fill>, job: Job): (n: nat)
    ensures n <= |fills|
  {
    if fills == [] then 0
    else
      var k := fills[|fills|-1].kind;
      FullBoards(fills[..|fills|-1], job) + if k < |job.specs| && !job.specs[k].half then 1 else 0
  }

  function FullKinds(kinds: seq<nat>, job: Job): (n: nat) {
    if kinds == [] then 0
    else FullKinds(kinds[..|kinds|-1], job) + if kinds[|kinds|-1] < |job.specs| && !job.specs[kinds[|kinds|-1]].half
        then 1 else 0
  }

  lemma {:induction false} FullBoardsOfKinds(fills: seq<Fill>, job: Job)
    ensures FullBoards(fills, job) == FullKinds(KindsOf(fills), job)
  {
    if fills != [] {
      FullBoardsOfKinds(fills[..|fills|-1], job);
      assert KindsOf(fills)[..|fills|-1] == KindsOf(fills[..|fills|-1]);
    }
  }

  lemma {:induction false} FullOfTwoKinds(full: nat, n: nat, half: nat, m: nat, job: Job)
    requires full < |job.specs| && half < |job.specs| && !job.specs[full].half && job.specs[half].half
    ensures FullKinds(TwoKindsOf(full, n, half, m), job) == n
    decreases n + m
  {
    var kinds := TwoKindsOf(full, n, half, m);
    if m > 0 {
      FullOfTwoKinds(full, n, half, m - 1, job);
      assert kinds[..|kinds|-1] == TwoKindsOf(full, n, half, m - 1);
    } else if n > 0 {
      FullOfTwoKinds(full, n - 1, half, 0, job);
      assert kinds[..|kinds|-1] == TwoKindsOf(full, n - 1, half, 0);
    }
  }

  lemma FullBoardsLast(fills: seq<Fill>, f: Fill, job: Job)
    ensures FullBoards(fills + [f], job) == FullBoards(fills, job) + if f.kind < |job.specs|
            && !job.specs[f.kind].half then 1 else 0
  {
    assert (fills + [f])[..|fills|] == fills;
  }

  lemma {:induction false} BoughtIsFewer(fills: seq<Fill>, job: Job)
    ensures FullBoards(Bought(fills), job) <= FullBoards(fills, job) && |Bought(fills)| <= |fills|
  {
    hide FullBoards;
    if fills != [] {
      var init, f := fills[..|fills|-1], fills[|fills|-1];
      BoughtIsFewer(init, job);
      BoughtLast(fills);
      assert fills == init + [f];
      FullBoardsLast(init, f, job);
      FullBoardsLast(Bought(init), f, job);
    }
  }

  lemma FewerFull(fills: seq<Fill>, full: nat, n: nat, half: nat, m: nat, job: Job)
    requires KindsOf(fills) == TwoKindsOf(full, n, half, m)
    requires full < |job.specs| && half < |job.specs| && !job.specs[full].half && job.specs[half].half
    ensures FullBoards(Bought(fills), job) <= n && |Bought(fills)| <= n + m
  {
    hide FullBoards, FullKinds, Bought;
    FullBoardsOfKinds(fills, job);
    FullOfTwoKinds(full, n, half, m, job);
    BoughtIsFewer(fills, job);
    assert |KindsOf(fills)| == n + m;
  }

  /** So many sheets of one kind, then so many of another. */
  function TwoKindsOf(full: nat, n: nat, half: nat, m: nat): (r: seq<nat>)
    ensures forall k :: k in r ==> k == full || k == half
  {
    seq(n, _ => full) + seq(m, _ => half)
  }

  /** The bins one step asks for: a full board fewer, a half board more. */
  function NextKinds(current: seq<Fill>, full: nat, half: nat, job: Job): seq<nat>
    requires FullBoards(current, job) > 0
  {
    var n := FullBoards(current, job);
    TwoKindsOf(full, n - 1, half, |current| - n + 1)
  }

  /** One step: the bins have room, cost less, and the solver fills them with everything. */
  predicate Steps(round: nat, current: seq<Fill>, pieces: seq<Piece>, job: Job, full: nat, half: nat, refit: Refitter) {
    && FullBoards(current, job) > 0
    && var kinds := NextKinds(current, full, half, job);
       && RoomOf(kinds, job) >= PoolArea(pieces) && CostOfKinds(kinds, job) < CostOf(current, job)
       && refit(round, kinds).Some? && |AllPieces(refit(round, kinds).value)| == |pieces|
  }

  lemma {:induction false} RoomOfSound(fills: seq<Fill>, job: Job)
    requires AllSound(fills, job)
    ensures PoolArea(AllPieces(fills)) <= RoomOf(KindsOf(fills), job)
  {
    hide FillSound, SheetArea, PiecesOf, PoolArea;
    if fills == [] {
      NoArea();
    } else {
      var init, f := fills[..|fills|-1], fills[|fills|-1];
      assert f in fills && forall g :: g in init ==> g in fills;
      RoomOfSound(init, job);
      assert KindsOf(fills)[..|fills|-1] == KindsOf(init);
      OneSheetFits(f, job);
      AreaConcat(AllPieces(init), PlacedIn(f));
      assert fills == init + [f];
      AllPiecesLast(init, f);
    }
  }

  lemma AreaConcat(a: seq<Piece>, b: seq<Piece>)
    ensures PoolArea(a + b) == PoolArea(a) + PoolArea(b)
  {
    SumByConcat(PieceArea, a, b);
  }

  lemma OneSheetFits(f: Fill, job: Job)
    requires FillSound(f, job)
    ensures f.kind < |job.specs| && PoolArea(PlacedIn(f)) <= SheetArea(job.specs[f.kind], job.p)
  {
    hide PoolArea, SheetArea;
    SheetAreaFits(Opened(job.specs[f.kind], f.sheet.placed), job.p);
  }

  /** The test of the area skips no step that could help: lengths in whole tenths of a
      millimetre, one is made exactly when there is a full board to give up, the bins asked
      for cost less, and the solver fills them with everything. */
  lemma AreaSkipsNothing(round: nat, current: seq<Fill>, pieces: seq<Piece>, job: Job, full: nat, half: nat,
                         refit: Refitter)
    requires HonestRefitter(refit, pieces, job) && InTenths(pieces, job) && full < |job.specs| && half < |job.specs|
    ensures Steps(round, current, pieces, job, full, half, refit) <==>
            && FullBoards(current, job) > 0
            && var kinds := NextKinds(current, full, half, job);
               && CostOfKinds(kinds, job) < CostOf(current, job)
               && refit(round, kinds).Some? && |AllPieces(refit(round, kinds).value)| == |pieces|
  {
    hide FullBoards, RoomOf, PoolArea, CostOfKinds, CostOf, AllPieces, InTenths, AllSound, TwoKindsOf;
    if FullBoards(current, job) > 0 {
      var kinds := NextKinds(current, full, half, job);
      TwoKinds(full, FullBoards(current, job) - 1, half, |current| - FullBoards(current, job) + 1);
      assert GoodRefit(refit(round, kinds), kinds, pieces, job);
      if refit(round, kinds).Some? && |AllPieces(refit(round, kinds).value)| == |pieces| {
        var fills := refit(round, kinds).value;
        WholePool(AllPieces(fills), pieces);
        RoomOfSound(fills, job);
        AreaOfPermuted(AllPieces(fills), pieces);
      }
    }
  }

  lemma AreaOfPermuted(a: seq<Piece>, b: seq<Piece>)
    requires multiset(a) == multiset(b)
    ensures PoolArea(a) == PoolArea(b)
  {
    SumByPermuted(PieceArea, a, b);
  }

  /** Whether a re-partition is tried at all: three stages can be solved, for so few pieces,
      and an unlimited half board is cheaper than an unlimited full one. */
  predicate HalvingAsked(job: Job, pieces: seq<Piece>, solvable: bool) {
    var full, half := FirstUnlimited(job.specs, false, 0), FirstUnlimited(job.specs, true, 0);
    solvable && |pieces| <= MAX_PIECES && full.Some? && half.Some?
    && job.specs[half.value].cost < job.specs[full.value].cost
  }

  /** When a plan of fewer full boards is found. */
  predicate HalvingHelps(job: Job, incumbent: seq<Fill>, pieces: seq<Piece>, refit: Refitter, solvable: bool) {
    && HalvingAsked(job, pieces, solvable) && incumbent != []
    && EmptierThan(incumbent, job, HALF_REPARTITION_GATE)
    && Steps(0, incumbent, pieces, job, FirstUnlimited(job.specs, false, 0).value,
             FirstUnlimited(job.specs, true, 0).value, refit)
  }

  /** The plan after the rounds left, each one the last that helps. */
  function Repartitioned(round: nat, rounds: nat, current: seq<Fill>, pieces: seq<Piece>, job: Job, full: nat,
                         half: nat,
                  refit: Refitter): seq<Fill>
    decreases rounds - round
  {
    if round < rounds && EmptierThan(current, job, HALF_REPARTITION_GATE)
       && Steps(round, current, pieces, job, full, half, refit)
    then Repartitioned(round + 1, rounds, Bought(refit(round, NextKinds(current, full, half, job)).value), pieces, job,
                       full,
                half, refit)
    else current
  }

  /** What one re-partition after another keeps. */
  ghost predicate Cheapened(current: seq<Fill>, incumbent: seq<Fill>, pieces: seq<Piece>, job: Job) {
    && Covers(current, pieces) && CostOf(current, job) < CostOf(incumbent, job)
    && FullBoards(current, job) < FullBoards(incumbent, job) && |current| <= |incumbent|
    && WithinStock(current, Zeros(job), job) && (InTenths(pieces, job) ==> AllSound(current, job))
  }

  /** One full board fewer and one half board more, at most twice. Nothing comes back only
      when the re-partition is not tried; otherwise a plan that holds every piece, costs less
      and needs fewer full boards when the first round finds one, and a copy of the plan
      given when not. */
  method HalfRepartition(incumbent: seq<Fill>, pieces: seq<Piece>, job: Job, refit: Refitter, solvable: bool)
    returns (plan: Option<seq<Fill>>)
    requires HonestRefitter(refit, pieces, job) && NoneNegative(job.specs)
    ensures plan.Some? <==> HalvingAsked(job, pieces, solvable)
    ensures plan.Some? && HalvingHelps(job, incumbent, pieces, refit, solvable) ==>
              Cheapened(plan.value, incumbent, pieces, job)
    ensures plan.Some? && !HalvingHelps(job, incumbent, pieces, refit, solvable) ==> plan.value == incumbent
    ensures plan.Some? ==>
              plan.value == Repartitioned(0, Min(2, |incumbent|), incumbent, pieces, job,
                                   FirstUnlimited(job.specs, false, 0).value, FirstUnlimited(job.specs, true, 0).value,
                                   refit)
  {
    hide CostOf, AllPieces, FillSound, KindsOf, CostOfKinds, FullBoards, Bought, TwoKindsOf, EmptierThan, RoomOf,
         PoolArea, InTenths, NoneNegative, Covers, WithinStock, AllSound;
    if !solvable || |pieces| > MAX_PIECES { return None; }
    var full, half := FirstUnlimited(job.specs, false, 0), FirstUnlimited(job.specs, true, 0);
    if full.None? || half.None? || job.specs[half.value].cost >= job.specs[full.value].cost { return None; }
    var current, rounds := incumbent, Min(2, |incumbent|);
    for round := 0 to rounds
      invariant Repartitioned(0, rounds, incumbent, pieces, job, full.value, half.value, refit)
             == Repartitioned(round, rounds, current, pieces, job, full.value, half.value, refit)
      invariant round == 0 ==> current == incumbent
      invariant round > 0 ==> HalvingHelps(job, incumbent, pieces, refit, solvable)
      invariant round > 0 ==> Cheapened(current, incumbent, pieces, job)
    {
      if !EmptierThan(current, job, HALF_REPARTITION_GATE) { return Some(current); }
      var n := FullBoards(current, job);
      if n == 0 { break; }
      var kinds := TwoKindsOf(full.value, n - 1, half.value, |current| - n + 1);
      if RoomOf(kinds, job) < PoolArea(pieces) || CostOfKinds(kinds, job) >= CostOf(current, job) { break; }
      var fills := refit(round, kinds);
      if fills.None? || |AllPieces(fills.value)| != |pieces| { break; }
      TwoKinds(full.value, n - 1, half.value, |current| - n + 1);
      assert GoodRefit(fills, kinds, pieces, job);
      Refitted(fills.value, kinds, full.value, half.value, pieces, job);
      FewerFull(fills.value, full.value, n - 1, half.value, |current| - n + 1, job);
      current := Bought(fills.value);
    }
    plan := Some(current);
  }

  lemma TwoKinds(full: nat, n: nat, half: nat, m: nat)
    ensures forall k :: k in TwoKindsOf(full, n, half, m) ==> k == full || k == half
  {
  }

  function RoomOf(kinds: seq<nat>, job: Job): int {
    if kinds == [] then 0
    else
      var k := kinds[|kinds|-1];
      RoomOf(kinds[..|kinds|-1], job) + if k < |job.specs| then SheetArea(job.specs[k], job.p) else 0
  }

  lemma Refitted(fills: seq<Fill>, kinds: seq<nat>, full: nat, half: nat, pieces: seq<Piece>, job: Job)
    requires KindsOf(fills) == kinds && NoneNegative(job.specs)
    requires multiset(AllPieces(fills)) <= multiset(pieces) && |AllPieces(fills)| == |pieces|
    requires full < |job.specs| && half < |job.specs| && job.specs[full].count.None? && job.specs[half].count.None?
    requires forall k :: k in kinds ==> k == full || k == half
    ensures Covers(Bought(fills), pieces) && CostOf(Bought(fills), job) <= CostOfKinds(kinds, job)
    ensures WithinStock(Bought(fills), Zeros(job), job) && (AllSound(fills, job) ==> AllSound(Bought(fills), job))
  {
    hide FillSound, CostOf, AllPieces, CostOfKinds, SumBy;
    WholePool(AllPieces(fills), pieces);
    BoughtPieces(fills, job);
    KindsCost(fills, job);
    forall k: nat | k < |job.specs| && job.specs[k].count.Some? ensures Times(fills, k) == 0 {
      forall f | f in fills ensures f.kind != k {
        var i :| 0 <= i < |fills| && fills[i] == f;
        assert KindsOf(fills)[i] in kinds;
      }
      NeverUsed(fills, k);
    }
  }

  lemma {:induction false} NeverUsed(fills: seq<Fill>, k: nat)
    requires forall f :: f in fills ==> f.kind != k
    ensures Times(fills, k) == 0
  {
    if fills != [] {
      assert fills[|fills|-1] in fills;
      NeverUsed(fills[..|fills|-1], k);
    }
  }

  // ---- full-height lanes ----------------------------------------------------------------------

  /** The lane planner's answer: sound sheets of unlimited types, no piece twice. */
  ghost predicate HonestLanes(lanes: Option<seq<Fill>>, pieces: seq<Piece>, job: Job) {
    lanes.Some? ==>
      && AllSound(lanes.value, job) && WithinStock(lanes.value, Zeros(job), job)
      && multiset(AllPieces(lanes.value)) <= multiset(pieces)
  }

  /** A lane plan with every piece that bills strictly less. */
  predicate LanesWin(lanes: Option<seq<Fill>>, incumbent: seq<Fill>, pieces: seq<Piece>, job: Job) {
    lanes.Some? && |AllPieces(lanes.value)| == |pieces| && CostOf(lanes.value, job) < CostOf(incumbent, job)
  }

  /** A lane plan is taken exactly when it is complete and bills strictly less. */
  method AdoptLanes(incumbent: seq<Fill>, pieces: seq<Piece>, job: Job, lanes: Option<seq<Fill>>)
    returns (adopted: bool)
    requires HonestLanes(lanes, pieces, job)
    ensures adopted <==> LanesWin(lanes, incumbent, pieces, job)
    ensures adopted <==>
            lanes.Some? && PlanFor(lanes.value, pieces, job) && CostOf(lanes.value, job) < CostOf(incumbent, job)
  {
    hide FillSound, AllPieces, CostOf, WithinStock;
    if lanes.None? { return false; }
    adopted := |AllPieces(lanes.value)| == |pieces| && CostOf(lanes.value, job) < CostOf(incumbent, job);
    if adopted {
      WholePool(AllPieces(lanes.value), pieces);
    } else if multiset(AllPieces(lanes.value)) == multiset(pieces) {
      NothingElse(AllPieces(lanes.value), pieces);
    }
  }
}
