/**
`lns` of search.py: ruin and recreate. The emptiest sheets of a complete plan, two or three
at a time, are taken apart and searched anew; what beats them replaces them.
*/
module RuinRecreate {
  import opened Arithmetic
  import opened Geometry
  import opened Plans
  import opened Sequences
  import opened Sheets
  import opened Constructors
  import opened Strips
  import opened Bounds
  import opened SearchPlans
  import opened Incumbents
  import opened Searching
  import opened Beam
  import opened BeamReach
  import opened BeamTypes
  import opened Improving

  // ---- which sheets are ruined ------------------------------------------------------------

  function WasteAt(fills: seq<Fill>, job: Job, i: nat): int {
    if i < |fills| then WasteIn(job)(fills[i]) else 0
  }

  /** The emptier sheet first, of equally empty ones the earlier. */
  function Emptier(fills: seq<Fill>, job: Job): (nat, nat) -> bool {
    (i: nat, j: nat) =>
      WasteAt(fills, job, i) > WasteAt(fills, job, j) || (WasteAt(fills, job, i) == WasteAt(fills, job, j) && i <= j)
  }

  function Places(n: nat): (r: seq<nat>)
    ensures |r| == n && forall i :: 0 <= i < n ==> r[i] == i
  {
    seq(n, i requires 0 <= i < n => i)
  }

  function EmptiestFirst(fills: seq<Fill>, job: Job): (order: seq<nat>)
    ensures multiset(order) == multiset(Places(|fills|))
  {
    SortBy(Emptier(fills, job), Places(|fills|))
  }

  /** Every place once. */
  ghost predicate IsOrderOf(order: seq<nat>, n: nat) {
    && |order| == n && (forall i :: 0 <= i < n ==> order[i] < n)
    && forall i, j :: 0 <= i < j < n ==> order[i] != order[j]
  }

  lemma EmptiestFirstIs(fills: seq<Fill>, job: Job)
    ensures IsOrderOf(EmptiestFirst(fills, job), |fills|)
  {
    hide SortBy;
    var order, places := EmptiestFirst(fills, job), Places(|fills|);
    NothingElse(order, places);
    forall i | 0 <= i < |order| ensures order[i] < |fills| { assert order[i] in multiset(places); }
    forall i, j | 0 <= i < j < |order| ensures order[i] != order[j] {
      if order[i] == order[j] {
        CountedTwice(order, i, j);
        PlacesOnce(|fills|, order[i]);
      }
    }
  }

  /** No sheet comes after a fuller one. */
  lemma EmptierAhead(fills: seq<Fill>, job: Job, i: nat, j: nat)
    requires i < j < |fills|
    ensures IsOrderOf(EmptiestFirst(fills, job), |fills|)
    ensures var order := EmptiestFirst(fills, job);
            WasteIn(job)(fills[order[i]]) >= WasteIn(job)(fills[order[j]])
  {
    hide SortBy, WasteIn;
    EmptiestFirstIs(fills, job);
    EmptierIsOrder(fills, job);
    SortBySorts(Emptier(fills, job), Places(|fills|));
    assert Emptier(fills, job)(EmptiestFirst(fills, job)[i], EmptiestFirst(fills, job)[j]);
  }

  lemma EmptierIsOrder(fills: seq<Fill>, job: Job)
    ensures TotalOrder(Emptier(fills, job))
  {
    hide WasteAt;
  }

  lemma CountedTwice(a: seq<nat>, i: nat, j: nat)
    requires i < j < |a| && a[i] == a[j]
    ensures multiset(a)[a[i]] >= 2
  {
    assert a == a[..i] + [a[i]] + a[i+1..j] + [a[j]] + a[j+1..];
  }

  lemma {:induction false} PlacesOnce(n: nat, x: nat)
    ensures multiset(Places(n))[x] == if x < n then 1 else 0
  {
    if n > 0 {
      PlacesOnce(n - 1, x);
      assert Places(n) == Places(n - 1) + [n - 1];
    }
  }

  /** The pairs of one sheet and a later one of the five emptiest. */
  function Pairs(order: seq<nat>, a: nat): (r: seq<seq<nat>>)
    ensures |r| == Max(0, Min(|order|, 5) - a - 1)
    ensures forall i :: 0 <= i < |r| ==> r[i] == [order[a], order[a+1+i]]
  {
    seq(Max(0, Min(|order|, 5) - a - 1),
        i requires 0 <= i < Max(0, Min(|order|, 5) - a - 1) => [order[a], order[a+1+i]])
  }

  function PairsBelow(order: seq<nat>, a: nat): seq<seq<nat>> {
    if a == 0 then [] else PairsBelow(order, a - 1) + Pairs(order, a - 1)
  }

  /** All pairs of the five emptiest sheets, then the three emptiest, then the two emptiest
      with the fullest. */
  function Combos(order: seq<nat>): (r: seq<seq<nat>>)
    requires |order| >= 2
    ensures r != []
  {
    assert PairsBelow(order, 1) == PairsBelow(order, 0) + Pairs(order, 0);
    PairsGrow(order, 1, Min(|order|, 4));
    PairsBelow(order, Min(|order|, 4))
    + if |order| >= 3 then [[order[0], order[1], order[2]], [order[0], order[1], order[|order|-1]]] else []
  }

  lemma {:induction false} PairsGrow(order: seq<nat>, a: nat, b: nat)
    requires a <= b
    ensures PairsBelow(order, a) <= PairsBelow(order, b)
  {
    if a < b { PairsGrow(order, a, b - 1); }
  }

  method ListCombos(order: seq<nat>) returns (combos: seq<seq<nat>>)
    requires |order| >= 2
    ensures combos == Combos(order)
  {
    combos := [];
    for a := 0 to Min(|order|, 4)
      invariant combos == PairsBelow(order, a)
    {
      ghost var before := combos;
      for b := a + 1 to Max(a + 1, Min(|order|, 5))
        invariant combos == before + Pairs(order, a)[..b-a-1]
      {
        combos := combos + [[order[a], order[b]]];
      }
      assert Pairs(order, a)[..|Pairs(order, a)|] == Pairs(order, a);
    }
    if |order| >= 3 {
      combos := combos + [[order[0], order[1], order[2]]];
      combos := combos + [[order[0], order[1], order[|order|-1]]];
    }
  }

  /** Places of a few different sheets. */
  predicate IsCombo(combo: seq<nat>, n: nat) {
    && (forall i :: 0 <= i < |combo| ==> combo[i] < n)
    && forall i, j :: 0 <= i < j < |combo| ==> combo[i] != combo[j]
  }

  lemma {:induction false} PairsAre(order: seq<nat>, n: nat, k: nat, combo: seq<nat>)
    requires IsOrderOf(order, n) && k <= n && combo in PairsBelow(order, k)
    ensures IsCombo(combo, n) && |combo| == 2
  {
    if combo in PairsBelow(order, k - 1) { PairsAre(order, n, k - 1, combo); }
  }

  lemma CombosAre(order: seq<nat>, n: nat, combo: seq<nat>)
    requires IsOrderOf(order, n) && n >= 2 && combo in Combos(order)
    ensures IsCombo(combo, n) && 2 <= |combo| <= 3
  {
    if combo in PairsBelow(order, Min(n, 4)) { PairsAre(order, n, Min(n, 4), combo); }
  }

  /** Any two of the five emptiest sheets are tried together. */
  lemma PairsAreTried(order: seq<nat>, a: nat, b: nat)
    requires a < b < Min(|order|, 5)
    ensures [order[a], order[b]] in Combos(order)
  {
    assert Pairs(order, a)[b-a-1] == [order[a], order[b]];
    assert [order[a], order[b]] in PairsBelow(order, a + 1);
    PairsGrow(order, a + 1, Min(|order|, 4));
  }

  // ---- some sheets apart from the others ------------------------------------------------------

  function Ruined(fills: seq<Fill>, combo: seq<nat>): (r: seq<Fill>)
    requires IsCombo(combo, |fills|)
    ensures |r| == |combo|
  {
    seq(|combo|, i requires 0 <= i < |combo| => fills[combo[i]])
  }

  function PlacesIn(combo: seq<nat>): set<nat> {
    set i | i in combo
  }

  function Kept(fills: seq<Fill>, combo: seq<nat>): seq<Fill> {
    Part(fills, PlacesIn(combo), false)
  }

  lemma {:induction false} PartElsewhere(fills: seq<Fill>, a: set<nat>, b: set<nat>)
    requires forall i: nat :: i < |fills| ==> (i in a <==> i in b)
    ensures Part(fills, a, true) == Part(fills, b, true)
  {
    if fills != [] { PartElsewhere(fills[..|fills|-1], a, b); }
  }

  lemma PartNext(fills: seq<Fill>, places: set<nat>)
    requires fills != []
    ensures var n := |fills| - 1;
            Part(fills, places, true) == Part(fills[..n], places, true) + if n in places then [fills[n]] else []
  {
  }

  lemma {:induction false} PartTakes(fills: seq<Fill>, places: set<nat>, c: nat)
    requires c in places && c < |fills|
    ensures multiset(Part(fills, places, true)) == multiset(Part(fills, places - {c}, true)) + multiset{fills[c]}
  {
    hide Part;
    var n, others := |fills| - 1, places - {c};
    PartNext(fills, places);
    PartNext(fills, others);
    if c == n {
      PartElsewhere(fills[..n], places, others);
    } else {
      PartTakes(fills[..n], places, c);
    }
  }

  lemma {:induction false} RuinedArePart(fills: seq<Fill>, combo: seq<nat>)
    requires IsCombo(combo, |fills|)
    ensures multiset(Part(fills, PlacesIn(combo), true)) == multiset(Ruined(fills, combo))
  {
    hide Part, PlacesIn;
    if combo == [] {
      NothingApart(fills);
      NoPlaces();
    } else {
      var init, c := combo[..|combo|-1], combo[|combo|-1];
      RuinedArePart(fills, init);
      assert combo == init + [c];
      OnePlaceLess(init, c);
      PartTakes(fills, PlacesIn(combo), c);
      assert Ruined(fills, combo) == Ruined(fills, init) + [fills[c]];
    }
  }

  lemma NoPlaces()
    ensures PlacesIn([]) == {}
  {
  }

  lemma OnePlaceLess(combo: seq<nat>, c: nat)
    requires c !in combo
    ensures c in PlacesIn(combo + [c]) && PlacesIn(combo + [c]) - {c} == PlacesIn(combo)
  {
  }

  lemma {:induction false} NothingApart(fills: seq<Fill>)
    ensures Part(fills, {}, true) == []
  {
    if fills != [] { NothingApart(fills[..|fills|-1]); }
  }

  lemma KeptAndRuined(fills: seq<Fill>, combo: seq<nat>)
    requires IsCombo(combo, |fills|)
    ensures multiset(Kept(fills, combo) + Ruined(fills, combo)) == multiset(fills)
  {
    hide Part;
    PartsAreAll(fills, PlacesIn(combo));
    RuinedArePart(fills, combo);
  }

  // ---- what a round leaves ------------------------------------------------------------------------

  /** No complete plan bills less. */
  ghost predicate Undercut(cost: int, pool: seq<Piece>, job: Job) {
    exists rival :: Complete(rival, pool, job.specs, job.p) && Cost(SpecsOf(rival)) < cost
  }

  /** Everything the rounds of one search share. */
  datatype Ruin = Ruin(q: Quest, choose: Chooser, maxSheets: nat)

  /** The pieces of these sheets cannot be searched to fewer or cheaper sheets. */
  ghost predicate Stuck(fills: seq<Fill>, combo: seq<nat>, u: Ruin)
    requires IsCombo(combo, |fills|)
  {
    var kept, ruined := Kept(fills, combo), Ruined(fills, combo);
    AllPieces(ruined) != [] ==>
      NotUndersold(ObjectiveOf(Solution(ruined, []), u.q.job), u.q.(maxBins := Some(|combo|)), u.choose,
                   AllPieces(ruined), UsedBy(kept, u.q.job), Min(u.maxSheets, |combo|))
  }

  /** These sheets are replaced by better ones, which no search of their pieces beats. */
  ghost predicate Recreated(plan: Solution, next: Solution, combo: seq<nat>, sub: seq<Fill>, u: Ruin)
    requires IsCombo(combo, |plan.fills|)
  {
    var kept, ruined := Kept(plan.fills, combo), Ruined(plan.fills, combo);
    var o := ObjectiveOf(Solution(sub, []), u.q.job);
    && next == Solution(kept + sub, plan.unplaced) && Beats(o, ObjectiveOf(Solution(ruined, []), u.q.job))
    && Unbeaten(o, u.q.(maxBins := Some(|combo|)), u.choose, AllPieces(ruined), UsedBy(kept, u.q.job),
                Min(u.maxSheets, |combo|))
  }

  ghost predicate RoundOver(plan: Solution, next: Solution, combo: seq<nat>, u: Ruin)
    requires IsCombo(combo, |plan.fills|)
  {
    (next == plan && Stuck(plan.fills, combo, u)) || exists sub :: Recreated(plan, next, combo, sub, u)
  }

  /** The sheets ruined in a round. */
  function ComboAt(fills: seq<Fill>, job: Job, round: nat): (combo: seq<nat>)
    ensures IsCombo(combo, |fills|)
  {
    if |fills| < 2 then []
    else
      EmptiestFirstIs(fills, job);
      var combos := Combos(EmptiestFirst(fills, job));
      var combo := combos[round % |combos|];
      CombosAre(EmptiestFirst(fills, job), |fills|, combo);
      combo
  }

  /** Plan after plan, each what a round makes of the one before. */
  ghost predicate Rounds(plans: seq<Solution>, u: Ruin) {
    forall i: nat :: i + 1 < |plans| ==> RoundOver(plans[i], plans[i+1], ComboAt(plans[i].fills, u.q.job, i), u)
  }

  /** No combination of sheets that is tried can be searched to fewer or cheaper sheets. */
  ghost predicate Exhausted(fills: seq<Fill>, u: Ruin) {
    forall round: nat :: Stuck(fills, ComboAt(fills, u.q.job, round), u)
  }

  /** There is no point in another round. */
  ghost predicate Settled(fills: seq<Fill>, pool: seq<Piece>, u: Ruin) {
    |fills| < 2 || !Undercut(CostOf(fills, u.q.job), pool, u.q.job) || Exhausted(fills, u)
  }

  /** So many rounds lead from one plan to another, or fewer with no point in more. */
  ghost predicate Refined(plans: seq<Solution>, start: Solution, end: Solution, rounds: nat, pool: seq<Piece>,
                          u: Ruin) {
    && 0 < |plans| <= rounds + 1 && plans[0] == start && plans[|plans|-1] == end && Rounds(plans, u)
    && (|plans| <= rounds ==> Settled(end.fills, pool, u))
  }

  /** A plan that is settled has no pair among its five emptiest sheets whose pieces proposed
      fills hold for less, and the whole plan would bill less. */
  lemma ExhaustedIsLocallyCheapest(fills: seq<Fill>, a: nat, b: nat, sub: seq<Fill>, u: Ruin)
    requires a < b < Min(|fills|, 5) && Exhausted(fills, u)
    requires Steady(u.q.gen) && TypeSteady(u.q.gen) && KeepsOneOfEach(u.choose)
    ensures IsOrderOf(EmptiestFirst(fills, u.q.job), |fills|)
    ensures var order := EmptiestFirst(fills, u.q.job);
            var combo := [order[a], order[b]];
            var kept, freed := Kept(fills, combo), AllPieces([fills[order[a]], fills[order[b]]]);
            freed != [] && Finished(u.q.(maxBins := Some(2)), State(freed, [], UsedBy(kept, u.q.job), 0), sub)
            && |sub| <= Min(u.maxSheets, 2) ==>
              CostOf(kept + sub, u.q.job) > CostOf(fills, u.q.job)
              || (CostOf(kept + sub, u.q.job) == CostOf(fills, u.q.job) && |kept + sub| >= |fills|)
  {
    hide Finished, Steady, TypeSteady, KeepsOneOfEach, CostOf, ClosingTried, Combos, EmptiestFirst, Kept, UsedBy,
         IsCombo, Stuck;
    EmptiestFirstIs(fills, u.q.job);
    var order := EmptiestFirst(fills, u.q.job);
    var combo := [order[a], order[b]];
    PairIsStuck(fills, a, b, u);
    assert Ruined(fills, combo) == [fills[order[a]], fills[order[b]]];
    KeptAndRuined(fills, combo);
    BillsOfParts(fills, Kept(fills, combo), Ruined(fills, combo), sub, u.q.job);
    if AllPieces(Ruined(fills, combo)) != [] && |sub| <= Min(u.maxSheets, 2)
       && Finished(u.q.(maxBins := Some(2)),
                   State(AllPieces(Ruined(fills, combo)), [], UsedBy(Kept(fills, combo), u.q.job), 0), sub) {
      StuckIs(fills, combo, sub, u);
    }
  }

  lemma PairIsStuck(fills: seq<Fill>, a: nat, b: nat, u: Ruin)
    requires a < b < Min(|fills|, 5) && Exhausted(fills, u)
    ensures IsOrderOf(EmptiestFirst(fills, u.q.job), |fills|)
    ensures var combo := [EmptiestFirst(fills, u.q.job)[a], EmptiestFirst(fills, u.q.job)[b]];
            IsCombo(combo, |fills|) && Stuck(fills, combo, u)
  {
    hide Stuck, Combos, EmptiestFirst, ComboAt, IsCombo;
    EmptiestFirstIs(fills, u.q.job);
    var order := EmptiestFirst(fills, u.q.job);
    var round := RoundOf(order, a, b);
    ComboOfRound(fills, u.q.job, round);
    assert Stuck(fills, ComboAt(fills, u.q.job, round), u);
  }

  lemma RoundOf(order: seq<nat>, a: nat, b: nat) returns (round: nat)
    requires a < b < Min(|order|, 5)
    ensures round < |Combos(order)| && Combos(order)[round] == [order[a], order[b]]
  {
    hide Combos;
    PairsAreTried(order, a, b);
    round :| round < |Combos(order)| && Combos(order)[round] == [order[a], order[b]];
  }

  lemma ComboOfRound(fills: seq<Fill>, job: Job, round: nat)
    requires |fills| >= 2
    ensures IsOrderOf(EmptiestFirst(fills, job), |fills|)
    ensures var combos := Combos(EmptiestFirst(fills, job));
            round < |combos| ==> ComboAt(fills, job, round) == combos[round]
  {
    hide Combos, EmptiestFirst, IsCombo;
    EmptiestFirstIs(fills, job);
  }

  lemma StuckIs(fills: seq<Fill>, combo: seq<nat>, sub: seq<Fill>, u: Ruin)
    requires IsCombo(combo, |fills|) && Stuck(fills, combo, u) && AllPieces(Ruined(fills, combo)) != []
    requires Steady(u.q.gen) && TypeSteady(u.q.gen) && KeepsOneOfEach(u.choose) && |sub| <= Min(u.maxSheets, |combo|)
    requires Finished(u.q.(maxBins := Some(|combo|)),
                      State(AllPieces(Ruined(fills, combo)), [], UsedBy(Kept(fills, combo), u.q.job), 0), sub)
    ensures CostOf(sub, u.q.job) > CostOf(Ruined(fills, combo), u.q.job)
            || (CostOf(sub, u.q.job) == CostOf(Ruined(fills, combo), u.q.job) && |sub| >= |combo|)
  {
    hide Finished, Steady, TypeSteady, KeepsOneOfEach, CostOf, ClosingTried, Kept, UsedBy, AllPieces;
  }

  lemma BillsOfParts(fills: seq<Fill>, kept: seq<Fill>, ruined: seq<Fill>, sub: seq<Fill>, job: Job)
    requires multiset(kept + ruined) == multiset(fills)
    ensures CostOf(fills, job) == CostOf(kept, job) + CostOf(ruined, job) && |fills| == |kept| + |ruined|
    ensures CostOf(kept + sub, job) == CostOf(kept, job) + CostOf(sub, job)
  {
    NothingElse(kept + ruined, fills);
    SumByPermuted(CostIn(job), kept + ruined, fills);
    SumByConcat(CostIn(job), kept, ruined);
    SumByConcat(CostIn(job), kept, sub);
  }

  // ---- one round ----------------------------------------------------------------------------------

  /** What a failed round is remembered by: the types of the pieces, what the other sheets use
      of the stock, and the bill and number of the sheets ruined. */
  type RuinKey = (multiset<PieceType>, seq<nat>, int, nat)

  /** Failed rounds, and how many rounds in a row the solver was consulted for nothing. */
  datatype Memory = Memory(failed: set<RuinKey>, misses: nat)

  ghost predicate FailedOn(pieces: seq<Piece>, key: RuinKey, u: Ruin) {
    && pieces != [] && Distinct(pieces) && AllValid(pieces) && Signature(pieces) == key.0
    && |key.1| == |u.q.job.specs| && WithinStock([], key.1, u.q.job)
    && NotUndersold(Objective(key.2, key.3, 0, 0, 0), u.q.(maxBins := Some(key.3)), u.choose, pieces, key.1,
                    Min(u.maxSheets, key.3))
  }

  /** A search of some pool of these types failed. */
  ghost predicate Failed(key: RuinKey, u: Ruin) {
    exists pieces :: FailedOn(pieces, key, u)
  }

  ghost predicate AllFailed(keys: set<RuinKey>, u: Ruin) {
    forall key :: key in keys ==> Failed(key, u)
  }

  function KeyOf(kept: seq<Fill>, ruined: seq<Fill>, job: Job): RuinKey {
    (Signature(AllPieces(ruined)), UsedBy(kept, job), CostOf(ruined, job), |ruined|)
  }

  /** A failure is one for all pieces of these types. */
  lemma FailedIsStuck(fills: seq<Fill>, combo: seq<nat>, pool: seq<Piece>, u: Ruin)
    requires IsCombo(combo, |fills|) && PlanFor(fills, pool, u.q.job) && Distinct(pool) && AllValid(pool)
    requires HonestGenerator(u.q.gen, u.q.job) && HonestProber(u.q.probe, u.q.job, true)
    requires Failed(KeyOf(Kept(fills, combo), Ruined(fills, combo), u.q.job), u)
    ensures Stuck(fills, combo, u)
  {
    hide Kept, NotUndersold, HonestGenerator, HonestProber, Distinct, AllValid, WithinStock, Signature, PlanFor,
         AllPieces, CostOf;
    var kept, ruined := Kept(fills, combo), Ruined(fills, combo);
    KeptAndRuined(fills, combo);
    RuinedPool(fills, kept, ruined, pool, u.q.job);
    var key := KeyOf(kept, ruined, u.q.job);
    var pieces :| FailedOn(pieces, key, u);
    if AllPieces(ruined) != [] {
      NorOfTheseTypes(Objective(key.2, key.3, 0, 0, 0), ObjectiveOf(Solution(ruined, []), u.q.job),
                      u.q.(maxBins := Some(|combo|)), u.choose, pieces, AllPieces(ruined), key.1,
                      Min(u.maxSheets, |combo|));
    }
  }

  /** A search that found nothing. */
  lemma NothingFound(fills: seq<Fill>, combo: seq<nat>, pool: seq<Piece>, u: Ruin)
    requires IsCombo(combo, |fills|) && PlanFor(fills, pool, u.q.job) && Distinct(pool) && AllValid(pool)
    requires AllPieces(Ruined(fills, combo)) != []
    requires Unbeaten(ObjectiveOf(Solution(Ruined(fills, combo), []), u.q.job), u.q.(maxBins := Some(|combo|)),
                      u.choose, AllPieces(Ruined(fills, combo)), UsedBy(Kept(fills, combo), u.q.job),
                      Min(u.maxSheets, |combo|))
    ensures Stuck(fills, combo, u) && Failed(KeyOf(Kept(fills, combo), Ruined(fills, combo), u.q.job), u)
  {
    hide Kept, NotUndersold, Unbeaten, Distinct, AllValid, WithinStock, Signature, PlanFor, AllPieces, CostOf;
    var kept, ruined := Kept(fills, combo), Ruined(fills, combo);
    KeptAndRuined(fills, combo);
    RuinedPool(fills, kept, ruined, pool, u.q.job);
    var o, key := ObjectiveOf(Solution(ruined, []), u.q.job), KeyOf(kept, ruined, u.q.job);
    var q, cap := u.q.(maxBins := Some(|combo|)), Min(u.maxSheets, |combo|);
    UnbeatenIsNotUndersold(o, o, q, u.choose, AllPieces(ruined), key.1, cap);
    UnbeatenIsNotUndersold(o, Objective(key.2, key.3, 0, 0, 0), q, u.choose, AllPieces(ruined), key.1, cap);
    assert FailedOn(AllPieces(ruined), key, u);
  }

  /** One round: a few sheets ruined, and kept as they were unless the search of their pieces
      beats them. */
  method Round(x: Searcher, best: Solution, pool: seq<Piece>, combo: seq<nat>, maxSheets: nat, rootExact: bool,
               patience: nat, choose: Chooser, mem: Memory)
    returns (next: Solution, improved: bool, mem': Memory)
    requires x.Valid() && HonestChooser(choose) && Distinct(pool) && AllValid(pool)
    requires PlanFor(best.fills, pool, x.job) && IsCombo(combo, |best.fills|)
    requires AllFailed(mem.failed, Ruin(x.QuestFor(None), choose, maxSheets))
    modifies x
    ensures x.Valid() && AllFailed(mem'.failed, Ruin(x.QuestFor(None), choose, maxSheets))
    ensures PlanFor(next.fills, pool, x.job) && next.unplaced == best.unplaced
    ensures if improved then Beats(ObjectiveOf(next, x.job), ObjectiveOf(best, x.job)) else next == best
    ensures RoundOver(best, next, combo, Ruin(x.QuestFor(None), choose, maxSheets))
    ensures !improved ==> Stuck(best.fills, combo, Ruin(x.QuestFor(None), choose, maxSheets))
  {
    hide PlanFor, Distinct, AllValid, ObjectiveOf, HonestChooser, AllPieces, WithinStock, Partition, Beats, Kept,
         UsedBy, Unbeaten, NotUndersold, Signature, CostOf, Stuck, Failed, Went, LayersOk, ClosingTried, NoneCanWin,
         HonestGenerator, HonestProber, Remembers, x.WasAsked;
    next, improved, mem' := best, false, mem;
    ghost var u := Ruin(x.QuestFor(None), choose, maxSheets);
    var kept, ruined := Kept(best.fills, combo), Ruined(best.fills, combo);
    var freed := AllPieces(ruined);
    if freed == [] {
      assert Stuck(best.fills, combo, u) by { NothingFreed(best.fills, combo, u); }
      return;
    }
    KeptAndRuined(best.fills, combo);
    RuinedPool(best.fills, kept, ruined, pool, x.job);
    var key := KeyOf(kept, ruined, x.job);
    if key in mem.failed {
      FailedIsStuck(best.fills, combo, pool, u);
      return;
    }
    var upper := ObjectiveOf(Solution(ruined, []), x.job);
    var usedRoot := rootExact && mem.misses < patience;
    var sub, drop, layers, last := Search(x, freed, UsedBy(kept, x.job), maxSheets, Some(|combo|), Some(upper),
                                          usedRoot, choose);
    ghost var o := if sub.Some? then ObjectiveOf(sub.value, x.job) else upper;
    SearchUnbeaten(layers, last, x.QuestFor(Some(|combo|)), choose, usedRoot, o, drop, Min(maxSheets, |combo|), freed,
                   UsedBy(kept, x.job));
    if sub.Some? {
      next := Solution(kept + sub.value.fills, best.unplaced);
      Reassembled(best.fills, kept, ruined, sub.value.fills, pool, x.job);
      PartImproves(best.fills, kept, ruined, sub.value.fills, best.unplaced, x.job);
      assert best == Solution(best.fills, best.unplaced) && sub.value == Solution(sub.value.fills, []);
      assert Recreated(best, next, combo, sub.value.fills, u);
      improved := Beats(ObjectiveOf(next, x.job), ObjectiveOf(best, x.job));
      assert improved;
    } else {
      NothingFound(best.fills, combo, pool, u);
      mem' := mem'.(failed := mem.failed + {key});
    }
    if usedRoot { mem' := mem'.(misses := if improved then 0 else mem.misses + 1); }
  }

  lemma NothingFreed(fills: seq<Fill>, combo: seq<nat>, u: Ruin)
    requires IsCombo(combo, |fills|) && AllPieces(Ruined(fills, combo)) == []
    ensures Stuck(fills, combo, u)
  {
  }

  // ---- all rounds -----------------------------------------------------------------------------------

  /** A number of each remainder among so many in a row. */
  lemma SomeRound(from: nat, m: nat, r: nat) returns (k: nat)
    requires r < m
    ensures from <= k < from + m && k % m == r
  {
    var q, rest := from / m, from % m;
    assert from == q * m + rest;
    if r >= rest {
      k := q * m + r;
      Remainder(q, m, r);
    } else {
      k := q * m + m + r;
      assert q * m + m == (q + 1) * m;
      Remainder(q + 1, m, r);
    }
  }

  lemma Remainder(n: nat, m: nat, r: nat)
    requires r < m
    ensures (n * m + r) % m == r
  {
    var k := n * m + r;
    var q := k / m;
    assert k == q * m + k % m;
    assert (n - q) * m == k % m - r && (q - n) * m == r - k % m;
    NotPositive(n - q, m);
    NotPositive(q - n, m);
  }

  /** When as many rounds in a row failed as there are combinations, all of them are stuck. */
  lemma CycleIsExhausted(fills: seq<Fill>, from: nat, u: Ruin)
    requires |fills| >= 2
    requires forall k: nat :: from <= k < from + |Combos(OrderOf(fills, u.q.job))| ==>
               Stuck(fills, ComboAt(fills, u.q.job, k), u)
    ensures Exhausted(fills, u)
  {
    hide Stuck, Combos, EmptiestFirst;
    var m := |Combos(OrderOf(fills, u.q.job))|;
    forall round: nat ensures Stuck(fills, ComboAt(fills, u.q.job, round), u) {
      var k := SomeRound(from, m, round % m);
      assert ComboAt(fills, u.q.job, round) == ComboAt(fills, u.q.job, k);
    }
  }

  function OrderOf(fills: seq<Fill>, job: Job): (order: seq<nat>)
    ensures |order| == |fills|
  {
    EmptiestFirstIs(fills, job);
    EmptiestFirst(fills, job)
  }

  lemma OneMoreRound(plans: seq<Solution>, next: Solution, u: Ruin)
    requires plans != [] && Rounds(plans, u)
    requires RoundOver(plans[|plans|-1], next, ComboAt(plans[|plans|-1].fills, u.q.job, |plans| - 1), u)
    ensures Rounds(plans + [next], u)
  {
    hide RoundOver, ComboAt;
  }

  /** Ruins a few sheets at a time and keeps what beats them. The plan stays complete and
      within stock, its objective never gets worse, and the rounds go on until they are used
      up or there is no point in more. */
  method Lns(x: Searcher, start: Solution, pool: seq<Piece>, bound: real, rounds: nat, maxSheets: nat, rootExact: bool,
             patience: nat, choose: Chooser, mem: Memory)
    returns (best: Solution, mem': Memory, ghost plans: seq<Solution>)
    requires x.Valid() && HonestChooser(choose) && Distinct(pool) && AllValid(pool)
    requires PlanFor(start.fills, pool, x.job) && LowerBound(bound, PoolArea(pool), x.job.specs, x.job.p)
    requires AllFailed(mem.failed, Ruin(x.QuestFor(None), choose, maxSheets))
    modifies x
    ensures x.Valid() && AllFailed(mem'.failed, Ruin(x.QuestFor(None), choose, maxSheets))
    ensures PlanFor(best.fills, pool, x.job) && best.unplaced == start.unplaced
    ensures NotWorse(ObjectiveOf(best, x.job), ObjectiveOf(start, x.job))
    ensures Refined(plans, start, best, rounds, pool, Ruin(x.QuestFor(None), choose, maxSheets))
  {
    hide PlanFor, Distinct, AllValid, LowerBound, PoolArea, ObjectiveOf, Complete, HonestChooser, Beats, RoundOver,
         Stuck, AllFailed, Combos, EmptiestFirst, CostOf, Cost, IsCombo, HonestGenerator, HonestProber, Remembers,
             x.WasAsked;
    ghost var u := Ruin(x.QuestFor(None), choose, maxSheets);
    best, mem', plans := start, mem, [start];
    var stale := 0;
    for round := 0 to rounds
      invariant x.Valid() && AllFailed(mem'.failed, u)
      invariant PlanFor(best.fills, pool, x.job) && best.unplaced == start.unplaced
      invariant NotWorse(ObjectiveOf(best, x.job), ObjectiveOf(start, x.job))
      invariant |plans| == round + 1 && plans[0] == start && plans[round] == best && Rounds(plans, u)
      invariant stale <= round
      invariant forall k: nat :: round - stale <= k < round ==> Stuck(best.fills, ComboAt(best.fills, x.job, k), u)
    {
      var optimal := ProvenOptimal(CostOf(best.fills, x.job), |best.fills|, bound, pool, x.job.specs, x.job.p);
      if optimal || |best.fills| < 2 { break; }
      var combos := ListCombos(OrderOf(best.fills, x.job));
      if stale >= |combos| {
        CycleIsExhausted(best.fills, round - stale, u);
        break;
      }
      var combo := combos[round % |combos|];
      assert combo == ComboAt(best.fills, x.job, round);
      var next, improved;
      next, improved, mem' := Round(x, best, pool, combo, maxSheets, rootExact, patience, choose, mem');
      OneMoreRound(plans, next, u);
      if improved { BeatsTransitive(ObjectiveOf(next, x.job), ObjectiveOf(best, x.job), ObjectiveOf(start, x.job)); }
      stale := if improved then 0 else stale + 1;
      best, plans := next, plans + [next];
    }
  }
}
