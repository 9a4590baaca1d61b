/**
The deduplication of the beam of search.py: of the states that leave the same piece types
and have opened the same bins one is kept, and that loses no cheaper and no smaller plan.
*/
module BeamTypes {
  import opened Geometry
  import opened Plans
  import opened Sequences
  import opened Sheets
  import opened Strips
  import opened Constructors
  import opened Bounds
  import opened SearchPlans
  import opened Incumbents
  import opened Searching
  import opened Beam
  import opened BeamReach
  import Improving
  import Repairs

  /** What states are told apart by. */
  predicate SameKey(s: State, r: State) {
    Signature(s.pool) == Signature(r.pool) && s.used == r.used
  }

  /** A beam that keeps, of the states alike, one. */
  ghost predicate KeepsOneOfEach(choose: Chooser) {
    forall ask: nat, states: seq<State>, s: State :: s in states ==> HasAlike(choose(ask, states), s)
  }

  predicate HasAlike(kept: seq<State>, s: State) {
    exists r :: r in kept && SameKey(s, r)
  }

  /** A generator that proposes fills of the same types for pools of the same types. */
  ghost predicate TypeSteady(gen: Generator) {
    forall pool: seq<Piece>, other: seq<Piece>, k: nat, f: Fill ::
      Signature(pool) == Signature(other) && f in gen(0, pool, k) ==> HasLike(gen(0, other, k), f)
  }

  predicate HasLike(fills: seq<Fill>, f: Fill) {
    exists g :: g in fills && Signature(PlacedIn(g)) == Signature(PlacedIn(f))
  }

  // ---- what the key determines ----------------------------------------------------------------

  /** Two lists of sheets with as many of each bin type bill the same. */
  lemma {:induction false} SameTallySameBill(a: seq<Fill>, b: seq<Fill>, job: Job)
    requires forall k: nat :: Times(a, k) == Times(b, k)
    ensures CostOf(a, job) == CostOf(b, job) && |a| == |b|
    decreases |a|
  {
    hide CostIn, CostOf, Times;
    NothingBilled(job);
    if a == [] {
      if b != [] { UsedOnce(b); }
    } else {
      var n := |a| - 1;
      UsedOnce(a);
      var i := OneOf(b, a[n].kind);
      var init, fewer := a[..n] + a[n+1..], b[..i] + b[i+1..];
      OneLess(a, n, job);
      OneLess(b, i, job);
      SameKindSameCost(a[n], b[i], job);
      SameTallySameBill(init, fewer, job);
    }
  }

  lemma NothingBilled(job: Job)
    ensures CostOf([], job) == 0 && forall k: nat :: Times([], k) == 0
  {
  }

  lemma OneLess(b: seq<Fill>, i: nat, job: Job)
    requires i < |b|
    ensures var fewer := b[..i] + b[i+1..];
            && CostOf(b, job) == CostOf(fewer, job) + CostIn(job)(b[i]) && |fewer| == |b| - 1
            && forall k: nat :: Times(b, k) == Times(fewer, k) + if b[i].kind == k then 1 else 0
  {
    var fewer, g := b[..i] + b[i+1..], b[i];
    assert b == b[..i] + ([g] + b[i+1..]);
    assert multiset(fewer + [g]) == multiset(b);
    SumByPermuted(CostIn(job), fewer + [g], b);
    OneMoreFill(fewer, g, [], job);
    forall k: nat ensures Times(b, k) == Times(fewer + [g], k) { TimesPermuted(fewer + [g], b, k); }
  }

  lemma SameKindSameCost(f: Fill, g: Fill, job: Job)
    requires f.kind == g.kind
    ensures CostIn(job)(f) == CostIn(job)(g)
  {
  }

  lemma TimesPermuted(a: seq<Fill>, b: seq<Fill>, k: nat)
    requires multiset(a) == multiset(b)
    ensures Times(a, k) == Times(b, k)
  {
    SumByPermuted(OfBin(k), a, b);
  }

  lemma UsedOnce(fills: seq<Fill>)
    requires fills != []
    ensures Times(fills, fills[|fills|-1].kind) > 0
  {
    Improving.TimesNonNegative(fills[..|fills|-1], fills[|fills|-1].kind);
  }

  lemma {:induction false} OneOf(fills: seq<Fill>, k: nat) returns (i: nat)
    requires Times(fills, k) > 0
    ensures i < |fills| && fills[i].kind == k
  {
    var n := |fills| - 1;
    if fills[n].kind == k { i := n; } else { i := OneOf(fills[..n], k); }
  }

  lemma {:induction false} SameKindsSameBill(a: seq<Fill>, b: seq<Fill>, job: Job)
    requires SameKinds(a, b)
    ensures CostOf(a, job) == CostOf(b, job)
  {
    if a != [] { SameKindsSameBill(a[..|a|-1], b[..|b|-1], job); }
  }

  predicate SameKinds(a: seq<Fill>, b: seq<Fill>) {
    |a| == |b| && forall i :: 0 <= i < |a| ==> a[i].kind == b[i].kind
  }

  /** States alike have the same bill and the same number of sheets. */
  lemma AlikeBillsAlike(s: State, r: State, pieces: seq<Piece>, others: seq<Piece>, base: seq<nat>, job: Job)
    requires StateOk(s, pieces, base, job) && StateOk(r, others, base, job) && SameKey(s, r)
    ensures CostOf(s.fills, job) == CostOf(r.fills, job) && |s.fills| == |r.fills|
  {
    hide AllPieces, CostOf, PoolArea, Signature, AllSound, Distinct, AllValid, Times;
    forall k: nat ensures Times(s.fills, k) == Times(r.fills, k) {
      if k >= |base| {
        NeverThere(s.fills, k, base, job);
        NeverThere(r.fills, k, base, job);
      }
    }
    SameTallySameBill(s.fills, r.fills, job);
  }

  lemma NeverThere(fills: seq<Fill>, k: nat, base: seq<nat>, job: Job)
    requires AllSound(fills, job) && WithinStock(fills, base, job) && k >= |base|
    ensures Times(fills, k) == 0
  {
    hide Times;
    forall f | f in fills ensures f.kind != k {
      assert FillSound(f, job);
    }
    Repairs.NeverUsed(fills, k);
  }

  // ---- the same steps from a state alike ----------------------------------------------------------

  lemma RestSignature(pool: seq<Piece>, f: Fill, rest: seq<Piece>, job: Job)
    requires Distinct(pool) && AllValid(pool) && FillOk(f, pool, job) && rest == DropPlaced(pool, f.sheet.placed)
    ensures Signature(rest) + Signature(PlacedIn(f)) == Signature(pool)
  {
    hide FillOk, PlacedIn, DropPlaced, Signature, Distinct, AllValid;
    RestOfPool(pool, f, rest, job);
    SignaturePermuted(rest + PlacedIn(f), pool);
    SignatureConcat(rest, PlacedIn(f));
  }

  lemma Cancels<T>(a: multiset<T>, b: multiset<T>, x: multiset<T>)
    requires a + x == b + x
    ensures a == b
  {
    forall t ensures a[t] == b[t] { assert (a + x)[t] == (b + x)[t]; }
  }

  /** A fill proposed for one state has a like one proposed for a state alike, and they lead
      to states alike. */
  lemma MirrorStep(s: State, r: State, f: Fill, gen: Generator, pieces: seq<Piece>, others: seq<Piece>,
                   base: seq<nat>, job: Job) returns (g: Fill)
    requires StateOk(s, pieces, base, job) && StateOk(r, others, base, job) && SameKey(s, r)
    requires HonestGenerator(gen, job) && TypeSteady(gen) && f in gen(0, s.pool, f.kind)
    requires Openable(f.kind, s.used, PoolArea(s.pool), job)
    ensures g in gen(0, r.pool, f.kind) && g.kind == f.kind && g.kind < |job.specs| && g.kind < |r.used|
    ensures Openable(g.kind, r.used, PoolArea(r.pool), job)
    ensures var t, u := AfterFill(s, f, job), AfterFill(r, g, job);
            && SameKey(t, u) && (t.pool == [] <==> u.pool == [])
            && (t.pool != [] ==> StateOk(t, pieces, base, job) && StateOk(u, others, base, job))
  {
    hide PoolArea, Signature, Sawable, PlacedIn, DropPlaced, AllSound, AllPieces, Tallied, WithinStock, CostOf,
         SheetArea, TypeSteady;
    SameTypes(s.pool, r.pool);
    assert GoodFills(gen(0, s.pool, f.kind), s.pool, f.kind, job);
    g := Like(gen, s.pool, r.pool, f.kind, f);
    assert GoodFills(gen(0, r.pool, f.kind), r.pool, f.kind, job);
    StateAfter(s, f, DropPlaced(s.pool, f.sheet.placed), pieces, base, job);
    StateAfter(r, g, DropPlaced(r.pool, g.sheet.placed), others, base, job);
    RestSignature(s.pool, f, DropPlaced(s.pool, f.sheet.placed), job);
    RestSignature(r.pool, g, DropPlaced(r.pool, g.sheet.placed), job);
    Cancels(Signature(DropPlaced(s.pool, f.sheet.placed)), Signature(DropPlaced(r.pool, g.sheet.placed)),
            Signature(PlacedIn(f)));
    SameTypes(DropPlaced(s.pool, f.sheet.placed), DropPlaced(r.pool, g.sheet.placed));
  }

  lemma Like(gen: Generator, pool: seq<Piece>, other: seq<Piece>, k: nat, f: Fill) returns (g: Fill)
    requires TypeSteady(gen) && Signature(pool) == Signature(other) && f in gen(0, pool, k)
    ensures g in gen(0, other, k) && Signature(PlacedIn(g)) == Signature(PlacedIn(f))
  {
    hide Signature, PlacedIn;
    assert HasLike(gen(0, other, k), f);
    g :| g in gen(0, other, k) && Signature(PlacedIn(g)) == Signature(PlacedIn(f));
  }

  // ---- plans that the search may finish by closing them --------------------------------------------

  /** A fill is proposed for a state, of a bin type open to it. */
  ghost predicate Goes(q: Quest, s: State, f: Fill) {
    Openable(f.kind, s.used, PoolArea(s.pool), q.job) && f in q.gen(0, s.pool, f.kind)
  }

  /** One bin takes all that is left, and the prober always finds one of its type that does. */
  ghost predicate Ends(q: Quest, s: State, f: Fill) {
    f.kind < |q.job.specs| && MayClose(q, s, f.kind) && Closes(f, s.pool, s.used, q.job)
  }

  /** Fills proposed one after the other that use up the pool, the last of them perhaps found
      by the prober. */
  ghost predicate Finished(q: Quest, s: State, fills: seq<Fill>)
    decreases |fills|
  {
    if s.pool == [] then fills == []
    else
      fills != [] && if Ends(q, s, fills[0]) && |fills| == 1 then true
                     else Goes(q, s, fills[0]) && GoesOn(q, s, fills[0]) && Finished(q, AfterFill(s, fills[0], q.job),
                                                                                    fills[1..])
  }

  predicate GoesOn(q: Quest, s: State, f: Fill) {
    f.kind < |q.job.specs| && f.kind < |s.used|
  }

  lemma FinishedNext(q: Quest, s: State, fills: seq<Fill>)
    requires s.pool != [] && Finished(q, s, fills)
    ensures fills != []
    ensures !(Ends(q, s, fills[0]) && |fills| == 1) ==>
              Goes(q, s, fills[0]) && GoesOn(q, s, fills[0])
              && Finished(q, AfterFill(s, fills[0], q.job), fills[1..])
  {
    hide Goes, Ends, AfterFill;
  }

  lemma FinishedDone(q: Quest, s: State, fills: seq<Fill>)
    requires s.pool == []
    ensures Finished(q, s, fills) <==> fills == []
  {
  }

  lemma FinishedFrom(q: Quest, r: State, g: Fill, rest: seq<Fill>)
    requires r.pool != []
    requires (Ends(q, r, g) && rest == [])
             || (Goes(q, r, g) && GoesOn(q, r, g) && Finished(q, AfterFill(r, g, q.job), rest))
    ensures Finished(q, r, [g] + rest)
  {
    hide Goes, Ends, AfterFill;
    assert ([g] + rest)[1..] == rest;
  }

  /** What is only composed is finished too. */
  lemma {:induction false} ComposedIsFinished(q: Quest, s: State, fills: seq<Fill>)
    requires Composed(s, fills, q.gen, q.job)
    ensures Finished(q, s, fills)
    decreases |fills|
  {
    hide Composed, Finished, Ends, AfterFill, Openable, PoolArea;
    if s.pool == [] {
      ComposedDone(s, fills, q.gen, q.job);
      FinishedDone(q, s, fills);
    } else {
      ComposedNext(s, fills, q.gen, q.job);
      ComposedIsFinished(q, AfterFill(s, fills[0], q.job), fills[1..]);
      FinishedFrom(q, s, fills[0], fills[1..]);
      assert [fills[0]] + fills[1..] == fills;
    }
  }

  lemma StepFrom(q: Quest, s: State, f: Fill, pieces: seq<Piece>, base: seq<nat>)
    requires StateOk(s, pieces, base, q.job) && HonestGenerator(q.gen, q.job) && Goes(q, s, f)
    ensures GoesOn(q, s, f) && FillOk(f, s.pool, q.job)
    ensures var t := AfterFill(s, f, q.job);
            && (t.pool != [] ==> StateOk(t, pieces, base, q.job)) && t.fills == s.fills + [f]
            && multiset(t.pool) + multiset(PlacedIn(f)) == multiset(s.pool)
  {
    hide FillOk, PoolArea, SheetArea, AfterFill, Follows;
    assert GoodFills(q.gen(0, s.pool, f.kind), s.pool, f.kind, q.job);
    StateAfter(s, f, Rest(s, f), pieces, base, q.job);
    RestOfPool(s.pool, f, Rest(s, f), q.job);
    AfterFillIs(s, f, q.job);
  }

  /** Finished fills are a plan for the pool. */
  lemma {:induction false} FinishedPartition(q: Quest, s: State, fills: seq<Fill>, pieces: seq<Piece>, base: seq<nat>)
    requires StateOk(s, pieces, base, q.job) && HonestGenerator(q.gen, q.job) && Finished(q, s, fills)
    ensures Partition(fills, s.pool, q.job)
    decreases |fills|
  {
    hide StateOk, HonestGenerator, Finished, FillSound, PlacedIn, AfterFill, Goes, MayClose;
    StateNotDone(s, pieces, base, q.job);
    FinishedNext(q, s, fills);
    NoFillsNoPieces();
    AllPiecesLast([], fills[0]);
    assert [] + [fills[0]] == [fills[0]];
    if Ends(q, s, fills[0]) && |fills| == 1 {
      assert fills == [fills[0]];
    } else {
      StepFrom(q, s, fills[0], pieces, base);
      var t, rest := AfterFill(s, fills[0], q.job), fills[1..];
      if t.pool == [] {
        FinishedDone(q, t, rest);
      } else {
        FinishedPartition(q, t, rest, pieces, base);
      }
      assert fills == [fills[0]] + rest;
      AllPiecesConcat([fills[0]], rest);
    }
  }

  lemma AlikeMayClose(q: Quest, s: State, r: State, k: nat)
    requires SameKey(s, r) && |s.fills| == |r.fills| && MayClose(q, s, k)
    ensures MayClose(q, r, k)
  {
    hide Signature, PoolArea, SheetArea, AlwaysTakes, InStock;
    SameTypes(s.pool, r.pool);
  }

  /** What closes one state has its like for a state alike: the prober's answer. */
  lemma MirrorEnd(q: Quest, s: State, r: State, f: Fill, pieces: seq<Piece>, others: seq<Piece>, base: seq<nat>)
    returns (g: Fill)
    requires StateOk(s, pieces, base, q.job) && StateOk(r, others, base, q.job) && SameKey(s, r)
    requires HonestProber(q.probe, q.job, true) && Ends(q, s, f)
    ensures Ends(q, r, g) && g.kind == f.kind
  {
    hide Signature, PoolArea, SheetArea, FillSound, PlacedIn, CostOf, AllSound, AllPieces, Times, Closes;
    AlikeBillsAlike(s, r, pieces, others, base, q.job);
    AlikeMayClose(q, s, r, f.kind);
    g := q.probe(0, r.pool, f.kind).value;
    assert GoodFill(q.probe(0, r.pool, f.kind), r.pool, f.kind, q.job, true);
    ProbeCloses(q, r, g);
  }

  lemma ProbeCloses(q: Quest, r: State, g: Fill)
    requires FillOk(g, r.pool, q.job) && |g.sheet.placed| == |r.pool| && InStock(g.kind, r.used, q.job)
    ensures Closes(g, r.pool, r.used, q.job)
  {
    hide FillSound;
    WholePool(PlacedIn(g), r.pool);
  }

  /** Whatever can be finished from one state can be finished, sheet for sheet of the same bin
      types, from a state alike. */
  lemma {:induction false} Mirror(q: Quest, s: State, r: State, fills: seq<Fill>, pieces: seq<Piece>,
                                  others: seq<Piece>, base: seq<nat>) returns (like: seq<Fill>)
    requires StateOk(s, pieces, base, q.job) && StateOk(r, others, base, q.job) && SameKey(s, r)
    requires HonestGenerator(q.gen, q.job) && HonestProber(q.probe, q.job, true) && TypeSteady(q.gen)
    requires Finished(q, s, fills)
    ensures Finished(q, r, like) && SameKinds(fills, like)
    decreases |fills|
  {
    hide StateOk, SameKey, HonestGenerator, HonestProber, TypeSteady, Finished, Openable, AfterFill, PoolArea, Ends;
    StateNotDone(s, pieces, base, q.job);
    StateNotDone(r, others, base, q.job);
    FinishedNext(q, s, fills);
    var f, rest := fills[0], fills[1..];
    if Ends(q, s, f) && |fills| == 1 {
      var g := MirrorEnd(q, s, r, f, pieces, others, base);
      FinishedFrom(q, r, g, []);
      assert [g] + [] == [g];
      like := [g];
    } else {
      var g := MirrorStep(s, r, f, q.gen, pieces, others, base, q.job);
      var t, u := AfterFill(s, f, q.job), AfterFill(r, g, q.job);
      var more: seq<Fill> := [];
      if t.pool == [] {
        FinishedDone(q, t, rest);
        FinishedDone(q, u, []);
      } else {
        more := Mirror(q, t, u, rest, pieces, others, base);
      }
      FinishedFrom(q, r, g, more);
      like := [g] + more;
    }
  }

  // ---- nothing is lost -----------------------------------------------------------------------------

  lemma OneIsKept(layers: seq<Layer>, last: seq<State>, start: State, q: Quest, choose: Chooser, rootExact: bool,
                  bar: Option<Objective>, drop: seq<Dropped>, d: nat, t: State)
    returns (r: State)
    requires Went(layers, last, start, q, choose, rootExact, bar, drop) && KeepsOneOfEach(choose)
    requires d < |layers| && t in layers[d].reached
    ensures r in FrontierAt(layers, last, d + 1) && SameKey(t, r)
  {
    hide AllExplored, SameKey;
    assert Chosen(choose, layers[d].reached, FrontierAt(layers, last, d + 1));
    var ask :| FrontierAt(layers, last, d + 1) == choose(ask, layers[d].reached);
    assert HasAlike(choose(ask, layers[d].reached), t);
    r :| r in choose(ask, layers[d].reached) && SameKey(t, r);
  }

  lemma BillsTogether(a: seq<Fill>, b: seq<Fill>, c: seq<Fill>, d: seq<Fill>, job: Job)
    requires CostOf(a, job) == CostOf(c, job) && |a| == |c| && SameKinds(b, d)
    ensures CostOf(a + b, job) == CostOf(c + d, job) && |a + b| == |c + d|
  {
    SameKindsSameBill(b, d, job);
    SumByConcat(CostIn(job), a, b);
    SumByConcat(CostIn(job), c, d);
  }

  lemma FrontierIsOk(layers: seq<Layer>, last: seq<State>, pieces: seq<Piece>, base: seq<nat>, job: Job, d: nat)
    requires LayersOk(layers, last, pieces, base, job) && d <= |layers|
    ensures AllOk(FrontierAt(layers, last, d), pieces, base, job)
  {
    hide AllOk;
    if d < |layers| { assert layers[d] in layers; }
  }

  /** A state alike was no worse off when closing was tried. */
  lemma AlikeClosing(q: Quest, t: State, r: State, bar: Option<Objective>, pieces: seq<Piece>, others: seq<Piece>,
                     base: seq<nat>)
    requires StateOk(t, pieces, base, q.job) && StateOk(r, others, base, q.job) && SameKey(t, r)
    requires ClosingTried(q, t, bar)
    ensures ClosingTried(q, r, bar)
  {
    hide Signature, PoolArea, SheetArea, CostOf, AllSound, AllPieces, Times, MayClose, BillsAtMost;
    AlikeBillsAlike(t, r, pieces, others, base, q.job);
    forall k: nat | k < |q.job.specs| && MayClose(q, r, k)
      ensures bar.Some? && BillsAtMost(bar.value, r.cost + q.job.specs[k].cost, |r.fills| + 1)
    {
      AlikeMayClose(q, r, t, k);
    }
  }

  /** A plan that is closed at once. */
  lemma EndedAtMost(q: Quest, s: State, f: Fill, bar: Option<Objective>, pieces: seq<Piece>, base: seq<nat>)
    requires StateOk(s, pieces, base, q.job) && Ends(q, s, f) && ClosingTried(q, s, bar)
    ensures bar.Some? && BillsAtMost(bar.value, CostOf(s.fills + [f], q.job), |s.fills + [f]|)
  {
    hide CostOf, AllSound, AllPieces, Times, MayClose, Closes, BillsAtMost;
    OneMoreFill(s.fills, f, [], q.job);
  }

  lemma {:induction false} ReachesAlike(layers: seq<Layer>, last: seq<State>, start: State, q: Quest, choose: Chooser,
                                        rootExact: bool, bar: Option<Objective>, drop: seq<Dropped>, cap: nat, d: nat,
                                        s: State, fills: seq<Fill>, pieces: seq<Piece>, base: seq<nat>)
    requires Went(layers, last, start, q, choose, rootExact, bar, drop) && NoneCanWin(drop, bar, q.job)
    requires Steady(q.gen) && TypeSteady(q.gen) && KeepsOneOfEach(choose)
    requires HonestGenerator(q.gen, q.job) && HonestProber(q.probe, q.job, true)
    requires LayersOk(layers, last, pieces, base, q.job) && ClosingTried(q, s, bar)
    requires |layers| <= cap && (|layers| < cap ==> last == []) && d <= |layers| && s in FrontierAt(layers, last, d)
    requires Finished(q, s, fills) && d + |fills| <= cap
    ensures bar.Some? && BillsAtMost(bar.value, CostOf(s.fills + fills, q.job), |s.fills + fills|)
    decreases |fills|
  {
    hide Went, StateOk, Finished, ObjectiveOf, NotWorse, AfterFill, HonestGenerator, HonestProber, Steady, TypeSteady,
         KeepsOneOfEach, Openable, CannotWin, Partition, FillOk, SameKey, BillsAtMost, CostOf, SameKinds, LayersOk,
         Ends, ClosingTried, PoolArea;
    FrontierIsOk(layers, last, pieces, base, q.job, d);
    StateNotDone(s, pieces, base, q.job);
    FinishedNext(q, s, fills);
    var f, rest := fills[0], fills[1..];
    if Ends(q, s, f) && |fills| == 1 {
      EndedAtMost(q, s, f, bar, pieces, base);
      assert fills == [f];
      return;
    }
    StepFrom(q, s, f, pieces, base);
    var t := AfterFill(s, f, q.job);
    StepAccounted(layers, last, start, q, choose, rootExact, bar, drop, d, s, f);
    assert s.fills + fills == t.fills + rest;
    if t.pool == [] {
      FinishedDone(q, t, rest);
      assert t.fills + rest == t.fills;
      NotWorseBillsAtMost(bar.value, t.fills, q.job);
    } else if t in layers[d].reached {
      var r := OneIsKept(layers, last, start, q, choose, rootExact, bar, drop, d, t);
      FrontierIsOk(layers, last, pieces, base, q.job, d + 1);
      var like := Mirror(q, t, r, rest, pieces, pieces, base);
      AlikeBillsAlike(t, r, pieces, pieces, base, q.job);
      AlikeClosing(q, t, r, bar, pieces, pieces, base);
      BillsTogether(t.fills, rest, r.fills, like, q.job);
      assert |like| == |rest| by { SameLength(rest, like); }
      ReachesAlike(layers, last, start, q, choose, rootExact, bar, drop, cap, d + 1, r, like, pieces, base);
    } else {
      FinishedPartition(q, t, rest, pieces, base);
      GivenUp(t, rest, bar.value, pieces, base, q.job);
      NotWorseBillsAtMost(bar.value, t.fills + rest, q.job);
    }
  }

  lemma SameLength(a: seq<Fill>, b: seq<Fill>)
    requires SameKinds(a, b)
    ensures |a| == |b|
  {
  }

  /** A beam that keeps one state of each kind, with a generator that looks at piece types
      only, finds a plan that costs no more, and at the same cost needs no more sheets, than
      any put together from proposed fills within the limit on bins, whether the last bin is
      proposed or found by the prober. */
  lemma DeduplicationLosesNothing(layers: seq<Layer>, last: seq<State>, q: Quest, choose: Chooser, rootExact: bool,
                                  bar: Option<Objective>, drop: seq<Dropped>, cap: nat, pieces: seq<Piece>,
                                  base: seq<nat>, fills: seq<Fill>)
    requires Went(layers, last, State(pieces, [], base, 0), q, choose, rootExact, bar, drop)
    requires LayersOk(layers, last, pieces, base, q.job) && ClosingTried(q, State(pieces, [], base, 0), bar)
    requires NoneCanWin(drop, bar, q.job) && |layers| <= cap && (|layers| < cap ==> last == [])
    requires Steady(q.gen) && TypeSteady(q.gen) && KeepsOneOfEach(choose)
    requires HonestGenerator(q.gen, q.job) && HonestProber(q.probe, q.job, true)
    requires Finished(q, State(pieces, [], base, 0), fills) && |fills| <= cap
    ensures bar.Some? && BillsAtMost(bar.value, CostOf(fills, q.job), |fills|)
  {
    hide StateOk, Finished, ObjectiveOf, BillsAtMost, HonestGenerator, HonestProber, Steady, TypeSteady, KeepsOneOfEach,
         AllExplored, Chosen, NoneCanWin, CostOf, LayersOk, ClosingTried;
    var start := State(pieces, [], base, 0);
    assert start in FrontierAt(layers, last, 0);
    ReachesAlike(layers, last, start, q, choose, rootExact, bar, drop, cap, 0, start, fills, pieces, base);
    assert [] + fills == fills;
  }

  // ---- what a search leaves unbeaten ----------------------------------------------------------------

  /** No plan within the limit on bins that the search may put together is better than this
      objective: with a beam that keeps every state none composed of proposed fills at all,
      with one that keeps one state of each kind none that is cheaper or, at the same cost,
      smaller; and no single bin that always takes the whole pool is cheaper. */
  ghost predicate Unbeaten(o: Objective, q: Quest, choose: Chooser, pieces: seq<Piece>, base: seq<nat>, cap: nat) {
    var start := State(pieces, [], base, 0);
    && (Steady(q.gen) && KeepsAll(choose) ==>
          forall fills :: Composed(start, fills, q.gen, q.job) && |fills| <= cap ==>
            NotWorse(o, ObjectiveOf(Solution(fills, []), q.job)))
    && (Steady(q.gen) && TypeSteady(q.gen) && KeepsOneOfEach(choose) ==>
          forall fills :: Finished(q, start, fills) && |fills| <= cap ==> BillsAtMost(o, CostOf(fills, q.job), |fills|))
    && ClosingTried(q, start, Some(o))
  }

  lemma UnbeatenStays(o: Objective, o': Objective, q: Quest, choose: Chooser, pieces: seq<Piece>, base: seq<nat>,
                      cap: nat)
    requires Unbeaten(o, q, choose, pieces, base, cap) && NotWorse(o', o)
    ensures Unbeaten(o', q, choose, pieces, base, cap)
  {
    hide Composed, Finished, Steady, KeepsAll, TypeSteady, KeepsOneOfEach, ObjectiveOf, CostOf, ClosingTried;
    var start := State(pieces, [], base, 0);
    ClosingLater(q, start, Some(o), Some(o'));
    forall fills | Steady(q.gen) && KeepsAll(choose) && Composed(start, fills, q.gen, q.job) && |fills| <= cap
      ensures NotWorse(o', ObjectiveOf(Solution(fills, []), q.job))
    {
      BeatsTransitive(o', o, ObjectiveOf(Solution(fills, []), q.job));
    }
  }

  /** A search leaves its answer, or the bar it was given, unbeaten. */
  lemma SearchUnbeaten(layers: seq<Layer>, last: seq<State>, q: Quest, choose: Chooser, rootExact: bool, bar: Objective,
                       drop: seq<Dropped>, cap: nat, pieces: seq<Piece>, base: seq<nat>)
    requires Went(layers, last, State(pieces, [], base, 0), q, choose, rootExact, Some(bar), drop)
    requires LayersOk(layers, last, pieces, base, q.job) && ClosingTried(q, State(pieces, [], base, 0), Some(bar))
    requires NoneCanWin(drop, Some(bar), q.job) && |layers| <= cap && (|layers| < cap ==> last == [])
    requires HonestGenerator(q.gen, q.job) && HonestProber(q.probe, q.job, true)
    requires pieces != [] && Distinct(pieces) && AllValid(pieces) && WithinStock([], base, q.job)
    requires |base| == |q.job.specs|
    ensures Unbeaten(bar, q, choose, pieces, base, cap)
  {
    hide Went, Composed, Finished, Steady, KeepsAll, TypeSteady, KeepsOneOfEach, ObjectiveOf, CostOf, ClosingTried,
         LayersOk, NoneCanWin, HonestGenerator, HonestProber, Distinct, AllValid, WithinStock, BillsAtMost;
    var start := State(pieces, [], base, 0);
    forall fills | Steady(q.gen) && KeepsAll(choose) && Composed(start, fills, q.gen, q.job) && |fills| <= cap
      ensures NotWorse(bar, ObjectiveOf(Solution(fills, []), q.job))
    {
      BeamIsExhaustive(layers, last, q, choose, rootExact, Some(bar), drop, cap, pieces, base, fills);
    }
    forall fills | Steady(q.gen) && TypeSteady(q.gen) && KeepsOneOfEach(choose) && Finished(q, start, fills)
                   && |fills| <= cap
      ensures BillsAtMost(bar, CostOf(fills, q.job), |fills|)
    {
      DeduplicationLosesNothing(layers, last, q, choose, rootExact, Some(bar), drop, cap, pieces, base, fills);
    }
  }

  /** No plan within the limit on bins put together from proposed fills, the last bin perhaps
      closed, costs less or, at the same cost, needs fewer sheets. */
  ghost predicate NotUndersold(o: Objective, q: Quest, choose: Chooser, pieces: seq<Piece>, base: seq<nat>, cap: nat) {
    var start := State(pieces, [], base, 0);
    && (Steady(q.gen) && TypeSteady(q.gen) && KeepsOneOfEach(choose) ==>
          forall fills :: Finished(q, start, fills) && |fills| <= cap ==> BillsAtMost(o, CostOf(fills, q.job), |fills|))
    && ClosingTried(q, start, Some(o))
  }

  lemma UnbeatenIsNotUndersold(o: Objective, o': Objective, q: Quest, choose: Chooser, pieces: seq<Piece>,
                               base: seq<nat>, cap: nat)
    requires Unbeaten(o, q, choose, pieces, base, cap) && o'.cost == o.cost && o'.sheets == o.sheets
    ensures NotUndersold(o', q, choose, pieces, base, cap)
  {
    hide Composed, Finished, Steady, KeepsAll, TypeSteady, KeepsOneOfEach, CostOf, MayClose;
  }

  /** Nor from other pieces of the same types. */
  lemma NorOfTheseTypes(o: Objective, o': Objective, q: Quest, choose: Chooser, pieces: seq<Piece>, others: seq<Piece>,
                        base: seq<nat>, cap: nat)
    requires NotUndersold(o, q, choose, pieces, base, cap) && o'.cost == o.cost && o'.sheets == o.sheets
    requires HonestGenerator(q.gen, q.job) && HonestProber(q.probe, q.job, true)
    requires pieces != [] && Distinct(pieces) && AllValid(pieces) && WithinStock([], base, q.job)
    requires others != [] && Distinct(others) && AllValid(others) && |base| == |q.job.specs|
    requires Signature(pieces) == Signature(others)
    ensures NotUndersold(o', q, choose, others, base, cap)
  {
    hide Finished, Steady, TypeSteady, KeepsOneOfEach, CostOf, ClosingTried, StateOk, HonestGenerator, HonestProber,
         Distinct, AllValid, WithinStock, SameKinds, Signature;
    var start, there := State(pieces, [], base, 0), State(others, [], base, 0);
    StartOk(pieces, base, q.job);
    StartOk(others, base, q.job);
    AlikeClosing(q, start, there, Some(o), pieces, others, base);
    ClosingForAll(q, there, o, o');
    forall fills | Steady(q.gen) && TypeSteady(q.gen) && KeepsOneOfEach(choose) && Finished(q, there, fills)
                   && |fills| <= cap
      ensures BillsAtMost(o', CostOf(fills, q.job), |fills|)
    {
      var like := Mirror(q, there, start, fills, others, pieces, base);
      SameKindsSameBill(fills, like, q.job);
      SameLength(fills, like);
    }
  }

  lemma ClosingForAll(q: Quest, t: State, o: Objective, o': Objective)
    requires ClosingTried(q, t, Some(o)) && o'.cost == o.cost && o'.sheets == o.sheets
    ensures ClosingTried(q, t, Some(o'))
  {
    hide MayClose;
  }

  /** The same of a bill alone. */
  ghost predicate CheapestReached(bill: int, q: Quest, choose: Chooser, pieces: seq<Piece>, base: seq<nat>, cap: nat) {
    var start := State(pieces, [], base, 0);
    && (Steady(q.gen) && KeepsAll(choose) ==>
          forall fills :: Composed(start, fills, q.gen, q.job) && |fills| <= cap ==> bill <= CostOf(fills, q.job))
    && (Steady(q.gen) && TypeSteady(q.gen) && KeepsOneOfEach(choose) ==>
          forall fills :: Finished(q, start, fills) && |fills| <= cap ==> bill <= CostOf(fills, q.job))
    && (forall k: nat :: k < |q.job.specs| && MayClose(q, start, k) ==> bill <= q.job.specs[k].cost)
  }

  lemma UnbeatenIsCheapest(o: Objective, q: Quest, choose: Chooser, pieces: seq<Piece>, base: seq<nat>, cap: nat)
    requires Unbeaten(o, q, choose, pieces, base, cap)
    ensures CheapestReached(o.cost, q, choose, pieces, base, cap)
  {
    hide Composed, Finished, Steady, KeepsAll, TypeSteady, KeepsOneOfEach, CostOf, MayClose;
  }

  /** A bill no complete plan undercuts is not undercut by these. */
  lemma ProvenIsCheapest(bill: int, q: Quest, choose: Chooser, pieces: seq<Piece>, base: seq<nat>, cap: nat)
    requires forall rival :: Complete(rival, pieces, q.job.specs, q.job.p) ==> bill <= Cost(SpecsOf(rival))
    requires HonestGenerator(q.gen, q.job) && HonestProber(q.probe, q.job, true)
    requires pieces != [] && Distinct(pieces) && AllValid(pieces) && WithinStock([], base, q.job)
    requires |base| == |q.job.specs|
    ensures CheapestReached(bill, q, choose, pieces, base, cap)
  {
    hide Composed, Finished, Steady, KeepsAll, TypeSteady, KeepsOneOfEach, CostOf, MayClose, Complete, HonestGenerator,
         HonestProber, Distinct, AllValid, WithinStock, Cost, StateOk;
    var start := State(pieces, [], base, 0);
    StartOk(pieces, base, q.job);
    forall fills | Finished(q, start, fills) ensures bill <= CostOf(fills, q.job) {
      FinishedPartition(q, start, fills, pieces, base);
      PartitionIsComplete(fills, pieces, q.job);
    }
    forall fills | Composed(start, fills, q.gen, q.job) ensures bill <= CostOf(fills, q.job) {
      ComposedIsFinished(q, start, fills);
    }
    forall k: nat | k < |q.job.specs| && MayClose(q, start, k) ensures bill <= q.job.specs[k].cost {
      var g := OneBinCloses(q, start, k, pieces, base);
      FinishedPartition(q, start, [g], pieces, base);
      PartitionIsComplete([g], pieces, q.job);
    }
  }

  lemma OneBinCloses(q: Quest, s: State, k: nat, pieces: seq<Piece>, base: seq<nat>) returns (g: Fill)
    requires StateOk(s, pieces, base, q.job) && k < |q.job.specs| && MayClose(q, s, k)
    requires HonestProber(q.probe, q.job, true)
    ensures Finished(q, s, [g]) && CostOf([g], q.job) == q.job.specs[k].cost
  {
    hide Signature, PoolArea, SheetArea, FillSound, PlacedIn, AllSound, AllPieces, Times, Closes;
    g := q.probe(0, s.pool, k).value;
    assert GoodFill(q.probe(0, s.pool, k), s.pool, k, q.job, true);
    ProbeCloses(q, s, g);
    OneMoreFill([], g, [], q.job);
    assert [] + [g] == [g];
  }

  lemma CheapestStays(bill: int, bill': int, q: Quest, choose: Chooser, pieces: seq<Piece>, base: seq<nat>, cap: nat)
    requires CheapestReached(bill, q, choose, pieces, base, cap) && bill' <= bill
    ensures CheapestReached(bill', q, choose, pieces, base, cap)
  {
    hide Composed, Finished, Steady, KeepsAll, TypeSteady, KeepsOneOfEach, CostOf, MayClose;
  }
}
