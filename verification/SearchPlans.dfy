/**
The plans search.py moves between: fills of bins, what makes a set of them a plan
for a pool of pieces, how plans are ranked, and how a remembered fill is given the
pieces of another pool of the same types.
*/
module SearchPlans {
  import opened Geometry
  import opened Guillotine
  import opened Plans
  import opened Sequences
  import opened Sheets
  import Packer
  import opened Constructors
  import opened Strips
  import opened Bounds

  /** A filled bin; `kind` is the bin type's place in the list of bin types. */
  datatype Fill = Fill(kind: nat, sheet: BinFill)

  /** What one run is about. */
  datatype Job = Job(specs: seq<BinSpec>, p: Params)

  function PlacedIn(f: Fill): seq<Piece> {
    PiecesOf(f.sheet.placed)
  }

  /** A bin the saw can cut, with pieces lying as they may. */
  ghost predicate FillSound(f: Fill, job: Job) {
    f.kind < |job.specs| && Sawable(Opened(job.specs[f.kind], f.sheet.placed), job.p)
  }

  /** A sound fill of at least one piece, all of them from the pool. */
  ghost predicate FillOk(f: Fill, pool: seq<Piece>, job: Job) {
    FillSound(f, job) && f.sheet.placed != [] && multiset(PlacedIn(f)) <= multiset(pool)
  }

  function AllPieces(fills: seq<Fill>): seq<Piece> {
    if fills == [] then [] else AllPieces(fills[..|fills|-1]) + PlacedIn(fills[|fills|-1])
  }

  ghost predicate AllSound(fills: seq<Fill>, job: Job) {
    forall f :: f in fills ==> FillSound(f, job)
  }

  /** Every piece of the pool lies in exactly one of these sound fills. */
  ghost predicate Partition(fills: seq<Fill>, pool: seq<Piece>, job: Job) {
    AllSound(fills, job) && multiset(AllPieces(fills)) == multiset(pool)
  }

  function OfBin(kind: nat): Fill -> int {
    (f: Fill) => if f.kind == kind then 1 else 0
  }

  function Times(fills: seq<Fill>, kind: nat): int {
    SumBy(OfBin(kind), fills)
  }

  /** No finite bin type is used more often than it is in stock, `used` of each being
      gone already. */
  ghost predicate WithinStock(fills: seq<Fill>, used: seq<nat>, job: Job) {
    && |used| == |job.specs|
    && forall k: nat ::
       k < |job.specs| && job.specs[k].count.Some? ==> used[k] + Times(fills, k) <= job.specs[k].count.value
  }

  // ---- ranking -----------------------------------------------------------------------

  /** Lower is better, first component first. */
  datatype Objective = Objective(cost: int, sheets: int, unplaced: int, waste: int, cutLength: int)

  predicate Beats(a: Objective, b: Objective) {
    || a.cost < b.cost
    || (a.cost == b.cost && a.sheets < b.sheets)
    || (a.cost == b.cost && a.sheets == b.sheets && a.unplaced < b.unplaced)
    || (a.cost == b.cost && a.sheets == b.sheets && a.unplaced == b.unplaced && a.waste < b.waste)
    || (a.cost == b.cost && a.sheets == b.sheets && a.unplaced == b.unplaced && a.waste == b.waste
        && a.cutLength < b.cutLength)
  }

  /** At least as good as. */
  predicate NotWorse(a: Objective, b: Objective) {
    a == b || Beats(a, b)
  }

  datatype Solution = Solution(fills: seq<Fill>, unplaced: seq<Piece>)

  function CostIn(job: Job): Fill -> int {
    (f: Fill) => if f.kind < |job.specs| then job.specs[f.kind].cost else 0
  }

  function CostOf(fills: seq<Fill>, job: Job): int {
    SumBy(CostIn(job), fills)
  }

  /** The sheet's whole area less what its pieces cover. */
  function WasteIn(job: Job): Fill -> int {
    (f: Fill) => if f.kind < |job.specs|
        then job.specs[f.kind].width * job.specs[f.kind].height - UsedArea(f.sheet.placed) else 0
  }

  function TravelIn(f: Fill): int {
    SumBy((c: SawCut) => c.length, f.sheet.cuts)
  }

  function ObjectiveOf(s: Solution, job: Job): Objective {
    Objective(CostOf(s.fills, job), |s.fills|, |s.unplaced|, SumBy(WasteIn(job), s.fills), SumBy(TravelIn, s.fills))
  }

  // ---- plans as sets of fills ----------------------------------------------------------

  lemma AllPiecesLast(fills: seq<Fill>, f: Fill)
    ensures AllPieces(fills + [f]) == AllPieces(fills) + PlacedIn(f)
  {
    assert (fills + [f])[..|fills|] == fills;
  }

  lemma NoFillsNoPieces()
    ensures AllPieces([]) == []
  {
  }

  lemma {:induction false} AllPiecesConcat(a: seq<Fill>, b: seq<Fill>)
    ensures AllPieces(a + b) == AllPieces(a) + AllPieces(b)
  {
    hide PlacedIn, AllPieces;
    if b == [] {
      NoFillsNoPieces();
      assert a + b == a;
    } else {
      var init, last := b[..|b|-1], b[|b|-1];
      AllPiecesConcat(a, init);
      AllPiecesLast(a + init, last);
      AllPiecesLast(init, last);
      assert b == init + [last];
      assert a + b == a + init + [last];
    }
  }

  /** Adding a fill to a partial plan and its pieces to what is covered. */
  lemma OneMoreFill(fills: seq<Fill>, f: Fill, used: seq<nat>, job: Job)
    ensures CostOf(fills + [f], job) == CostOf(fills, job) + CostIn(job)(f)
    ensures forall k: nat :: Times(fills + [f], k) == Times(fills, k) + if f.kind == k then 1 else 0
    ensures multiset(AllPieces(fills + [f])) == multiset(AllPieces(fills)) + multiset(PlacedIn(f))
    ensures AllSound(fills, job) && FillSound(f, job) ==> AllSound(fills + [f], job)
  {
    hide FillSound, PlacedIn;
    SumByLast(CostIn(job), fills, f);
    forall k: nat ensures Times(fills + [f], k) == Times(fills, k) + if f.kind == k then 1 else 0 {
      SumByLast(OfBin(k), fills, f);
    }
    AllPiecesLast(fills, f);
  }

  function OpenedIn(fills: seq<Fill>, job: Job): (r: seq<Opened>)
    ensures |r| == |fills|
    ensures forall i ::
            0 <= i < |fills| && fills[i].kind < |job.specs| ==>
                r[i] == Opened(job.specs[fills[i].kind], fills[i].sheet.placed)
  {
    seq(|fills|, i requires 0 <= i < |fills| =>
      Opened(if fills[i].kind < |job.specs| then job.specs[fills[i].kind] else BinSpec(0, 0, 0, false, None, ""),
             fills[i].sheet.placed))
  }

  /** A plan of fills is a complete plan in the sense the certificates speak of, and
      bills the same. */
  lemma {:induction false} PartitionIsComplete(fills: seq<Fill>, pool: seq<Piece>, job: Job)
    requires Partition(fills, pool, job)
    ensures Complete(OpenedIn(fills, job), pool, job.specs, job.p)
    ensures Cost(SpecsOf(OpenedIn(fills, job))) == CostOf(fills, job)
  {
    hide Sawable;
    OpenedPieces(fills, job);
    forall s | s in OpenedIn(fills, job) ensures s.spec in job.specs && Sawable(s, job.p) {
      var i :| 0 <= i < |fills| && OpenedIn(fills, job)[i] == s;
      assert fills[i] in fills && FillSound(fills[i], job);
    }
    OpenedCost(fills, job);
  }

  lemma {:induction false} OpenedPieces(fills: seq<Fill>, job: Job)
    ensures AllPlaced(OpenedIn(fills, job)) == AllPieces(fills)
  {
    if fills != [] {
      OpenedPieces(fills[..|fills|-1], job);
      assert OpenedIn(fills, job)[..|fills|-1] == OpenedIn(fills[..|fills|-1], job);
    }
  }

  lemma {:induction false} OpenedCost(fills: seq<Fill>, job: Job)
    requires AllSound(fills, job)
    ensures Cost(SpecsOf(OpenedIn(fills, job))) == CostOf(fills, job)
  {
    hide Sawable;
    if fills != [] {
      var init, f := fills[..|fills|-1], fills[|fills|-1];
      assert f in fills && FillSound(f, job);
      assert AllSound(init, job) by { assert forall g :: g in init ==> g in fills; }
      OpenedCost(init, job);
      var O := OpenedIn(fills, job);
      assert O[..|O|-1] == OpenedIn(init, job);
      assert SpecsOf(O)[..|O|-1] == SpecsOf(OpenedIn(init, job));
    }
  }

  // ---- giving a remembered fill other pieces ---------------------------------------------

  /** The same layout with, place by place, a piece of the same type. */
  predicate SameLayout(f: Fill, g: Fill) {
    && f.kind == g.kind && f.sheet.remainders == g.sheet.remainders && f.sheet.cuts == g.sheet.cuts
    && SamePlaces(f.sheet.placed, g.sheet.placed)
  }

  predicate SamePlaces(a: seq<Placed>, b: seq<Placed>) {
    && |a| == |b|
    && forall i :: 0 <= i < |a| ==> TypeOf(a[i].piece) == TypeOf(b[i].piece) && b[i] == a[i].(piece := b[i].piece)
  }

  lemma SameLayoutSound(f: Fill, g: Fill, job: Job)
    requires FillSound(f, job) && SameLayout(f, g)
    ensures FillSound(g, job)
  {
    hide Cuttable, UsableBounds, BoxesOf;
    SameBoxes(f.sheet.placed, g.sheet.placed);
    forall q | q in g.sheet.placed ensures Legal(q) && ValidPiece(q.piece) {
      var i :| 0 <= i < |g.sheet.placed| && g.sheet.placed[i] == q;
      assert f.sheet.placed[i] in f.sheet.placed;
    }
  }

  lemma SameBoxes(a: seq<Placed>, b: seq<Placed>)
    requires SamePlaces(a, b)
    ensures BoxesOf(a) == BoxesOf(b)
  {
    hide BoxesOf;
    assert |BoxesOf(a)| == |BoxesOf(b)|;
    forall i | 0 <= i < |a| ensures BoxesOf(a)[i] == BoxesOf(b)[i] {}
  }

  lemma {:induction false} SignatureCounts(pool: seq<Piece>, t: PieceType)
    ensures t in Signature(pool) ==> exists p :: p in pool && TypeOf(p) == t
  {
    if pool != [] {
      var init, last := pool[..|pool|-1], pool[|pool|-1];
      SignatureCounts(init, t);
      assert last in pool && forall p :: p in init ==> p in pool;
    }
  }

  lemma SignatureOne(p: Piece)
    ensures Signature([p]) == multiset{TypeOf(p)}
  {
    assert [p][..0] == [];
  }

  lemma SignatureWithout(pool: seq<Piece>, i: nat)
    requires i < |pool|
    ensures Signature(pool) == Signature(pool[..i] + pool[i+1..]) + multiset{TypeOf(pool[i])}
    ensures multiset(pool) == multiset(pool[..i] + pool[i+1..]) + multiset{pool[i]}
  {
    hide Signature;
    assert pool == pool[..i] + [pool[i]] + pool[i+1..];
    SignatureConcat(pool[..i] + [pool[i]], pool[i+1..]);
    SignatureConcat(pool[..i], [pool[i]]);
    SignatureConcat(pool[..i], pool[i+1..]);
    SignatureOne(pool[i]);
  }

  /** The first piece of the pool of this type. */
  method FirstOfType(pool: seq<Piece>, t: PieceType) returns (i: int)
    ensures -1 <= i < |pool|
    ensures i >= 0 ==> TypeOf(pool[i]) == t
    ensures i < 0 ==> t !in Signature(pool)
  {
    for j := 0 to |pool|
      invariant forall k :: 0 <= k < j ==> TypeOf(pool[k]) != t
    {
      if TypeOf(pool[j]) == t { return j; }
    }
    if t in Signature(pool) { SignatureCounts(pool, t); }
    return -1;
  }

  lemma RebindStep(placed: seq<Placed>, i: nat)
    requires i < |placed|
    ensures PiecesOf(placed[..i+1]) == PiecesOf(placed[..i]) + [placed[i].piece]
    ensures Signature(PiecesOf(placed[..i+1])) == Signature(PiecesOf(placed[..i])) + multiset{TypeOf(placed[i].piece)}
  {
    assert placed[..i+1][..i] == placed[..i];
    var P := PiecesOf(placed[..i+1]);
    assert P[..|P|-1] == PiecesOf(placed[..i]);
  }

  lemma {:induction false} SignatureOfPrefix(placed: seq<Placed>, i: nat)
    requires i <= |placed|
    ensures Signature(PiecesOf(placed[..i])) <= Signature(PiecesOf(placed))
    decreases |placed| - i
  {
    if i < |placed| {
      RebindStep(placed, i);
      SignatureOfPrefix(placed, i + 1);
    } else {
      assert placed[..i] == placed;
    }
  }

  /** Gives the placements of a fill to pieces of this pool, type by type. It fails
      only when the pool has too few pieces of some type. */
  method Rebind(f: Fill, pool: seq<Piece>, byId: seq<Piece> -> seq<Piece>) returns (r: Option<Fill>)
    requires IsOrder(byId)
    ensures r.Some? <==> Signature(PlacedIn(f)) <= Signature(pool)
    ensures r.Some? ==> SameLayout(f, r.value) && multiset(PlacedIn(r.value)) <= multiset(pool)
  {
    hide Signature, PiecesOf, SamePlaces, TypeOf;
    var rest := byId(pool);
    SignaturePermuted(rest, pool);
    var placed: seq<Placed> := [];
    var all := f.sheet.placed;
    NothingBound();
    for i := 0 to |all|
      invariant SamePlaces(all[..i], placed)
      invariant Signature(rest) + Signature(PiecesOf(all[..i])) == Signature(pool)
      invariant multiset(rest) + multiset(PiecesOf(placed)) == multiset(pool)
    {
      var q := all[i];
      RebindStep(all, i);
      SignatureOfPrefix(all, i + 1);
      var j := FirstOfType(rest, TypeOf(q.piece));
      if j < 0 {
        NotCovered(Signature(rest), Signature(PiecesOf(all[..i])), Signature(pool), Signature(PiecesOf(all)),
                   TypeOf(q.piece));
        return None;
      }
      SignatureWithout(rest, j);
      Packer.PiecesOfLast(placed, q.(piece := rest[j]));
      MoveOne(multiset(rest), multiset(rest[..j] + rest[j+1..]), multiset(PiecesOf(placed)), rest[j]);
      MoveOne(Signature(rest), Signature(rest[..j] + rest[j+1..]), Signature(PiecesOf(all[..i])), TypeOf(q.piece));
      SamePlacesNext(all, i, placed, rest[j]);
      placed := placed + [q.(piece := rest[j])];
      rest := rest[..j] + rest[j+1..];
    }
    assert all[..|all|] == all;
    r := Some(Fill(f.kind, f.sheet.(placed := placed)));
  }

  lemma SamePlacesNext(all: seq<Placed>, i: nat, placed: seq<Placed>, p: Piece)
    requires i < |all| && SamePlaces(all[..i], placed) && TypeOf(p) == TypeOf(all[i].piece)
    ensures SamePlaces(all[..i+1], placed + [all[i].(piece := p)])
  {
  }

  lemma NothingBound()
    ensures PiecesOf([]) == [] && Signature([]) == multiset{} && SamePlaces([], [])
  {
  }

  lemma MoveOne<T>(rest: multiset<T>, rest': multiset<T>, done: multiset<T>, x: T)
    requires rest == rest' + multiset{x}
    ensures rest + done == rest' + (done + multiset{x})
  {
  }

  lemma NotCovered<T>(rest: multiset<T>, done: multiset<T>, pool: multiset<T>, all: multiset<T>, t: T)
    requires rest + done == pool && t !in rest && done + multiset{t} <= all
    ensures !(all <= pool)
  {
    assert pool[t] == done[t] < all[t];
  }

  lemma {:induction false} SignaturePermuted(a: seq<Piece>, b: seq<Piece>)
    requires multiset(a) == multiset(b)
    ensures Signature(a) == Signature(b)
  {
    NothingElse(a, b);
    if a != [] {
      var i := OneTaken(a, b);
      SignaturePermuted(a[..|a|-1], b[..i] + b[i+1..]);
      SignatureWithout(b, i);
    }
  }

  lemma SubpoolSignature(a: seq<Piece>, b: seq<Piece>)
    requires multiset(a) <= multiset(b)
    ensures Signature(a) <= Signature(b)
  {
    hide Signature;
    var rest := AnyListing(multiset(b) - multiset(a));
    assert multiset(a + rest) == multiset(b);
    SignaturePermuted(a + rest, b);
    SignatureConcat(a, rest);
  }
}
