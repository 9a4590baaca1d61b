/**
The strip constructor of constructors.py: a sheet filled as first-stage strips,
each one packed by the guillotine packer in its own coordinates and moved into
place.
*/
module Strips {
  import opened Geometry
  import opened Guillotine
  import opened Surgery
  import opened CandidateCuts
  import opened Plans
  import opened Filling
  import opened Sheets
  import opened Packer
  import opened Constructors

  // ---- moving a fill -----------------------------------------------------------

  function ShiftPlaced(p: Placed, dx: int, dy: int): Placed {
    p.(x := p.x + dx, y := p.y + dy)
  }

  function ShiftCuts(cs: seq<SawCut>, dx: int, dy: int): (r: seq<SawCut>)
    ensures |r| == |cs|
    ensures forall i :: 0 <= i < |r| ==> r[i] == MovedCut(cs[i], dx, dy)
  {
    seq(|cs|, i requires 0 <= i < |cs| => MovedCut(cs[i], dx, dy))
  }

  function ShiftPieces(ps: seq<Placed>, dx: int, dy: int): (r: seq<Placed>)
    ensures |r| == |ps|
    ensures forall i :: 0 <= i < |r| ==> r[i] == ShiftPlaced(ps[i], dx, dy)
  {
    seq(|ps|, i requires 0 <= i < |ps| => ShiftPlaced(ps[i], dx, dy))
  }

  function Translate(fill: BinFill, dx: int, dy: int): BinFill {
    BinFill(ShiftPieces(fill.placed, dx, dy), ShiftAll(fill.remainders, dx, dy), ShiftCuts(fill.cuts, dx, dy))
  }

  lemma {:induction false} ShiftOffcuts(t: GTree, r: Box, kerf: nat, dx: int, dy: int)
    ensures Offcuts(ShiftTree(t, dx, dy), Shift(r, dx, dy), kerf) == ShiftAll(Offcuts(t, r, kerf), dx, dy)
  {
    if t.Cut? {
      var Cut(h, at, near, far) := t;
      var d := if h then dy else dx;
      var n, f := NearRegion(r, h, at), FarRegion(r, h, at, kerf);
      ShiftOffcuts(near, n, kerf, dx, dy);
      ShiftOffcuts(far, f, kerf, dx, dy);
      ShiftedRegions(r, h, at, kerf, dx, dy);
    }
  }

  function MovedCut(c: SawCut, dx: int, dy: int): SawCut {
    c.(x := c.x + dx, y := c.y + dy)
  }

  lemma ShiftJoin(c: SawCut, n: seq<SawCut>, f: seq<SawCut>, dx: int, dy: int)
    ensures ShiftCuts([c] + n + f, dx, dy) == [MovedCut(c, dx, dy)] + ShiftCuts(n, dx, dy) + ShiftCuts(f, dx, dy)
    ensures ShiftCuts([], dx, dy) == []
  {
  }

  lemma ShiftedRegions(r: Box, h: bool, at: int, kerf: nat, dx: int, dy: int)
    ensures var d := if h then dy else dx;
            && NearRegion(Shift(r, dx, dy), h, at + d) == Shift(NearRegion(r, h, at), dx, dy)
            && FarRegion(Shift(r, dx, dy), h, at + d, kerf) == Shift(FarRegion(r, h, at, kerf), dx, dy)
            && (Solid(Shift(FarRegion(r, h, at, kerf), dx, dy)) <==> Solid(FarRegion(r, h, at, kerf)))
            && CutOf(Shift(r, dx, dy), h, at + d) == MovedCut(CutOf(r, h, at), dx, dy)
  {
  }

  lemma CutsReported(h: bool, at: int, near: GTree, far: GTree, r: Box, g: Config)
    ensures var f := FarRegion(r, h, at, g.kerf);
            PlanOf(Cut(h, at, near, far), r, g).cuts ==
            [CutOf(r, h, at)] + PlanOf(near, NearRegion(r, h, at), g).cuts + if Solid(f) then PlanOf(far, f, g).cuts
                else []
  {
  }

  lemma ShiftedReports(h: bool, at: int, near: GTree, far: GTree, r: Box, g: Config, dx: int, dy: int)
    requires var n, f := NearRegion(r, h, at), FarRegion(r, h, at, g.kerf);
             && PlanOf(ShiftTree(near, dx, dy), Shift(n, dx, dy), g).cuts == ShiftCuts(PlanOf(near, n, g).cuts, dx, dy)
             && PlanOf(ShiftTree(far, dx, dy), Shift(f, dx, dy), g).cuts == ShiftCuts(PlanOf(far, f, g).cuts, dx, dy)
    ensures PlanOf(Cut(h, at + (if h then dy else dx), ShiftTree(near, dx, dy), ShiftTree(far, dx, dy)),
                   Shift(r, dx, dy), g).cuts ==
            ShiftCuts(PlanOf(Cut(h, at, near, far), r, g).cuts, dx, dy)
  {
    hide PlanOf, ShiftCuts, CutOf, NearRegion, FarRegion, Shift, Solid, ShiftTree, MovedCut;
    var f := FarRegion(r, h, at, g.kerf);
    ShiftedRegions(r, h, at, g.kerf, dx, dy);
    CutsReported(h, at, near, far, r, g);
    CutsReported(h, at + (if h then dy else dx), ShiftTree(near, dx, dy), ShiftTree(far, dx, dy), Shift(r, dx, dy), g);
    ShiftJoin(CutOf(r, h, at), PlanOf(near, NearRegion(r, h, at), g).cuts,
              if Solid(f) then PlanOf(far, f, g).cuts else [], dx, dy);
  }

  lemma {:induction false} ShiftReport(t: GTree, r: Box, g: Config, dx: int, dy: int)
    ensures PlanOf(ShiftTree(t, dx, dy), Shift(r, dx, dy), g).cuts == ShiftCuts(PlanOf(t, r, g).cuts, dx, dy)
  {
    hide PlanOf, Shift, NearRegion, FarRegion;
    if t.Cut? {
      ShiftReport(t.near, NearRegion(r, t.horizontal, t.at), g, dx, dy);
      ShiftReport(t.far, FarRegion(r, t.horizontal, t.at, g.kerf), g, dx, dy);
      ShiftedReports(t.horizontal, t.at, t.near, t.far, r, g, dx, dy);
    } else {
      NothingCut(t, r, g);
      NothingCut(t, Shift(r, dx, dy), g);
    }
  }

  lemma NothingCut(t: GTree, r: Box, g: Config)
    requires !t.Cut?
    ensures PlanOf(t, r, g).cuts == []
  {
  }

  lemma TranslateBoxes(ps: seq<Placed>, dx: int, dy: int)
    ensures BoxesOf(ShiftPieces(ps, dx, dy)) == ShiftAll(BoxesOf(ps), dx, dy)
  {
  }

  lemma {:induction false} ShiftAllMultiset(A: seq<Box>, b: Box, dx: int, dy: int)
    ensures multiset(ShiftAll(A, dx, dy))[b] == multiset(A)[Shift(b, -dx, -dy)]
  {
    if A != [] {
      var C, c := A[..|A|-1], A[|A|-1];
      assert A == C + [c];
      ShiftAllMultiset(C, b, dx, dy);
      ShiftAllLast(C, c, dx, dy);
      assert Shift(c, dx, dy) == b <==> c == Shift(b, -dx, -dy);
    }
  }

  lemma {:induction false} ShiftCutsMultiset(A: seq<SawCut>, b: SawCut, dx: int, dy: int)
    ensures multiset(ShiftCuts(A, dx, dy))[b] == multiset(A)[MovedCut(b, -dx, -dy)]
  {
    if A != [] {
      var C, c := A[..|A|-1], A[|A|-1];
      assert A == C + [c];
      ShiftCutsMultiset(C, b, dx, dy);
      assert ShiftCuts(C + [c], dx, dy) == ShiftCuts(C, dx, dy) + [MovedCut(c, dx, dy)];
      assert MovedCut(c, dx, dy) == b <==> c == MovedCut(b, -dx, -dy);
    }
  }

  lemma ShiftAllSubset(A: seq<Box>, B: seq<Box>, dx: int, dy: int)
    requires multiset(A) <= multiset(B)
    ensures multiset(ShiftAll(A, dx, dy)) <= multiset(ShiftAll(B, dx, dy))
  {
    forall b ensures multiset(ShiftAll(A, dx, dy))[b] <= multiset(ShiftAll(B, dx, dy))[b] {
      ShiftAllMultiset(A, b, dx, dy);
      ShiftAllMultiset(B, b, dx, dy);
    }
  }

  lemma ShiftCutsSame(A: seq<SawCut>, B: seq<SawCut>, dx: int, dy: int)
    requires multiset(A) == multiset(B)
    ensures multiset(ShiftCuts(A, dx, dy)) == multiset(ShiftCuts(B, dx, dy))
  {
    forall c ensures multiset(ShiftCuts(A, dx, dy))[c] == multiset(ShiftCuts(B, dx, dy))[c] {
      ShiftCutsMultiset(A, c, dx, dy);
      ShiftCutsMultiset(B, c, dx, dy);
    }
  }

  /** A fill and its tree can be moved anywhere together. */
  lemma TranslateRealizes(t: GTree, r: Box, fill: BinFill, g: Config, dx: int, dy: int)
    requires Realizes(t, r, fill, g)
    ensures Realizes(ShiftTree(t, dx, dy), Shift(r, dx, dy), Translate(fill, dx, dy), g)
  {
    hide Frees, PlanOf, Offcuts;
    ShiftFrees(t, r, BoxesOf(fill.placed), g.kerf, dx, dy);
    TranslateBoxes(fill.placed, dx, dy);
    ShiftOffcuts(t, r, g.kerf, dx, dy);
    ShiftReport(t, r, g, dx, dy);
    ShiftAllSubset(fill.remainders, Offcuts(t, r, g.kerf), dx, dy);
    ShiftCutsSame(fill.cuts, PlanOf(t, r, g).cuts, dx, dy);
    forall p | p in Translate(fill, dx, dy).placed ensures Legal(p) && ValidPiece(p.piece) {
      var i :| 0 <= i < |fill.placed| && p == ShiftPlaced(fill.placed[i], dx, dy);
      assert fill.placed[i] in fill.placed;
    }
  }

  // ---- committing a strip --------------------------------------------------------

  /** The strips so far cut everything before `lo`; what is after it, if anything,
      is still one offcut. */
  ghost predicate Building(t: GTree, bounds: Box, h: bool, lo: int, fill: BinFill, g: Config) {
    && Frees(t, bounds, BoxesOf(fill.placed), g.kerf)
    && multiset(fill.cuts) == multiset(PlanOf(t, bounds, g).cuts)
    && multiset(fill.remainders) + multiset(TailAfter(bounds, h, lo)) <= multiset(Offcuts(t, bounds, g.kerf))
    && (forall p :: p in fill.placed ==> Legal(p) && ValidPiece(p.piece))
  }

  /** The tail of the sheet, its first strip ripped off when anything remains. */
  function StripTree(t: GTree, tail: Box, h: bool, at: int): GTree {
    if at < Hi(tail, h) then Cut(h, at, t, Empty) else t
  }

  lemma StripInTail(t: GTree, tail: Box, h: bool, at: int, S: seq<Box>, kerf: nat)
    requires Solid(tail) && Lo(tail, h) < at <= Hi(tail, h)
    requires Frees(t, WithHi(tail, h, at), S, kerf) && AllSolid(S)
    ensures Frees(StripTree(t, tail, h, at), tail, S, kerf)
  {
    hide Frees, Side;
    if at < Hi(tail, h) {
      forall b | b in S ensures OnSide(b, h, at, false) && !OnSide(b, h, at + kerf, true) {
        FreesInside(t, WithHi(tail, h, at), S, kerf, b);
      }
      SideAll(S, h, at, false);
      SideNone(S, h, at + kerf, true);
      NothingLeft(FarRegion(tail, h, at, kerf), kerf);
      CutFrees(h, at, t, Empty, tail, S, kerf);
    } else {
      assert WithHi(tail, h, at) == tail;
    }
  }

  lemma StripOffcuts(t: GTree, tail: Box, h: bool, at: int, kerf: nat)
    requires Solid(tail) && Lo(tail, h) < at <= Hi(tail, h)
    ensures Offcuts(StripTree(t, tail, h, at), tail, kerf) ==
            Offcuts(t, WithHi(tail, h, at), kerf) + TailAfter(tail, h, at + kerf)
  {
    if at < Hi(tail, h) {
      CropOffcuts(t, tail, h, at, kerf);
    } else {
      assert WithHi(tail, h, at) == tail;
      assert Offcuts(t, tail, kerf) + [] == Offcuts(t, tail, kerf);
    }
  }

  lemma StripCuts(t: GTree, tail: Box, h: bool, at: int, g: Config)
    requires Lo(tail, h) < at <= Hi(tail, h)
    ensures PlanOf(StripTree(t, tail, h, at), tail, g).cuts ==
            (if at < Hi(tail, h) then [CutOf(tail, h, at)] else []) + PlanOf(t, WithHi(tail, h, at), g).cuts
  {
    if at < Hi(tail, h) {
      CropCuts(t, tail, h, at, g);
    } else {
      assert WithHi(tail, h, at) == tail;
    }
  }

  /** Committing a packed strip, up to `at`, at the near edge of the tail. */
  lemma CommitStrip(t: GTree, bounds: Box, h: bool, lo: int, fill: BinFill, g: Config, u: GTree, at: int,
                    strip: BinFill, fill': BinFill)
    returns (t': GTree)
    requires Building(t, bounds, h, lo, fill, g) && Solid(bounds)
    requires Lo(bounds, h) <= lo < at <= Hi(bounds, h)
    requires Realizes(u, WithHi(WithLo(bounds, h, lo), h, at), strip, g)
    requires fill'.placed == fill.placed + strip.placed
    requires fill'.remainders == fill.remainders + strip.remainders
    requires fill'.cuts == fill.cuts + strip.cuts
                           + if at < Hi(bounds, h) then [CutOf(WithLo(bounds, h, lo), h, at)] else []
    ensures Building(t', bounds, h, at + g.kerf, fill', g)
  {
    hide Building, Realizes, Frees, Offcuts, PlanOf, Graft, StripTree, BoxesOf, Legal, ValidPiece, CutOf, TailAfter;
    var tail := WithLo(bounds, h, lo);
    BuildingParts(t, bounds, h, lo, fill, g);
    RealizesParts(u, WithHi(tail, h, at), strip, g);
    CommitTree(t, bounds, h, lo, BoxesOf(fill.placed), g.kerf, u, at, BoxesOf(strip.placed));
    CommitOffcuts(t, bounds, h, lo, fill.remainders, g.kerf, u, at, strip.remainders);
    CommitCuts(t, bounds, h, lo, fill.cuts, g, u, at, strip.cuts);
    BoxesOfConcat(fill.placed, strip.placed);
    AllLegalConcat(fill.placed, strip.placed);
    t' := Graft(t, bounds, g.kerf, tail, StripTree(u, tail, h, at));
    BuildingFrom(t', bounds, h, at + g.kerf, fill', g);
  }

  lemma CommitTree(t: GTree, bounds: Box, h: bool, lo: int, S: seq<Box>, kerf: nat, u: GTree, at: int, B: seq<Box>)
    requires Solid(bounds) && Lo(bounds, h) <= lo < at <= Hi(bounds, h)
    requires var tail := WithLo(bounds, h, lo);
             && tail in Offcuts(t, bounds, kerf)
             && Frees(t, bounds, S, kerf)
             && Frees(u, WithHi(tail, h, at), B, kerf) && AllSolid(B)
    ensures var tail := WithLo(bounds, h, lo);
            Frees(Graft(t, bounds, kerf, tail, StripTree(u, tail, h, at)), bounds, S + B, kerf)
  {
    hide Frees, Offcuts, Graft, StripTree;
    var tail := WithLo(bounds, h, lo);
    StripInTail(u, tail, h, at, B, kerf);
    GraftFrees(t, bounds, S, kerf, tail, StripTree(u, tail, h, at), B);
  }

  /** The offcuts left after the strip, the new tail among them. */
  function TailAfter(bounds: Box, h: bool, lo: int): seq<Box> {
    if lo < Hi(bounds, h) then [WithLo(bounds, h, lo)] else []
  }

  lemma CommitOffcuts(t: GTree, bounds: Box, h: bool, lo: int, R: seq<Box>, kerf: nat, u: GTree, at: int, R': seq<Box>)
    requires Solid(bounds) && Lo(bounds, h) <= lo < at <= Hi(bounds, h)
    requires var tail := WithLo(bounds, h, lo);
             && tail in Offcuts(t, bounds, kerf)
             && multiset(R) + multiset{tail} <= multiset(Offcuts(t, bounds, kerf))
             && multiset(R') <= multiset(Offcuts(u, WithHi(tail, h, at), kerf))
    ensures var tail := WithLo(bounds, h, lo);
            multiset(R + R') + multiset(TailAfter(bounds, h, at + kerf)) <=
            multiset(Offcuts(Graft(t, bounds, kerf, tail, StripTree(u, tail, h, at)), bounds, kerf))
  {
    hide Offcuts, Graft, StripTree;
    var tail := WithLo(bounds, h, lo);
    var w := StripTree(u, tail, h, at);
    MovedTail(bounds, h, lo, at + kerf);
    StripOffcuts(u, tail, h, at, kerf);
    GraftOffcuts(t, bounds, kerf, tail, w);
    FillTail(R, tail, R', TailAfter(bounds, h, at + kerf), Offcuts(t, bounds, kerf),
             Offcuts(u, WithHi(tail, h, at), kerf), Offcuts(Graft(t, bounds, kerf, tail, w), bounds, kerf));
  }

  lemma CommitCuts(t: GTree, bounds: Box, h: bool, lo: int, C: seq<SawCut>, g: Config, u: GTree, at: int,
                   C': seq<SawCut>)
    requires Lo(bounds, h) <= lo < at <= Hi(bounds, h)
    requires var tail := WithLo(bounds, h, lo);
             && tail in Offcuts(t, bounds, g.kerf)
             && multiset(C) == multiset(PlanOf(t, bounds, g).cuts)
             && multiset(C') == multiset(PlanOf(u, WithHi(tail, h, at), g).cuts)
    ensures var tail := WithLo(bounds, h, lo);
            multiset(C + C' + if at < Hi(bounds, h) then [CutOf(tail, h, at)] else []) ==
            multiset(PlanOf(Graft(t, bounds, g.kerf, tail, StripTree(u, tail, h, at)), bounds, g).cuts)
  {
    hide PlanOf, Graft, StripTree, CutOf;
    var tail := WithLo(bounds, h, lo);
    MovedTail(bounds, h, lo, lo);
    StripCuts(u, tail, h, at, g);
    GraftPlan(t, bounds, g, tail, StripTree(u, tail, h, at));
    AddCuts(C, C', if at < Hi(bounds, h) then [CutOf(tail, h, at)] else [],
            PlanOf(t, bounds, g).cuts, PlanOf(u, WithHi(tail, h, at), g).cuts);
  }

  lemma MovedTail(bounds: Box, h: bool, lo: int, v: int)
    ensures WithLo(WithLo(bounds, h, lo), h, v) == WithLo(bounds, h, v)
    ensures Hi(WithLo(bounds, h, lo), h) == Hi(bounds, h) && Lo(WithLo(bounds, h, lo), h) == lo
  {
  }

  lemma BuildingParts(t: GTree, bounds: Box, h: bool, lo: int, fill: BinFill, g: Config)
    requires Building(t, bounds, h, lo, fill, g) && lo < Hi(bounds, h)
    ensures Frees(t, bounds, BoxesOf(fill.placed), g.kerf)
    ensures multiset(fill.cuts) == multiset(PlanOf(t, bounds, g).cuts)
    ensures multiset(fill.remainders) + multiset{WithLo(bounds, h, lo)} <= multiset(Offcuts(t, bounds, g.kerf))
    ensures WithLo(bounds, h, lo) in Offcuts(t, bounds, g.kerf)
    ensures forall p :: p in fill.placed ==> Legal(p) && ValidPiece(p.piece)
  {
    assert WithLo(bounds, h, lo) in multiset(fill.remainders) + multiset(TailAfter(bounds, h, lo));
    assert WithLo(bounds, h, lo) in multiset(Offcuts(t, bounds, g.kerf));
  }

  lemma BuildingFrom(t: GTree, bounds: Box, h: bool, lo: int, fill: BinFill, g: Config)
    requires Frees(t, bounds, BoxesOf(fill.placed), g.kerf)
    requires multiset(fill.cuts) == multiset(PlanOf(t, bounds, g).cuts)
    requires multiset(fill.remainders) + multiset(TailAfter(bounds, h, lo)) <= multiset(Offcuts(t, bounds, g.kerf))
    requires forall p :: p in fill.placed ==> Legal(p) && ValidPiece(p.piece)
    ensures Building(t, bounds, h, lo, fill, g)
  {
  }

  lemma RealizesParts(t: GTree, r: Box, fill: BinFill, g: Config)
    requires Realizes(t, r, fill, g)
    ensures Frees(t, r, BoxesOf(fill.placed), g.kerf) && AllSolid(BoxesOf(fill.placed))
    ensures multiset(fill.cuts) == multiset(PlanOf(t, r, g).cuts)
    ensures multiset(fill.remainders) <= multiset(Offcuts(t, r, g.kerf))
    ensures forall p :: p in fill.placed ==> Legal(p) && ValidPiece(p.piece)
  {
    LegalSolid(fill.placed);
  }

  lemma AllLegalConcat(A: seq<Placed>, B: seq<Placed>)
    requires forall p :: p in A ==> Legal(p) && ValidPiece(p.piece)
    requires forall p :: p in B ==> Legal(p) && ValidPiece(p.piece)
    ensures forall p :: p in A + B ==> Legal(p) && ValidPiece(p.piece)
  {
  }

  lemma AddCuts<T>(A: seq<T>, B: seq<T>, c: seq<T>, P: seq<T>, Q: seq<T>)
    requires multiset(A) == multiset(P) && multiset(B) == multiset(Q)
    ensures multiset(A + B + c) == multiset(P) + multiset(c + Q)
  {
  }

  lemma FillTail<T>(R: seq<T>, tail: T, R': seq<T>, rest: seq<T>, O: seq<T>, U: seq<T>, O': seq<T>)
    requires multiset(R) + multiset{tail} <= multiset(O) && multiset(R') <= multiset(U)
    requires multiset(O') == multiset(O) - multiset{tail} + multiset(U + rest)
    ensures multiset(R + R') + multiset(rest) <= multiset(O')
  {
    assert multiset(U + rest) == multiset(U) + multiset(rest);
  }

  lemma LegalSolid(ps: seq<Placed>)
    requires forall p :: p in ps ==> Legal(p) && ValidPiece(p.piece)
    ensures AllSolid(BoxesOf(ps))
  {
    var S := BoxesOf(ps);
    forall b | b in S ensures Solid(b) {
      var i :| 0 <= i < |S| && S[i] == b;
      assert ps[i] in ps;
    }
  }

  lemma BoxesOfConcat(A: seq<Placed>, B: seq<Placed>)
    ensures BoxesOf(A + B) == BoxesOf(A) + BoxesOf(B)
  {
  }

  // ---- piece types and pools -----------------------------------------------------

  /** Two pieces of one type are interchangeable. */
  datatype PieceType = PieceType(width: int, height: int, canRotate: bool, priority: int)

  function TypeOf(p: Piece): PieceType {
    PieceType(p.width, p.height, p.canRotate, p.priority)
  }

  /** The identity of a fill: which piece types it holds, and how many of each. */
  function Signature(ps: seq<Piece>): multiset<PieceType> {
    if ps == [] then multiset{} else Signature(ps[..|ps|-1]) + multiset{TypeOf(ps[|ps|-1])}
  }

  lemma {:induction false} SignatureConcat(A: seq<Piece>, B: seq<Piece>)
    ensures Signature(A + B) == Signature(A) + Signature(B)
  {
    if B == [] {
      assert A + B == A;
    } else {
      assert (A + B)[..|A + B|-1] == A + B[..|B|-1];
      SignatureConcat(A, B[..|B|-1]);
    }
  }

  predicate HasId(ps: seq<Placed>, id: string) {
    exists q :: q in ps && q.piece.id == id
  }

  /** The pool without the pieces whose ids were placed. */
  function DropPlaced(pool: seq<Piece>, placed: seq<Placed>): (rest: seq<Piece>)
    ensures |rest| <= |pool| && forall p :: p in rest ==> p in pool
  {
    if pool == [] then []
    else
      var p := pool[|pool|-1];
      DropPlaced(pool[..|pool|-1], placed) + if HasId(placed, p.id) then [] else [p]
  }

  lemma {:induction false} DropPlacedCount(pool: seq<Piece>, placed: seq<Placed>, p: Piece)
    ensures multiset(DropPlaced(pool, placed))[p] == if HasId(placed, p.id) then 0 else multiset(pool)[p]
  {
    if pool != [] {
      DropPlacedCount(pool[..|pool|-1], placed, p);
      assert pool == pool[..|pool|-1] + [pool[|pool|-1]];
      hide HasId;
    }
  }

  lemma PlacedPieceHasId(ps: seq<Placed>, p: Piece)
    requires p in PiecesOf(ps)
    ensures HasId(ps, p.id)
  {
    var i :| 0 <= i < |ps| && PiecesOf(ps)[i] == p;
    assert ps[i] in ps;
  }

  /** Taking placed pieces out of the pool duplicates none, and shrinks the pool. */
  lemma DropPlacedConserves(pool: seq<Piece>, placed: seq<Placed>)
    requires multiset(PiecesOf(placed)) <= multiset(pool)
    ensures multiset(PiecesOf(placed)) + multiset(DropPlaced(pool, placed)) <= multiset(pool)
    ensures placed != [] ==> |DropPlaced(pool, placed)| < |pool|
  {
    var P, D := multiset(PiecesOf(placed)), multiset(DropPlaced(pool, placed));
    forall p ensures (P + D)[p] <= multiset(pool)[p] {
      DropPlacedCount(pool, placed, p);
      if p in P { PlacedPieceHasId(placed, p); }
    }
    assert P + D <= multiset(pool);
    SubsetLength(PiecesOf(placed) + DropPlaced(pool, placed), pool);
  }

  lemma SubsetLength<T>(A: seq<T>, B: seq<T>)
    requires multiset(A) <= multiset(B)
    ensures |A| <= |B|
  {
    assert |multiset(A)| == |A| && |multiset(B)| == |B|;
    assert multiset(B) == multiset(A) + (multiset(B) - multiset(A));
  }

  lemma PartOf<T>(A: multiset<T>, B: multiset<T>, C: multiset<T>, D: multiset<T>)
    requires A + B == C && C <= D
    ensures A <= D
  {
  }

  // ---- candidates ------------------------------------------------------------------

  /** Distinct piece dimensions a strip may take, descending. */
  function StripDims(pool: seq<Piece>, limit: int, across: bool): seq<int> {
    Reverse(AscendingDims(pool, limit, across))
  }

  function Reverse(xs: seq<int>): seq<int> {
    if xs == [] then [] else [xs[|xs|-1]] + Reverse(xs[..|xs|-1])
  }

  function AscendingDims(pool: seq<Piece>, limit: int, across: bool): (xs: seq<int>)
    ensures Ascending(xs)
  {
    if pool == [] then []
    else
      var p, rest := pool[|pool|-1], AscendingDims(pool[..|pool|-1], limit, across);
      var primary, secondary := if across then p.height else p.width, if across then p.width else p.height;
      var some := if primary <= limit then Insert(rest, primary) else rest;
      if p.canRotate && secondary <= limit then Insert(some, secondary) else some
  }

  function Fitting(pool: seq<Piece>, r: Box): (ps: seq<Piece>)
    ensures forall p :: p in ps <==> p in pool && FitsPiece(r, p)
    ensures multiset(ps) <= multiset(pool)
  {
    if pool == [] then []
    else
      assert pool == pool[..|pool|-1] + [pool[|pool|-1]];
      Fitting(pool[..|pool|-1], r) + if FitsPiece(r, pool[|pool|-1]) then [pool[|pool|-1]] else []
  }

  function UsedArea(ps: seq<Placed>): int {
    if ps == [] then 0 else UsedArea(ps[..|ps|-1]) + ps[|ps|-1].width * ps[|ps|-1].height
  }

  /** Denser first, then fuller, then narrower. */
  predicate DenserStrip(used: int, area: int, size: int, used': int, area': int, size': int) {
    || used * area' > used' * area
    || (used * area' == used' * area && (used > used' || (used == used' && size < size')))
  }

  /** The order pieces go into a strip of a given depth. */
  type StripOrder = (int, seq<Piece>) -> seq<Piece>

  ghost predicate IsStripOrder(order: StripOrder) {
    forall depth: int, ps: seq<Piece> :: multiset(order(depth, ps)) == multiset(ps)
  }

  /** What is the same for all strips of one sheet. */
  datatype StripRules = StripRules(span: int, h: bool, kerf: nat, order: StripOrder, minRect: int,
                                   maxRepeat: Option<int>)

  function StripWidth(span: int, size: int, h: bool): int {
    if h then span else size
  }

  function StripHeight(span: int, size: int, h: bool): int {
    if h then size else span
  }

  function StripBox(size: int, j: StripRules): Box {
    Box(0, 0, StripWidth(j.span, size, j.h), StripHeight(j.span, size, j.h))
  }

  function StripConfig(j: StripRules): Config {
    Config(j.kerf, Max(1, j.minRect), 0)
  }

  /** The packer run on a strip of its own, in its own coordinates; none when nothing goes
      in. */
  function StripOf(size: int, pool: seq<Piece>, j: StripRules): Option<BinFill> {
    var r := StripBox(size, j);
    var fitting := Fitting(pool, r);
    if r.x1 <= 0 || r.y1 <= 0 || fitting == [] then None
    else
      var s := PackAll(Packing([r], [], []), j.order(size, fitting), ShorterLeftoverAxis, BestAreaFit, StripConfig(j));
      if s.placed == [] then None else Some(BinFill(s.placed, s.gaps, s.cuts))
  }

  /** No piece left out fits a gap that is left. */
  ghost predicate Filled(strip: BinFill, pool: seq<Piece>) {
    forall q, r :: q in multiset(pool) - multiset(PiecesOf(strip.placed)) && r in strip.remainders ==> !FitsPiece(r, q)
  }

  /** One strip packed on its own, in its own coordinates. */
  method PackStrip(size: int, pool: seq<Piece>, j: StripRules) returns (strip: Option<BinFill>, ghost tree: GTree)
    requires AllValid(pool) && IsStripOrder(j.order)
    ensures strip == StripOf(size, pool, j)
    ensures strip.Some? ==>
              && size > 0 && j.span > 0 && strip.value.placed != []
              && multiset(PiecesOf(strip.value.placed)) <= multiset(pool) && Filled(strip.value, pool)
              && Realizes(tree, StripBox(size, j), strip.value, StripConfig(j))
    ensures strip.None? && size > 0 && j.span > 0 ==> NoneGoes(pool, size, j)
  {
    hide Realizes, PiecesOf, Fitting, FitsPiece, Filled, PackAll;
    strip, tree := None, Empty;
    var r := StripBox(size, j);
    if r.x1 > 0 && r.y1 > 0 {
      var fitting := Fitting(pool, r);
      if fitting != [] {
        strip, tree := PackFitting(size, fitting, j);
        if strip.Some? { StillFilled(strip.value, tree, fitting, pool, r, StripConfig(j)); }
      }
    }
  }

  method PackFitting(size: int, fitting: seq<Piece>, j: StripRules) returns (strip: Option<BinFill>, ghost tree: GTree)
    requires AllValid(fitting) && IsStripOrder(j.order) && size > 0 && j.span > 0
    requires forall q :: q in fitting ==> FitsPiece(StripBox(size, j), q)
    ensures var s := PackAll(Packing([StripBox(size, j)], [], []), j.order(size, fitting), ShorterLeftoverAxis,
                             BestAreaFit, StripConfig(j));
            strip == if s.placed == [] then None else Some(BinFill(s.placed, s.gaps, s.cuts))
    ensures strip.None? ==> fitting == []
    ensures strip.Some? ==>
              && strip.value.placed != []
              && multiset(PiecesOf(strip.value.placed)) <= multiset(fitting) && Filled(strip.value, fitting)
              && Realizes(tree, StripBox(size, j), strip.value, StripConfig(j))
  {
    hide Tracks, Realizes, PiecesOf, FitsPiece, NoneFits, Filled, PackAll;
    var ordered := j.order(size, fitting);
    assert multiset(ordered) == multiset(fitting);
    StillValid(ordered, fitting);
    NoPieces();
    var r := StripBox(size, j);
    var packer := new GuillotineOptimizer(r.x1, r.y1, Params(j.kerf, 0, 0, 0, 0), ShorterLeftoverAxis, j.minRect,
                                          BestAreaFit);
    assert packer.bounds == r && packer.State() == Packing([r], [], []);
    var rest := packer.Optimize(ordered);
    strip := if packer.placed == [] then None else Some(BinFill(packer.placed, packer.remainders, packer.cuts));
    tree := packer.tree;
    TracksRealizes(packer.tree, packer.bounds, packer.placed, packer.remainders, packer.cuts, packer.g);
    PartOf(multiset(PiecesOf(packer.placed)), multiset(rest), multiset(fitting), multiset(fitting));
    FilledBy(BinFill(packer.placed, packer.remainders, packer.cuts), rest, fitting);
    if packer.placed == [] && fitting != [] {
      assert fitting[0] in multiset(fitting) && fitting[0] in multiset(rest);
      FittingOne(rest, packer.remainders, fitting[0], packer.bounds);
    }
  }

  lemma StillValid(ordered: seq<Piece>, ps: seq<Piece>)
    requires multiset(ordered) == multiset(ps) && AllValid(ps)
    ensures AllValid(ordered)
  {
    forall p | p in ordered ensures ValidPiece(p) { assert p in multiset(ordered); }
  }

  lemma FilledBy(strip: BinFill, rest: seq<Piece>, pool: seq<Piece>)
    requires NoneFits(rest, strip.remainders)
    requires multiset(PiecesOf(strip.placed)) + multiset(rest) == multiset(pool)
    ensures Filled(strip, pool)
  {
    hide FitsPiece, PiecesOf;
    forall q, r | q in multiset(pool) - multiset(PiecesOf(strip.placed)) && r in strip.remainders
      ensures !FitsPiece(r, q)
    {
      assert q in multiset(rest);
    }
  }

  lemma FittingNext(pool: seq<Piece>, r: Box)
    ensures pool == [] ==> Fitting(pool, r) == []
    ensures pool != [] ==>
              var init, last := pool[..|pool|-1], pool[|pool|-1];
              Fitting(pool, r) == Fitting(init, r) + if FitsPiece(r, last) then [last] else []
  {
    hide FitsPiece;
  }

  lemma {:induction false} FittingCount(pool: seq<Piece>, r: Box, q: Piece)
    ensures multiset(Fitting(pool, r))[q] == if FitsPiece(r, q) then multiset(pool)[q] else 0
  {
    hide FitsPiece, Fitting;
    FittingNext(pool, r);
    if pool != [] {
      FittingCount(pool[..|pool|-1], r, q);
      assert pool == pool[..|pool|-1] + [pool[|pool|-1]];
    }
  }

  /** What does not go into the strip fits no gap in it either. */
  lemma StillFilled(strip: BinFill, t: GTree, fitting: seq<Piece>, pool: seq<Piece>, r: Box, g: Config)
    requires fitting == Fitting(pool, r) && Filled(strip, fitting) && Realizes(t, r, strip, g)
    ensures Filled(strip, pool)
  {
    hide FitsPiece, PiecesOf, Fitting, Frees, PlanOf, Offcuts, BoxesOf;
    forall q, gap | q in multiset(pool) - multiset(PiecesOf(strip.placed)) && gap in strip.remainders
      ensures !FitsPiece(gap, q)
    {
      FittingCount(pool, r, q);
      if FitsPiece(r, q) {
        assert q in multiset(fitting) - multiset(PiecesOf(strip.placed));
      } else {
        assert gap in multiset(strip.remainders);
        OffcutInside(t, r, BoxesOf(strip.placed), g.kerf, gap);
        FitsLarger(gap, r, q);
      }
    }
  }

  lemma FitsLarger(a: Box, b: Box, q: Piece)
    requires Inside(a, b)
    ensures FitsPiece(a, q) ==> FitsPiece(b, q)
  {
  }

  lemma FittingOne(rest: seq<Piece>, gaps: seq<Box>, p: Piece, r: Box)
    requires NoneFits(rest, gaps) && p in rest && r in gaps
    ensures !FitsPiece(r, p)
  {
  }

  // ---- the strip loop ---------------------------------------------------------------

  datatype Choice = Choice(size: int, strip: BinFill)

  /** How often each strip content has been committed. */
  type Tally = map<multiset<PieceType>, int>

  /** A strip that may be committed: packed from the pool, and not one of too many
      with the same content. */
  ghost predicate Committable(c: Choice, t: GTree, pool: seq<Piece>, room: int, j: StripRules, repeats: Tally) {
    && 0 < c.size <= room && j.span > 0 && c.strip.placed != []
    && multiset(PiecesOf(c.strip.placed)) <= multiset(pool) && Filled(c.strip, pool)
    && Realizes(t, StripBox(c.size, j), c.strip, StripConfig(j))
    && (j.maxRepeat.Some? ==> Repeats(repeats, Signature(PiecesOf(c.strip.placed))) < j.maxRepeat.value)
  }

  function Repeats(repeats: Tally, sig: multiset<PieceType>): int {
    if sig in repeats then repeats[sig] else 0
  }

  /** No piece goes into a strip of this size. */
  predicate NoneGoes(ps: seq<Piece>, size: int, j: StripRules) {
    forall q :: q in ps ==> !FitsPiece(StripBox(size, j), q)
  }

  predicate Denser(a: Choice, b: Choice, j: StripRules) {
    DenserStrip(UsedArea(a.strip.placed), StripWidth(j.span, a.size, j.h) * StripHeight(j.span, a.size, j.h), a.size,
                UsedArea(b.strip.placed), StripWidth(j.span, b.size, j.h) * StripHeight(j.span, b.size, j.h), b.size)
  }

  /** What the strip of one size offers, unless its content has been repeated too often. */
  function ChoiceFor(size: int, pool: seq<Piece>, j: StripRules, repeats: Tally): Option<Choice> {
    var strip := StripOf(size, pool, j);
    if strip.Some? && (j.maxRepeat.None?
                       || Repeats(repeats, Signature(PiecesOf(strip.value.placed))) < j.maxRepeat.value)
    then Some(Choice(size, strip.value)) else None
  }

  /** The densest of the sizes, the first of equals. */
  function DensestOf(sizes: seq<int>, pool: seq<Piece>, j: StripRules, repeats: Tally): Option<Choice> {
    if sizes == [] then None
    else
      var best, c := DensestOf(sizes[..|sizes|-1], pool, j, repeats), ChoiceFor(sizes[|sizes|-1], pool, j, repeats);
      if c.Some? && (best.None? || Denser(c.value, best.value, j)) then c else best
  }

  /** Comparing densities by cross-multiplying is transitive. */
  lemma CrossAtMost(u1: int, a1: int, u2: int, a2: int, u3: int, a3: int)
    requires a1 > 0 && a2 > 0 && a3 > 0 && u3 * a2 <= u2 * a3 && u2 * a1 <= u1 * a2
    ensures u3 * a1 <= u1 * a3
    ensures u3 * a2 < u2 * a3 || u2 * a1 < u1 * a2 ==> u3 * a1 < u1 * a3
    ensures u3 * a2 == u2 * a3 && u2 * a1 == u1 * a2 ==> u3 * a1 == u1 * a3
  {
    ScaleBoth(u3 * a2, u2 * a3, a1);
    ScaleBoth(u2 * a1, u1 * a2, a3);
    Regroup3(u3, a2, a1);
    Regroup3(u2, a3, a1);
    Regroup3(u1, a2, a3);
    ScaleBoth(u3 * a1, u1 * a3, a2);
    ScaleBoth(u1 * a3, u3 * a1, a2);
  }

  lemma Regroup3(u: int, a: int, b: int)
    ensures u * a * b == u * b * a
  {
  }

  lemma ScaleBoth(x: int, y: int, a: int)
    requires a > 0
    ensures x < y ==> x * a < y * a
    ensures x == y ==> x * a == y * a
  {
  }

  /** What is no denser than `b` is no denser than what is denser than `b`. */
  lemma DenserStays(u1: int, a1: int, s1: int, u2: int, a2: int, s2: int, u3: int, a3: int, s3: int)
    requires a1 > 0 && a2 > 0 && a3 > 0
    requires DenserStrip(u1, a1, s1, u2, a2, s2) && !DenserStrip(u3, a3, s3, u2, a2, s2)
    ensures !DenserStrip(u3, a3, s3, u1, a1, s1)
  {
    CrossAtMost(u1, a1, u2, a2, u3, a3);
  }

  lemma StripArea(span: int, size: int, h: bool)
    requires span > 0 && size > 0
    ensures StripWidth(span, size, h) * StripHeight(span, size, h) > 0
  {
  }

  lemma StaysDensest(a: Choice, b: Choice, c: Choice, j: StripRules)
    requires j.span > 0 && a.size > 0 && b.size > 0 && c.size > 0 && Denser(c, b, j) && !Denser(a, b, j)
    ensures !Denser(a, c, j)
  {
    hide DenserStrip;
    StripArea(j.span, a.size, j.h);
    StripArea(j.span, b.size, j.h);
    StripArea(j.span, c.size, j.h);
    DenserStays(UsedArea(c.strip.placed), StripWidth(j.span, c.size, j.h) * StripHeight(j.span, c.size, j.h), c.size,
                UsedArea(b.strip.placed), StripWidth(j.span, b.size, j.h) * StripHeight(j.span, b.size, j.h), b.size,
                UsedArea(a.strip.placed), StripWidth(j.span, a.size, j.h) * StripHeight(j.span, a.size, j.h), a.size);
  }

  lemma NotDenserThanItself(c: Choice, j: StripRules)
    ensures !Denser(c, c, j)
  {
  }

  lemma ChoiceIsSized(size: int, pool: seq<Piece>, j: StripRules, repeats: Tally)
    ensures var c := ChoiceFor(size, pool, j, repeats); c.Some? ==> c.value.size == size > 0 && j.span > 0
  {
    hide PackAll, Fitting, Signature, PiecesOf;
  }

  /** Nothing offered is denser than the strip taken. */
  lemma {:induction false} DensestIs(sizes: seq<int>, pool: seq<Piece>, j: StripRules, repeats: Tally)
    ensures var best := DensestOf(sizes, pool, j, repeats);
            && (best.Some? ==> best.value.size in sizes && best == ChoiceFor(best.value.size, pool, j, repeats))
            && (forall size :: size in sizes && ChoiceFor(size, pool, j, repeats).Some? ==>
                  best.Some? && !Denser(ChoiceFor(size, pool, j, repeats).value, best.value, j))
  {
    hide ChoiceFor, Denser;
    if sizes != [] {
      var init, last := sizes[..|sizes|-1], sizes[|sizes|-1];
      assert sizes == init + [last];
      DensestIs(init, pool, j, repeats);
      ChoiceIsSized(last, pool, j, repeats);
      var best, c := DensestOf(init, pool, j, repeats), ChoiceFor(last, pool, j, repeats);
      if c.Some? { NotDenserThanItself(c.value, j); }
      if c.Some? && best.Some? && Denser(c.value, best.value, j) {
        forall size | size in init && ChoiceFor(size, pool, j, repeats).Some?
          ensures !Denser(ChoiceFor(size, pool, j, repeats).value, c.value, j)
        {
          ChoiceIsSized(size, pool, j, repeats);
          ChoiceIsSized(best.value.size, pool, j, repeats);
          StaysDensest(ChoiceFor(size, pool, j, repeats).value, best.value, c.value, j);
        }
      }
    }
  }

  /** The densest of the candidate strips. */
  method BestStrip(sizes: seq<int>, pool: seq<Piece>, room: int, j: StripRules, repeats: Tally)
    returns (best: Option<Choice>, ghost tree: GTree)
    requires AllValid(pool) && IsStripOrder(j.order)
    requires forall size :: size in sizes ==> size <= room
    ensures best == DensestOf(sizes, pool, j, repeats)
    ensures best.Some? ==> Committable(best.value, tree, pool, room, j, repeats)
    ensures best.None? && j.maxRepeat.None? && j.span > 0 ==>
              forall size :: size in sizes && size > 0 ==> NoneGoes(pool, size, j)
  {
    hide Realizes, PiecesOf, Signature, NoneGoes, Denser, StripOf, Filled;
    best, tree := None, Empty;
    for k := 0 to |sizes|
      invariant best == DensestOf(sizes[..k], pool, j, repeats)
      invariant best.Some? ==> Committable(best.value, tree, pool, room, j, repeats)
      invariant best.None? && j.maxRepeat.None? && j.span > 0 ==>
                  forall i :: 0 <= i < k && sizes[i] > 0 ==> NoneGoes(pool, sizes[i], j)
    {
      var size := sizes[k];
      assert size in sizes && sizes[..k+1][..k] == sizes[..k];
      var strip, t := PackStrip(size, pool, j);
      if strip.Some? && (j.maxRepeat.None?
                         || Repeats(repeats, Signature(PiecesOf(strip.value.placed))) < j.maxRepeat.value) {
        if best.None? || Denser(Choice(size, strip.value), best.value, j) {
          best, tree := Some(Choice(size, strip.value)), t;
        }
      }
    }
    assert sizes[..|sizes|] == sizes;
  }

  lemma BuildingEnd(t: GTree, bounds: Box, h: bool, lo: int, lo': int, fill: BinFill, g: Config)
    requires Building(t, bounds, h, lo, fill, g) && lo >= Hi(bounds, h) && lo' >= Hi(bounds, h)
    ensures Building(t, bounds, h, lo', fill, g)
  {
  }

  lemma BuildingDone(t: GTree, bounds: Box, h: bool, lo: int, fill: BinFill, g: Config)
    requires Building(t, bounds, h, lo, fill, g)
    ensures Realizes(t, bounds, fill, g)
    ensures lo < Hi(bounds, h) ==>
            Realizes(t, bounds, fill.(remainders := fill.remainders + [WithLo(bounds, h, lo)]), g)
  {
    hide Frees, Offcuts, PlanOf, BoxesOf;
  }

  lemma BuildingNothing(bounds: Box, h: bool, g: Config)
    requires Solid(bounds)
    ensures Building(Empty, bounds, h, Lo(bounds, h), BinFill([], [], []), g)
  {
    MovedTail(bounds, h, Lo(bounds, h), Lo(bounds, h));
    assert WithLo(bounds, h, Lo(bounds, h)) == bounds;
    assert BoxesOf([]) == [];
  }

  lemma {:induction false} ReverseMembers(xs: seq<int>)
    ensures forall x :: x in Reverse(xs) <==> x in xs
  {
    if xs != [] {
      ReverseMembers(xs[..|xs|-1]);
      assert xs == xs[..|xs|-1] + [xs[|xs|-1]];
    }
  }

  lemma {:induction false} AscendingDimsWithin(pool: seq<Piece>, limit: int, across: bool)
    ensures forall x :: x in AscendingDims(pool, limit, across) ==> x <= limit
  {
    if pool != [] {
      AscendingDimsWithin(pool[..|pool|-1], limit, across);
    }
  }

  /** A dimension a piece may have across the strips. */
  predicate HasDim(q: Piece, size: int, across: bool) {
    size == (if across then q.height else q.width) || (q.canRotate && size == if across then q.width else q.height)
  }

  lemma {:induction false} DimsOfPieces(pool: seq<Piece>, limit: int, across: bool, x: int)
    requires x in AscendingDims(pool, limit, across)
    ensures exists q :: q in pool && HasDim(q, x, across)
  {
    var init, p := pool[..|pool|-1], pool[|pool|-1];
    assert p in pool && forall q :: q in init ==> q in pool;
    if x in AscendingDims(init, limit, across) {
      DimsOfPieces(init, limit, across, x);
    } else {
      assert HasDim(p, x, across);
    }
  }

  lemma DimsOfLast(pool: seq<Piece>, limit: int, across: bool, x: int)
    requires pool != []
    ensures x in AscendingDims(pool, limit, across) <==>
            x in AscendingDims(pool[..|pool|-1], limit, across) || (HasDim(pool[|pool|-1], x, across) && x <= limit)
  {
    var p, rest := pool[|pool|-1], AscendingDims(pool[..|pool|-1], limit, across);
    var primary := if across then p.height else p.width;
    var some := if primary <= limit then Insert(rest, primary) else rest;
    assert x in some <==> x in rest || (x == primary && primary <= limit);
  }

  lemma {:induction false} EveryDimListed(pool: seq<Piece>, limit: int, across: bool, q: Piece, x: int)
    requires q in pool && HasDim(q, x, across) && x <= limit
    ensures x in AscendingDims(pool, limit, across)
  {
    hide HasDim, AscendingDims;
    DimsOfLast(pool, limit, across, x);
    if q != pool[|pool|-1] { EveryDimListed(pool[..|pool|-1], limit, across, q, x); }
  }

  /** A strip is as deep as some piece, or takes up all the room; the first may be given
      a depth. */
  predicate Offered(size: int, pool: seq<Piece>, room: int, h: bool, firstDim: Option<int>) {
    if firstDim.Some? && firstDim.value <= room then size == firstDim.value
    else size == room || exists q :: q in pool && HasDim(q, size, h)
  }

  lemma StripDimsOf(pool: seq<Piece>, limit: int, across: bool)
    ensures forall x :: x in StripDims(pool, limit, across) ==> exists q :: q in pool && HasDim(q, x, across)
  {
    hide HasDim;
    ReverseMembers(AscendingDims(pool, limit, across));
    forall x | x in AscendingDims(pool, limit, across) ensures exists q :: q in pool && HasDim(q, x, across) {
      DimsOfPieces(pool, limit, across, x);
    }
  }

  lemma StripDimsWithin(pool: seq<Piece>, limit: int, across: bool)
    ensures forall x :: x in StripDims(pool, limit, across) ==> x <= limit
  {
    AscendingDimsWithin(pool, limit, across);
    ReverseMembers(AscendingDims(pool, limit, across));
  }

  /** Moving a packed strip to the cursor and committing it there. */
  lemma CommitTranslated(t: GTree, bounds: Box, h: bool, cursor: int, fill: BinFill, g: Config, u: GTree, size: int,
                         strip: BinFill, fill': BinFill) returns (t': GTree)
    requires Building(t, bounds, h, Lo(bounds, h) + cursor, fill, g) && Solid(bounds)
    requires 0 <= cursor && 0 < size && cursor + size <= Hi(bounds, h) - Lo(bounds, h)
    requires var span := Hi(bounds, !h) - Lo(bounds, !h);
             Realizes(u, Box(0, 0, StripWidth(span, size, h), StripHeight(span, size, h)), strip, g)
    requires var lo := Lo(bounds, h) + cursor;
             var moved := Translate(strip, if h then bounds.x0 else lo, if h then lo else bounds.y0);
             && fill'.placed == fill.placed + moved.placed
             && fill'.remainders == fill.remainders + moved.remainders
             && fill'.cuts == fill.cuts + moved.cuts
                              + if lo + size < Hi(bounds, h) then [CutOf(WithLo(bounds, h, lo), h, lo + size)] else []
    ensures var advance := if cursor + size < Hi(bounds, h) - Lo(bounds, h) then size + g.kerf else size;
            Building(t', bounds, h, Lo(bounds, h) + (cursor + advance), fill', g)
  {
    hide Building, Realizes, Translate, CutOf;
    var lo := Lo(bounds, h) + cursor;
    var at := lo + size;
    var dx, dy := if h then bounds.x0 else lo, if h then lo else bounds.y0;
    var span := Hi(bounds, !h) - Lo(bounds, !h);
    var here := Box(0, 0, StripWidth(span, size, h), StripHeight(span, size, h));
    TranslateRealizes(u, here, strip, g, dx, dy);
    assert Shift(here, dx, dy) == WithHi(WithLo(bounds, h, lo), h, at);
    t' := CommitStrip(t, bounds, h, lo, fill, g, ShiftTree(u, dx, dy), at, Translate(strip, dx, dy), fill');
    if at == Hi(bounds, h) {
      BuildingEnd(t', bounds, h, at + g.kerf, at, fill', g);
    }
  }

  lemma PiecesOfShifted(A: seq<Placed>, B: seq<Placed>, dx: int, dy: int)
    ensures PiecesOf(A + ShiftPieces(B, dx, dy)) == PiecesOf(A) + PiecesOf(B)
  {
  }

  /** The pieces of a committed strip leave the pool and enter the fill. */
  lemma TakeStrip(pool: seq<Piece>, placed: seq<Placed>, remaining: seq<Piece>, strip: seq<Placed>, all: seq<Placed>)
    requires multiset(PiecesOf(placed)) + multiset(remaining) <= multiset(pool)
    requires multiset(PiecesOf(strip)) <= multiset(remaining) && strip != [] && AllValid(remaining)
    requires PiecesOf(all) == PiecesOf(placed) + PiecesOf(strip)
    ensures var rest := DropPlaced(remaining, strip);
            && multiset(PiecesOf(all)) + multiset(rest) <= multiset(pool)
            && |rest| < |remaining| && AllValid(rest)
  {
    hide PiecesOf, DropPlaced;
    DropPlacedConserves(remaining, strip);
    MoveOver(multiset(PiecesOf(placed)), multiset(PiecesOf(strip)), multiset(DropPlaced(remaining, strip)),
             multiset(remaining), multiset(pool));
  }

  lemma MoveOver<T>(A: multiset<T>, B: multiset<T>, C: multiset<T>, R: multiset<T>, P: multiset<T>)
    requires A + R <= P && B + C <= R
    ensures A + B + C <= P
  {
  }

  /** The counts are the number of strips of each content, none above the cap. */
  ghost predicate Counted(repeats: map<multiset<PieceType>, int>, strips: seq<multiset<PieceType>>,
                          maxRepeat: Option<int>) {
    maxRepeat.Some? ==> forall s :: multiset(strips)[s] == Repeats(repeats, s) <= Max(0, maxRepeat.value)
  }

  lemma CountNothing(maxRepeat: Option<int>)
    ensures Counted(map[], [], maxRepeat)
  {
  }

  lemma CountedWithin(repeats: map<multiset<PieceType>, int>, strips: seq<multiset<PieceType>>, maxRepeat: Option<int>)
    requires Counted(repeats, strips, maxRepeat)
    ensures maxRepeat.Some? ==> forall s :: multiset(strips)[s] <= Max(0, maxRepeat.value)
  {
  }

  lemma CountStrip(repeats: map<multiset<PieceType>, int>, strips: seq<multiset<PieceType>>, sig: multiset<PieceType>,
                   maxRepeat: Option<int>)
    requires Counted(repeats, strips, maxRepeat)
    requires maxRepeat.Some? ==> Repeats(repeats, sig) < maxRepeat.value
    ensures Counted(if maxRepeat.Some? then repeats[sig := Repeats(repeats, sig) + 1] else repeats, strips + [sig],
                    maxRepeat)
  {
  }

  lemma RoomIn(bounds: Box, h: bool)
    ensures Width(bounds) > 0 && Height(bounds) > 0 ==> Solid(bounds)
  {
  }

  /** A piece no deeper than a strip, one way round or the other. */
  predicate FitsDepth(q: Piece, limit: int, across: bool) {
    (if across then q.height else q.width) <= limit || (q.canRotate && (if across then q.width else q.height) <= limit)
  }

  lemma {:induction false} NoAscendingDims(pool: seq<Piece>, limit: int, across: bool)
    requires AscendingDims(pool, limit, across) == []
    ensures forall q :: q in pool ==> !FitsDepth(q, limit, across)
  {
    if pool != [] {
      var init, p := pool[..|pool|-1], pool[|pool|-1];
      var rest := AscendingDims(init, limit, across);
      var primary := if across then p.height else p.width;
      var some := if primary <= limit then Insert(rest, primary) else rest;
      assert primary <= limit ==> primary in some;
      assert forall x :: x in some ==> x in AscendingDims(pool, limit, across);
      assert some == [] && rest == [];
      NoAscendingDims(init, limit, across);
    }
  }

  lemma NoStripDims(pool: seq<Piece>, limit: int, across: bool)
    ensures StripDims(pool, limit, across) == [] ==> forall q :: q in pool ==> !FitsDepth(q, limit, across)
  {
    if StripDims(pool, limit, across) == [] { NoAscendingDims(pool, limit, across); }
  }

  lemma TooDeep(pool: seq<Piece>, size: int, j: StripRules)
    requires forall q :: q in pool ==> !FitsDepth(q, size, j.h)
    ensures NoneGoes(pool, size, j)
  {
  }

  /** The strip sizes worth trying: the piece dimensions and the whole remaining
      room, or only the size the caller asks the first strip to have. */
  function SizesOf(remaining: seq<Piece>, room: int, h: bool, firstDim: Option<int>): seq<int> {
    var dims := StripDims(remaining, room, h);
    if dims == [] then []
    else if firstDim.Some? && firstDim.value <= room then [firstDim.value]
    else if room in dims then dims else dims + [room]
  }

  /** A depth a strip may have: that of a piece left, or all the room. */
  predicate IsDepth(size: int, left: seq<Piece>, room: int, h: bool) {
    0 < size && (size == room || (size < room && exists q :: q in left && HasDim(q, size, h)))
  }

  /** Every such depth is tried, unless the first strip is given one or no piece goes in. */
  lemma EveryDepthIsTried(left: seq<Piece>, room: int, h: bool, firstDim: Option<int>, size: int)
    requires IsDepth(size, left, room, h) && StripDims(left, room, h) != []
    requires !(firstDim.Some? && firstDim.value <= room)
    ensures size in SizesOf(left, room, h, firstDim)
  {
    hide HasDim, AscendingDims;
    ReverseMembers(AscendingDims(left, room, h));
    if size != room {
      var q :| q in left && HasDim(q, size, h);
      EveryDimListed(left, room, h, q, size);
    }
  }

  /** Without a piece dimension within the room nothing goes into any strip. */
  lemma NothingToTry(left: seq<Piece>, room: int, size: int, j: StripRules)
    requires StripDims(left, room, j.h) == [] && size <= room
    ensures StripOf(size, left, j).None?
  {
    NoStripDims(left, room, j.h);
    hide StripDims;
    var r := StripBox(size, j);
    forall q | q in left ensures !FitsPiece(r, q) { assert !FitsDepth(q, room, j.h); }
    NoneFitting(left, r);
  }

  lemma {:induction false} NoneFitting(pool: seq<Piece>, r: Box)
    requires forall q :: q in pool ==> !FitsPiece(r, q)
    ensures Fitting(pool, r) == []
  {
    hide FitsPiece;
    if pool != [] { NoneFitting(pool[..|pool|-1], r); }
  }

  /** The strip taken next. */
  function NextChoice(pool: seq<Piece>, room: int, j: StripRules, firstDim: Option<int>,
                      repeats: Tally): Option<Choice> {
    DensestOf(SizesOf(pool, room, j.h, firstDim), pool, j, repeats)
  }

  /** The next strip, from what is left and what room is left: the densest of those that
      may be committed. */
  method NextStrip(pool: seq<Piece>, room: int, j: StripRules, firstDim: Option<int>, repeats: Tally)
    returns (best: Option<Choice>, ghost tree: GTree)
    requires AllValid(pool) && IsStripOrder(j.order) && room > 0
    ensures best == NextChoice(pool, room, j, firstDim, repeats)
    ensures best.Some? ==>
              && Committable(best.value, tree, pool, room, j, repeats)
              && Offered(best.value.size, pool, room, j.h, firstDim)
              && best == ChoiceFor(best.value.size, pool, j, repeats)
    ensures forall size :: size in SizesOf(pool, room, j.h, firstDim) && ChoiceFor(size, pool, j, repeats).Some? ==>
              best.Some? && !Denser(ChoiceFor(size, pool, j, repeats).value, best.value, j)
    ensures best.None? && firstDim.None? && j.maxRepeat.None? && j.span > 0 ==> NoneGoes(pool, room, j)
  {
    hide Realizes, PiecesOf, Signature, FitsPiece, FitsDepth, NoneGoes, Committable, Denser, Offered, ChoiceFor,
         SizesOf, DensestOf;
    best, tree := None, Empty;
    var sizes := StripSizes(pool, room, j.h, firstDim);
    DensestIs(sizes, pool, j, repeats);
    if sizes == [] {
      TooDeep(pool, room, j);
    }
    best, tree := BestStrip(sizes, pool, room, j, repeats);
  }

  method StripSizes(remaining: seq<Piece>, room: int, h: bool, firstDim: Option<int>) returns (sizes: seq<int>)
    ensures sizes == SizesOf(remaining, room, h, firstDim)
    ensures forall size :: size in sizes ==> size <= room && Offered(size, remaining, room, h, firstDim)
    ensures sizes == [] ==> forall q :: q in remaining ==> !FitsDepth(q, room, h)
    ensures sizes != [] && firstDim.None? ==> room in sizes
  {
    StripDimsWithin(remaining, room, h);
    NoStripDims(remaining, room, h);
    StripDimsOf(remaining, room, h);
    hide StripDims, HasDim;
    sizes := StripDims(remaining, room, h);
    if sizes == [] {
      return;
    }
    if room !in sizes {
      sizes := sizes + [room];
    }
    if firstDim.Some? && firstDim.value <= room {
      sizes := [firstDim.value];
    }
  }

  /** Every strip taken uses up some of the pool. */
  lemma StripShrinks(pool: seq<Piece>, room: int, j: StripRules, firstDim: Option<int>, repeats: Tally)
    requires IsStripOrder(j.order)
    ensures var c := NextChoice(pool, room, j, firstDim, repeats);
            c.Some? ==> |DropPlaced(pool, c.value.strip.placed)| < |pool|
  {
    hide DensestOf, ChoiceFor, StripOf, DropPlaced, SizesOf, PiecesOf;
    DensestIs(SizesOf(pool, room, j.h, firstDim), pool, j, repeats);
    var c := NextChoice(pool, room, j, firstDim, repeats);
    if c.Some? {
      ChosenFromPool(c.value.size, pool, j, repeats);
      DropPlacedConserves(pool, c.value.strip.placed);
    }
  }

  lemma ChosenFromPool(size: int, pool: seq<Piece>, j: StripRules, repeats: Tally)
    requires IsStripOrder(j.order)
    ensures var c := ChoiceFor(size, pool, j, repeats);
            c.Some? ==> c.value.strip.placed != [] && multiset(PiecesOf(c.value.strip.placed)) <= multiset(pool)
  {
    hide PackAll, Fitting, PiecesOf, Signature;
    var r := StripBox(size, j);
    var ordered := j.order(size, Fitting(pool, r));
    assert multiset(ordered) == multiset(Fitting(pool, r));
    PackAllPlaces(Packing([r], [], []), ordered, ShorterLeftoverAxis, BestAreaFit, StripConfig(j));
    NoPieces();
  }

  // ---- the strips of a fill -------------------------------------------------------------

  /** A strip as committed: from where on, how deep, what lies in it, and the gaps left. */
  datatype Band = Band(at: int, size: int, placed: seq<Placed>, gaps: seq<Box>)

  function Placements(bands: seq<Band>): seq<Placed> {
    if bands == [] then [] else Placements(bands[..|bands|-1]) + bands[|bands|-1].placed
  }

  function BandGaps(bands: seq<Band>): seq<Box> {
    if bands == [] then [] else BandGaps(bands[..|bands|-1]) + bands[|bands|-1].gaps
  }

  function BandContents(bands: seq<Band>): (r: seq<multiset<PieceType>>)
    ensures |r| == |bands| && forall i :: 0 <= i < |r| ==> r[i] == Signature(PiecesOf(bands[i].placed))
  {
    seq(|bands|, i requires 0 <= i < |bands| => Signature(PiecesOf(bands[i].placed)))
  }

  /** Everything in the strip lies between its edges, and its far edge is ripped unless it
      is the sheet's. */
  predicate BandHolds(b: Band, cuts: seq<SawCut>, bounds: Box, h: bool) {
    && b.placed != [] && 0 < b.size && b.at + b.size <= Hi(bounds, h)
    && (forall q :: q in b.placed ==> b.at <= Lo(BoxOf(q), h) && Hi(BoxOf(q), h) <= b.at + b.size)
    && (b.at + b.size < Hi(bounds, h) ==> CutOf(WithLo(bounds, h, b.at), h, b.at + b.size) in cuts)
  }

  /** The strips follow each other from the near edge on, a blade apart. */
  predicate InRow(bands: seq<Band>, bounds: Box, h: bool, kerf: nat) {
    forall i :: 0 <= i < |bands| ==>
      bands[i].at == if i == 0 then Lo(bounds, h) else bands[i-1].at + bands[i-1].size + kerf
  }

  /** A strip is as deep as a piece of the pool, or reaches the far edge; the first may be
      given a depth. */
  predicate WellSized(bands: seq<Band>, pool: seq<Piece>, bounds: Box, h: bool, firstDim: Option<int>) {
    forall i :: 0 <= i < |bands| ==>
      if i == 0 && firstDim.Some? && firstDim.value <= Hi(bounds, h) - Lo(bounds, h)
          then bands[i].size == firstDim.value
      else bands[i].at + bands[i].size == Hi(bounds, h) || exists q :: q in pool && HasDim(q, bands[i].size, h)
  }

  /** The fill is made up of these strips. */
  ghost predicate Banded(fill: BinFill, bands: seq<Band>, pool: seq<Piece>, bounds: Box, h: bool, kerf: nat,
                         firstDim: Option<int>) {
    && fill.placed == Placements(bands)
    && (forall b :: b in bands ==> BandHolds(b, fill.cuts, bounds, h))
    && InRow(bands, bounds, h, kerf) && WellSized(bands, pool, bounds, h, firstDim)
  }

  /** Pieces of different strips are a blade apart, the later one beyond. */
  lemma {:induction false} BandsApart(fill: BinFill, bands: seq<Band>, pool: seq<Piece>, bounds: Box, h: bool,
                                      kerf: nat, firstDim: Option<int>, i: nat, j: nat, a: Placed, b: Placed)
    requires Banded(fill, bands, pool, bounds, h, kerf, firstDim) && i < j < |bands|
    requires a in bands[i].placed && b in bands[j].placed
    ensures Lo(BoxOf(b), h) >= Hi(BoxOf(a), h) + kerf
  {
    hide WellSized, Placements;
    assert bands[i] in bands && bands[j] in bands;
    BandsFollow(bands, fill.cuts, bounds, h, kerf, i, j);
  }

  lemma {:induction false} BandsFollow(bands: seq<Band>, cuts: seq<SawCut>, bounds: Box, h: bool, kerf: nat, i: nat,
                                       j: nat)
    requires InRow(bands, bounds, h, kerf) && (forall b :: b in bands ==> BandHolds(b, cuts, bounds, h))
             && i < j < |bands|
    ensures bands[j].at >= bands[i].at + bands[i].size + kerf
    decreases j
  {
    assert bands[j-1] in bands;
    if i < j - 1 { BandsFollow(bands, cuts, bounds, h, kerf, i, j - 1); }
  }

  lemma RowGrows(bands: seq<Band>, bounds: Box, j: StripRules, b: Band)
    requires InRow(bands, bounds, j.h, j.kerf) && b.at == StartAfter(bands, bounds, j)
    requires 0 < b.size && b.at + b.size <= Hi(bounds, j.h)
    requires bands != [] ==> bands[|bands|-1].at + bands[|bands|-1].size <= Hi(bounds, j.h)
    ensures InRow(bands + [b], bounds, j.h, j.kerf)
  {
  }

  lemma SizesGrow(bands: seq<Band>, pool: seq<Piece>, bounds: Box, h: bool, firstDim: Option<int>, b: Band)
    requires WellSized(bands, pool, bounds, h, firstDim) && (bands == [] ==> b.at == Lo(bounds, h))
    requires Offered(b.size, pool, Hi(bounds, h) - b.at, h, if bands == [] then firstDim else None)
    ensures WellSized(bands + [b], pool, bounds, h, firstDim)
  {
    hide HasDim;
  }

  lemma PlacementsNext(bands: seq<Band>, b: Band)
    ensures Placements(bands + [b]) == Placements(bands) + b.placed
  {
    assert (bands + [b])[..|bands|] == bands;
  }

  lemma BandAdded(fill: BinFill, bands: seq<Band>, pool: seq<Piece>, bounds: Box, j: StripRules, firstDim: Option<int>,
                  b: Band, fill': BinFill)
    requires Banded(fill, bands, pool, bounds, j.h, j.kerf, firstDim) && b.at == StartAfter(bands, bounds, j)
    requires fill'.placed == fill.placed + b.placed
    requires forall c :: c in fill.cuts ==> c in fill'.cuts
    requires BandHolds(b, fill'.cuts, bounds, j.h)
    requires Offered(b.size, pool, Hi(bounds, j.h) - b.at, j.h, if bands == [] then firstDim else None)
    ensures Banded(fill', bands + [b], pool, bounds, j.h, j.kerf, firstDim)
  {
    hide BandHolds, Offered, InRow, WellSized, Placements;
    HoldsWithin(b, fill'.cuts, bounds, j.h);
    if bands != [] {
      assert bands[|bands|-1] in bands;
      HoldsWithin(bands[|bands|-1], fill.cuts, bounds, j.h);
    }
    RowGrows(bands, bounds, j, b);
    SizesGrow(bands, pool, bounds, j.h, firstDim, b);
    PlacementsNext(bands, b);
    forall x | x in bands + [b] ensures BandHolds(x, fill'.cuts, bounds, j.h) {
      if x in bands { HoldsStill(x, fill.cuts, fill'.cuts, bounds, j.h); }
    }
  }

  lemma HoldsWithin(b: Band, cuts: seq<SawCut>, bounds: Box, h: bool)
    requires BandHolds(b, cuts, bounds, h)
    ensures 0 < b.size && b.at + b.size <= Hi(bounds, h)
  {
  }

  lemma HoldsStill(b: Band, cuts: seq<SawCut>, more: seq<SawCut>, bounds: Box, h: bool)
    requires BandHolds(b, cuts, bounds, h) && forall c :: c in cuts ==> c in more
    ensures BandHolds(b, more, bounds, h)
  {
  }

  /** What was packed for a strip lies in it once moved there. */
  lemma MovedInBand(t: GTree, span: int, size: int, h: bool, strip: BinFill, g: Config, bounds: Box, at: int,
                    moved: seq<Placed>)
    requires Realizes(t, Box(0, 0, StripWidth(span, size, h), StripHeight(span, size, h)), strip, g)
    requires moved == ShiftPieces(strip.placed, if h then bounds.x0 else at, if h then at else bounds.y0)
    ensures forall q :: q in moved ==> at <= Lo(BoxOf(q), h) && Hi(BoxOf(q), h) <= at + size
    ensures PiecesOf(moved) == PiecesOf(strip.placed)
  {
    hide Frees, PlanOf, Offcuts;
    var r := Box(0, 0, StripWidth(span, size, h), StripHeight(span, size, h));
    forall i | 0 <= i < |moved| ensures at <= Lo(BoxOf(moved[i]), h) && Hi(BoxOf(moved[i]), h) <= at + size {
      assert BoxesOf(strip.placed)[i] in BoxesOf(strip.placed);
      FreesInside(t, r, BoxesOf(strip.placed), g.kerf, BoxOf(strip.placed[i]));
    }
    forall i | 0 <= i < |moved| ensures PiecesOf(moved)[i] == PiecesOf(strip.placed)[i] {
    }
  }

  /** No piece of the pool that was not placed in a strip or before it fits a gap of it. */
  ghost predicate Full(bands: seq<Band>, pool: seq<Piece>) {
    forall i, q, r :: 0 <= i < |bands| && q in pool && !HasId(Placements(bands[..i+1]), q.id) && r in bands[i].gaps ==>
      !FitsPiece(r, q)
  }

  /** Where the next strip starts. */
  function NextAt(b: Band, bounds: Box, h: bool, kerf: nat): int {
    b.at + b.size + if b.at + b.size < Hi(bounds, h) then kerf else 0
  }

  /** A strip moved to its place on the sheet. */
  function BandAt(c: Choice, at: int, bounds: Box, h: bool): Band {
    var dx, dy := if h then bounds.x0 else at, if h then at else bounds.y0;
    Band(at, c.size, ShiftPieces(c.strip.placed, dx, dy), ShiftAll(c.strip.remainders, dx, dy))
  }

  function CountedIn(repeats: Tally, sig: multiset<PieceType>, maxRepeat: Option<int>): Tally {
    if maxRepeat.Some? then repeats[sig := Repeats(repeats, sig) + 1] else repeats
  }

  /** The strips of a sheet, one after the other: the densest that what is left offers, as
      long as there is something left and room for it. */
  ghost function StripRun(remaining: seq<Piece>, at: int, bounds: Box, firstDim: Option<int>, j: StripRules,
                          repeats: Tally): seq<Band>
    requires IsStripOrder(j.order)
    decreases |remaining|
  {
    var room := Hi(bounds, j.h) - at;
    if remaining == [] || room < j.minRect then []
    else
      var c := NextChoice(remaining, room, j, firstDim, repeats);
      if c.None? then []
      else
        StripShrinks(remaining, room, j, firstDim, repeats);
        var b := BandAt(c.value, at, bounds, j.h);
        [b] + StripRun(DropPlaced(remaining, c.value.strip.placed), NextAt(b, bounds, j.h, j.kerf), bounds, None, j,
                       CountedIn(repeats, Signature(PiecesOf(c.value.strip.placed)), j.maxRepeat))
  }

  lemma StripRunNext(remaining: seq<Piece>, at: int, bounds: Box, firstDim: Option<int>, j: StripRules, repeats: Tally)
    requires IsStripOrder(j.order)
    ensures var room := Hi(bounds, j.h) - at;
            var c := NextChoice(remaining, room, j, firstDim, repeats);
            StripRun(remaining, at, bounds, firstDim, j, repeats) ==
            if remaining == [] || room < j.minRect || c.None? then []
            else
              var b := BandAt(c.value, at, bounds, j.h);
              [b] + StripRun(DropPlaced(remaining, c.value.strip.placed), NextAt(b, bounds, j.h, j.kerf), bounds, None,
                             j, CountedIn(repeats, Signature(PiecesOf(c.value.strip.placed)), j.maxRepeat))
  {
    hide NextChoice, DropPlaced, BandAt, NextAt, CountedIn, Signature, PiecesOf;
    StripShrinks(remaining, Hi(bounds, j.h) - at, j, firstDim, repeats);
  }

  /** Moves a packed strip to the cursor and rips it off what remains. */
  method Commit(fill: BinFill, bounds: Box, at: int, c: Choice, j: StripRules, ghost tree: GTree, ghost t: GTree)
    returns (fill': BinFill, advance: int, ghost tree': GTree)
    requires Solid(bounds) && Building(tree, bounds, j.h, at, fill, StripConfig(j))
    requires j.span == Hi(bounds, !j.h) - Lo(bounds, !j.h)
    requires Lo(bounds, j.h) <= at && 0 < c.size && at + c.size <= Hi(bounds, j.h)
    requires Realizes(t, StripBox(c.size, j), c.strip, StripConfig(j))
    ensures at + advance == NextAt(BandAt(c, at, bounds, j.h), bounds, j.h, j.kerf)
    ensures Building(tree', bounds, j.h, at + advance, fill', StripConfig(j))
    ensures PiecesOf(fill'.placed) == PiecesOf(fill.placed) + PiecesOf(c.strip.placed)
    ensures var b := BandAt(c, at, bounds, j.h);
            && fill'.placed == fill.placed + b.placed && fill'.remainders == fill.remainders + b.gaps
            && (forall cut :: cut in fill.cuts ==> cut in fill'.cuts)
            && (at + c.size < Hi(bounds, j.h) ==> CutOf(WithLo(bounds, j.h, at), j.h, at + c.size) in fill'.cuts)
  {
    hide Realizes, Building, PiecesOf, CutOf, ShiftPieces, ShiftAll, ShiftCuts;
    var Choice(size, strip) := c;
    var dx, dy := if j.h then bounds.x0 else at, if j.h then at else bounds.y0;
    var moved := Translate(strip, dx, dy);
    fill' := BinFill(fill.placed + moved.placed, fill.remainders + moved.remainders, fill.cuts + moved.cuts);
    PiecesOfShifted(fill.placed, strip.placed, dx, dy);
    var leftover := Hi(bounds, j.h) - at - size;
    if leftover > 0 {
      fill' := fill'.(cuts := fill'.cuts + [CutOf(WithLo(bounds, j.h, at), j.h, at + size)]);
      advance := size + j.kerf;
    } else {
      advance := size;
    }
    tree' := CommitTranslated(tree, bounds, j.h, at - Lo(bounds, j.h), fill, StripConfig(j), t, size, strip, fill');
  }

  /** A strip of the whole depth is the sheet itself. */
  lemma WholeStrip(pool: seq<Piece>, bounds: Box, j: StripRules)
    requires j.span == Hi(bounds, !j.h) - Lo(bounds, !j.h)
    ensures NoneGoes(pool, Hi(bounds, j.h) - Lo(bounds, j.h), j) <==> forall q :: q in pool ==> !FitsPiece(bounds, q)
  {
    var r := StripBox(Hi(bounds, j.h) - Lo(bounds, j.h), j);
    forall q ensures FitsPiece(r, q) <==> FitsPiece(bounds, q) {
    }
  }

  /** What the strip loop keeps: a sheet that can be cut up to where the next strip starts,
      the pieces neither placed nor left over twice, the strips committed and their tally. */
  ghost predicate Stripping(all: BinFill, tree: GTree, bounds: Box, at: int, j: StripRules, remaining: seq<Piece>,
                            pool: seq<Piece>, repeats: Tally, bands: seq<Band>, firstDim: Option<int>) {
    && AllValid(remaining) && at >= Lo(bounds, j.h)
    && Building(tree, bounds, j.h, at, all, StripConfig(j))
    && multiset(PiecesOf(all.placed)) + multiset(remaining) <= multiset(pool)
    && (forall q :: q in remaining <==> q in pool && !HasId(all.placed, q.id))
    && Banded(all, bands, pool, bounds, j.h, j.kerf, firstDim)
    && at == StartAfter(bands, bounds, j)
    && all.remainders == BandGaps(bands) && Full(bands, pool)
    && Counted(repeats, BandContents(bands), j.maxRepeat)
  }

  function StartAfter(bands: seq<Band>, bounds: Box, j: StripRules): int {
    if bands == [] then Lo(bounds, j.h) else NextAt(bands[|bands|-1], bounds, j.h, j.kerf)
  }

  lemma OfferedOfMore(size: int, remaining: seq<Piece>, pool: seq<Piece>, placed: multiset<Piece>, room: int, h: bool,
                      firstDim: Option<int>)
    requires Offered(size, remaining, room, h, firstDim) && placed + multiset(remaining) <= multiset(pool)
    ensures Offered(size, pool, room, h, firstDim)
  {
    hide HasDim;
    forall q | q in remaining ensures q in pool {
      assert q in multiset(remaining);
      assert q in placed + multiset(remaining);
    }
  }

  lemma BandContentsNext(bands: seq<Band>, b: Band)
    ensures BandContents(bands + [b]) == BandContents(bands) + [Signature(PiecesOf(b.placed))]
    ensures BandGaps(bands + [b]) == BandGaps(bands) + b.gaps
  {
    hide Signature, PiecesOf;
    assert (bands + [b])[..|bands|] == bands;
  }

  lemma {:induction false} DropPlacedMembers(pool: seq<Piece>, placed: seq<Placed>)
    ensures forall q :: q in DropPlaced(pool, placed) <==> q in pool && !HasId(placed, q.id)
  {
    hide HasId;
    if pool != [] {
      DropPlacedMembers(pool[..|pool|-1], placed);
      assert pool == pool[..|pool|-1] + [pool[|pool|-1]];
    }
  }

  lemma IdsOfMoved(before: seq<Placed>, strip: seq<Placed>, dx: int, dy: int)
    ensures forall id :: HasId(before + ShiftPieces(strip, dx, dy), id) <==> HasId(before, id) || HasId(strip, id)
  {
    var moved := ShiftPieces(strip, dx, dy);
    forall id ensures HasId(before + moved, id) <==> HasId(before, id) || HasId(strip, id) {
      if HasId(strip, id) {
        var k :| 0 <= k < |strip| && strip[k].piece.id == id;
        assert moved[k] in before + moved;
      }
      if HasId(before + moved, id) && !HasId(before, id) {
        var k :| 0 <= k < |moved| && moved[k].piece.id == id;
        assert strip[k] in strip;
      }
    }
  }

  /** What is left after one more strip, and that it fits no gap of that strip. */
  lemma FullNext(bands: seq<Band>, pool: seq<Piece>, remaining: seq<Piece>, placed: seq<Placed>, c: Choice, at: int,
                 bounds: Box, h: bool)
    requires Full(bands, pool) && placed == Placements(bands) && Filled(c.strip, remaining)
    requires forall q :: q in remaining <==> q in pool && !HasId(placed, q.id)
    ensures var b := BandAt(c, at, bounds, h);
            && Full(bands + [b], pool)
            && forall q :: q in DropPlaced(remaining, c.strip.placed) <==> q in pool && !HasId(placed + b.placed, q.id)
  {
    hide FitsPiece, PiecesOf, HasId, Placements, DropPlaced, ShiftPieces, ShiftAll;
    var b, more, n := BandAt(c, at, bounds, h), bands + [BandAt(c, at, bounds, h)], |bands|;
    var dx, dy := if h then bounds.x0 else at, if h then at else bounds.y0;
    IdsOfMoved(placed, c.strip.placed, dx, dy);
    DropPlacedMembers(remaining, c.strip.placed);
    PlacementsNext(bands, b);
    forall i, q, r | 0 <= i < |more| && q in pool && !HasId(Placements(more[..i+1]), q.id) && r in more[i].gaps
      ensures !FitsPiece(r, q)
    {
      if i < n {
        assert more[..i+1] == bands[..i+1] && more[i] == bands[i];
      } else {
        assert more[..i+1] == more && more[i] == b;
        GapTakesNone(c.strip, remaining, b.gaps, dx, dy, q, r);
      }
    }
  }

  lemma GapTakesNone(strip: BinFill, remaining: seq<Piece>, gaps: seq<Box>, dx: int, dy: int, q: Piece, r: Box)
    requires Filled(strip, remaining) && gaps == ShiftAll(strip.remainders, dx, dy) && r in gaps
    requires q in remaining && !HasId(strip.placed, q.id)
    ensures !FitsPiece(r, q)
  {
    hide FitsPiece, HasId;
    var k :| 0 <= k < |gaps| && gaps[k] == r;
    assert strip.remainders[k] in strip.remainders;
    if q in PiecesOf(strip.placed) { PlacedPieceHasId(strip.placed, q); }
    assert q in multiset(remaining) && q !in multiset(PiecesOf(strip.placed));
    assert q in multiset(remaining) - multiset(PiecesOf(strip.placed));
    SameSizeFits(strip.remainders[k], dx, dy, q);
  }

  lemma SameSizeFits(r: Box, dx: int, dy: int, q: Piece)
    ensures FitsPiece(Shift(r, dx, dy), q) <==> FitsPiece(r, q)
  {
  }

  /** Commits a strip: it is counted, moved to its place, and its pieces leave the pool. */
  method TakeNext(all: BinFill, bounds: Box, at: int, choice: Choice, remaining: seq<Piece>, repeats: Tally,
                  j: StripRules, ghost firstDim: Option<int>, ghost tree: GTree, ghost t: GTree, ghost pool: seq<Piece>,
                  ghost bands: seq<Band>)
    returns (all': BinFill, advance: int, rest: seq<Piece>, repeats': Tally, ghost tree': GTree)
    requires Solid(bounds) && j.span == Hi(bounds, !j.h) - Lo(bounds, !j.h)
    requires Stripping(all, tree, bounds, at, j, remaining, pool, repeats, bands, firstDim)
    requires Committable(choice, t, remaining, Hi(bounds, j.h) - at, j, repeats)
    requires Offered(choice.size, remaining, Hi(bounds, j.h) - at, j.h, if bands == [] then firstDim else None)
    ensures var b := BandAt(choice, at, bounds, j.h);
            && at + advance == NextAt(b, bounds, j.h, j.kerf) && advance > 0
            && rest == DropPlaced(remaining, choice.strip.placed)
            && repeats' == CountedIn(repeats, Signature(PiecesOf(choice.strip.placed)), j.maxRepeat)
            && Stripping(all', tree', bounds, at + advance, j, rest, pool, repeats', bands + [b], firstDim)
    ensures |rest| < |remaining| && all'.placed != []
  {
    hide Realizes, Building, PiecesOf, Signature, Counted, DropPlaced, Repeats, Banded, BandContents, BandGaps, CutOf,
         ShiftPieces, ShiftAll, Offered, Full, HasId, Filled, AllValid;
    var strip := choice.strip;
    CountStrip(repeats, BandContents(bands), Signature(PiecesOf(strip.placed)), j.maxRepeat);
    repeats' := repeats;
    if j.maxRepeat.Some? {
      var sig := Signature(PiecesOf(strip.placed));
      repeats' := repeats[sig := Repeats(repeats, sig) + 1];
    }
    all', advance, tree' := Commit(all, bounds, at, choice, j, tree, t);
    ghost var b := BandAt(choice, at, bounds, j.h);
    MovedInBand(t, j.span, choice.size, j.h, strip, StripConfig(j), bounds, at, b.placed);
    OfferedOfMore(choice.size, remaining, pool, multiset(PiecesOf(all.placed)), Hi(bounds, j.h) - at, j.h,
                  if bands == [] then firstDim else None);
    BandAdded(all, bands, pool, bounds, j, firstDim, b, all');
    BandContentsNext(bands, b);
    BandedPlacements(all, bands, pool, bounds, j.h, j.kerf, firstDim);
    FullNext(bands, pool, remaining, all.placed, choice, at, bounds, j.h);
    TakeStrip(pool, all.placed, remaining, strip.placed, all'.placed);
    rest := DropPlaced(remaining, strip.placed);
    SomethingPlaced(all.placed, strip.placed, all'.placed);
  }

  lemma BandedPlacements(fill: BinFill, bands: seq<Band>, pool: seq<Piece>, bounds: Box, h: bool, kerf: nat,
                         firstDim: Option<int>)
    requires Banded(fill, bands, pool, bounds, h, kerf, firstDim)
    ensures fill.placed == Placements(bands)
  {
  }

  lemma SomethingPlaced(a: seq<Placed>, b: seq<Placed>, all: seq<Placed>)
    requires PiecesOf(all) == PiecesOf(a) + PiecesOf(b) && b != []
    ensures all != []
  {
    assert |PiecesOf(b)| == |b|;
  }

  lemma NoBands(pool: seq<Piece>, bounds: Box, h: bool, kerf: nat, firstDim: Option<int>)
    ensures Banded(BinFill([], [], []), [], pool, bounds, h, kerf, firstDim) && Full([], pool)
    ensures BandContents([]) == [] && BandGaps([]) == []
    ensures forall id :: !HasId([], id)
  {
  }

  lemma StrippingStart(bounds: Box, j: StripRules, pool: seq<Piece>, firstDim: Option<int>)
    requires Solid(bounds) && AllValid(pool)
    ensures Stripping(BinFill([], [], []), Empty, bounds, Lo(bounds, j.h), j, pool, pool, map[], [], firstDim)
  {
    hide Building, Counted, AllValid, Banded, BandContents, BandGaps, Full, HasId;
    CountNothing(j.maxRepeat);
    BuildingNothing(bounds, j.h, StripConfig(j));
    NoBands(pool, bounds, j.h, j.kerf, firstDim);
  }

  lemma StrippingValid(all: BinFill, tree: GTree, bounds: Box, at: int, j: StripRules, remaining: seq<Piece>,
                       pool: seq<Piece>, repeats: Tally, bands: seq<Band>, firstDim: Option<int>)
    requires Stripping(all, tree, bounds, at, j, remaining, pool, repeats, bands, firstDim)
    ensures AllValid(remaining) && at == StartAfter(bands, bounds, j)
  {
  }

  /** The leftover beyond the last strip, when there is enough of it. */
  function Beyond(bands: seq<Band>, bounds: Box, j: StripRules): seq<Box> {
    var at := StartAfter(bands, bounds, j);
    if Hi(bounds, j.h) - at >= j.minRect then [WithLo(bounds, j.h, at)] else []
  }

  lemma StrippingEnd(all: BinFill, tree: GTree, bounds: Box, at: int, j: StripRules, remaining: seq<Piece>,
                     pool: seq<Piece>, repeats: Tally, bands: seq<Band>, firstDim: Option<int>)
    requires Stripping(all, tree, bounds, at, j, remaining, pool, repeats, bands, firstDim) && j.minRect >= 1
    ensures var fill := all.(remainders := BandGaps(bands) + Beyond(bands, bounds, j));
            && Realizes(tree, bounds, fill, StripConfig(j))
            && Banded(fill, bands, pool, bounds, j.h, j.kerf, firstDim)
    ensures multiset(PiecesOf(all.placed)) <= multiset(pool) && Full(bands, pool)
    ensures all.remainders == BandGaps(bands) && all.placed == Placements(bands)
    ensures j.maxRepeat.Some? ==> forall s :: multiset(BandContents(bands))[s] <= Max(0, j.maxRepeat.value)
  {
    hide Building, Counted, PiecesOf, Realizes, BandContents, BandGaps, BandHolds, InRow, WellSized, Placements, Full,
         AllValid;
    BuildingDone(tree, bounds, j.h, at, all, StripConfig(j));
    CountedWithin(repeats, BandContents(bands), j.maxRepeat);
    PartOf(multiset(PiecesOf(all.placed)), multiset(remaining), multiset(PiecesOf(all.placed)) + multiset(remaining),
           multiset(pool));
    assert all.(remainders := all.remainders + []) == all;
  }

  // ---- the densest strip each time, without the loop's own lists ------------------------------

  /** How much of a strip is covered. */
  function Density(used: int, size: int, span: int): real
    requires size > 0 && span > 0
  {
    used as real / (span * size) as real
  }

  /** What lies in a strip of one depth covers no larger share of it, of equal shares no more,
      and where that is equal too the strip is no narrower. */
  predicate NoDenserThan(placed: seq<Placed>, size: int, b: Band, span: int)
    requires size > 0 && b.size > 0 && span > 0
  {
    var here, there := Density(UsedArea(b.placed), b.size, span), Density(UsedArea(placed), size, span);
    || there < here
    || (there == here && (UsedArea(placed) < UsedArea(b.placed)
                          || (UsedArea(placed) == UsedArea(b.placed) && b.size <= size)))
  }

  lemma QuotientOrder(u: int, a: int, v: int, b: int)
    requires a > 0 && b > 0
    ensures u * b < v * a ==> u as real / a as real < v as real / b as real
    ensures u * b == v * a ==> u as real / a as real == v as real / b as real
  {
    var x, y := u as real / a as real, v as real / b as real;
    assert (u * b) as real == x * a as real * b as real;
    assert (v * a) as real == y * b as real * a as real;
    if u * b < v * a { Positive(y - x, a as real * b as real); }
    if u * b == v * a { Zero(y - x, a as real * b as real); }
  }

  lemma Positive(x: real, d: real)
    requires d > 0.0 && x * d > 0.0
    ensures x > 0.0
  {
  }

  lemma Zero(x: real, d: real)
    requires d > 0.0 && x * d == 0.0
    ensures x == 0.0
  {
  }

  lemma NotDenserIsNoDenser(a: Choice, c: Choice, b: Band, j: StripRules)
    requires !Denser(a, c, j) && a.size > 0 && c.size > 0 && j.span > 0
    requires b.size == c.size && UsedArea(b.placed) == UsedArea(c.strip.placed)
    ensures NoDenserThan(a.strip.placed, a.size, b, j.span)
  {
    hide UsedArea;
    StripArea(j.span, a.size, j.h);
    StripArea(j.span, c.size, j.h);
    assert StripWidth(j.span, a.size, j.h) * StripHeight(j.span, a.size, j.h) == j.span * a.size;
    assert StripWidth(j.span, c.size, j.h) * StripHeight(j.span, c.size, j.h) == j.span * c.size;
    QuotientOrder(UsedArea(a.strip.placed), j.span * a.size, UsedArea(c.strip.placed), j.span * c.size);
  }

  /** The pieces left once some strips are placed. */
  function LeftBy(pool: seq<Piece>, bands: seq<Band>): seq<Piece> {
    DropPlaced(pool, Placements(bands))
  }

  /** A strip that holds something and whose content has not been repeated too often. */
  predicate MayCommit(strip: Option<BinFill>, bands: seq<Band>, j: StripRules) {
    strip.Some? && (j.maxRepeat.Some? ==>
                      multiset(BandContents(bands))[Signature(PiecesOf(strip.value.placed))] < j.maxRepeat.value)
  }

  /** The caller's depth for the first strip. */
  predicate DepthGiven(bands: seq<Band>, room: int, firstDim: Option<int>) {
    bands == [] && firstDim.Some? && firstDim.value <= room
  }

  /** No strip that might have come after `bands`, of the depth of any piece left or of the
      whole room, is denser than `b`. */
  ghost predicate Densest(bands: seq<Band>, b: Band, pool: seq<Piece>, bounds: Box, firstDim: Option<int>,
                          j: StripRules) {
    var left, room := LeftBy(pool, bands), Hi(bounds, j.h) - b.at;
    && b.size > 0 && j.span > 0
    && if DepthGiven(bands, room, firstDim) then b.size == firstDim.value
       else forall size :: IsDepth(size, left, room, j.h) && MayCommit(StripOf(size, left, j), bands, j) ==>
              NoDenserThan(StripOf(size, left, j).value.placed, size, b, j.span)
  }

  /** Nothing can come after the last strip. */
  ghost predicate NoneFollows(bands: seq<Band>, pool: seq<Piece>, bounds: Box, firstDim: Option<int>, j: StripRules) {
    var left, room := LeftBy(pool, bands), Hi(bounds, j.h) - StartAfter(bands, bounds, j);
    || left == [] || room < j.minRect
    || if DepthGiven(bands, room, firstDim) then !MayCommit(StripOf(firstDim.value, left, j), bands, j)
       else forall size :: IsDepth(size, left, room, j.h) ==> !MayCommit(StripOf(size, left, j), bands, j)
  }

  /** Every strip was the densest to be had, and the sheet is given up only when there is none. */
  ghost predicate AllDensest(bands: seq<Band>, pool: seq<Piece>, bounds: Box, firstDim: Option<int>, j: StripRules) {
    && (forall i :: 0 <= i < |bands| ==> Densest(bands[..i], bands[i], pool, bounds, firstDim, j))
    && NoneFollows(bands, pool, bounds, firstDim, j)
  }

  lemma {:induction false} UsedAreaMoved(ps: seq<Placed>, dx: int, dy: int)
    ensures UsedArea(ShiftPieces(ps, dx, dy)) == UsedArea(ps)
  {
    if ps != [] {
      UsedAreaMoved(ps[..|ps|-1], dx, dy);
      assert ShiftPieces(ps, dx, dy)[..|ps|-1] == ShiftPieces(ps[..|ps|-1], dx, dy);
    }
  }

  /** What may be committed is what the loop would choose from. */
  lemma CommitIsChoice(size: int, left: seq<Piece>, bands: seq<Band>, j: StripRules, repeats: Tally)
    requires Counted(repeats, BandContents(bands), j.maxRepeat)
    ensures MayCommit(StripOf(size, left, j), bands, j) ==>
              StripOf(size, left, j).Some?
                  && ChoiceFor(size, left, j, repeats) == Some(Choice(size, StripOf(size, left, j).value))
    ensures ChoiceFor(size, left, j, repeats).Some? ==> MayCommit(StripOf(size, left, j), bands, j)
  {
    hide StripOf, Signature, PiecesOf, BandContents;
  }

  lemma NextIsDensest(bands: seq<Band>, pool: seq<Piece>, at: int, bounds: Box, firstDim: Option<int>, j: StripRules,
                      repeats: Tally)
    requires Counted(repeats, BandContents(bands), j.maxRepeat)
    ensures var c := NextChoice(LeftBy(pool, bands), Hi(bounds, j.h) - at, j, if bands == [] then firstDim else None,
                                repeats);
            c.Some? ==> Densest(bands, BandAt(c.value, at, bounds, j.h), pool, bounds, firstDim, j)
  {
    hide StripOf, BandContents, ChoiceFor, DensestOf, SizesOf, LeftBy, Denser, NoDenserThan, UsedArea, ShiftPieces,
         ShiftAll, IsDepth, MayCommit, StripDims, Counted;
    var left, room, dim := LeftBy(pool, bands), Hi(bounds, j.h) - at, if bands == [] then firstDim else None;
    var sizes := SizesOf(left, room, j.h, dim);
    var c := NextChoice(left, room, j, dim, repeats);
    DensestIs(sizes, left, j, repeats);
    if c.Some? {
      ChoiceIsSized(c.value.size, left, j, repeats);
      SizesGiven(left, room, j.h, dim);
      var b := BandAt(c.value, at, bounds, j.h);
      var dx, dy := if j.h then bounds.x0 else at, if j.h then at else bounds.y0;
      UsedAreaMoved(c.value.strip.placed, dx, dy);
      forall size | !DepthGiven(bands, room, firstDim) && IsDepth(size, left, room, j.h)
                    && MayCommit(StripOf(size, left, j), bands, j)
        ensures size > 0 && StripOf(size, left, j).Some?
                && NoDenserThan(StripOf(size, left, j).value.placed, size, b, j.span)
      {
        CommitIsChoice(size, left, bands, j, repeats);
        EveryDepthIsTried(left, room, j.h, dim, size);
        ChoiceIsSized(size, left, j, repeats);
        NotDenserIsNoDenser(ChoiceFor(size, left, j, repeats).value, c.value, b, j);
      }
    }
  }

  lemma SizesGiven(left: seq<Piece>, room: int, h: bool, dim: Option<int>)
    ensures SizesOf(left, room, h, dim) != [] ==> StripDims(left, room, h) != []
    ensures dim.Some? && dim.value <= room ==> forall size :: size in SizesOf(left, room, h, dim) ==> size == dim.value
  {
    hide StripDims;
  }

  lemma NoneIsLeft(bands: seq<Band>, pool: seq<Piece>, bounds: Box, firstDim: Option<int>, j: StripRules,
                   repeats: Tally)
    requires Counted(repeats, BandContents(bands), j.maxRepeat)
    requires NextChoice(LeftBy(pool, bands), Hi(bounds, j.h) - StartAfter(bands, bounds, j), j,
                        if bands == [] then firstDim else None, repeats).None?
    ensures NoneFollows(bands, pool, bounds, firstDim, j)
  {
    hide BandContents, ChoiceFor, DensestOf, LeftBy, IsDepth, MayCommit, StripDims, Counted, StripOf;
    var left, room, dim := LeftBy(pool, bands), Hi(bounds, j.h) - StartAfter(bands, bounds, j),
        if bands == [] then firstDim else None;
    DensestIs(SizesOf(left, room, j.h, dim), left, j, repeats);
    forall size | IsDepth(size, left, room, j.h) || (DepthGiven(bands, room, firstDim) && size == firstDim.value)
      ensures (DepthGiven(bands, room, firstDim) && size != firstDim.value)
              || !MayCommit(StripOf(size, left, j), bands, j)
    {
      CommitIsChoice(size, left, bands, j, repeats);
      if StripDims(left, room, j.h) == [] {
        DepthWithin(size, left, room, j.h);
        if size <= room { NothingToTry(left, room, size, j); NeverCommitted(StripOf(size, left, j), bands, j); }
      } else if !DepthGiven(bands, room, firstDim) {
        EveryDepthIsTried(left, room, j.h, dim, size);
      }
    }
  }

  lemma DepthWithin(size: int, left: seq<Piece>, room: int, h: bool)
    requires IsDepth(size, left, room, h) || size <= room
    ensures size <= room
  {
  }

  lemma NeverCommitted(strip: Option<BinFill>, bands: seq<Band>, j: StripRules)
    requires strip.None?
    ensures !MayCommit(strip, bands, j)
  {
  }

  lemma {:induction false} DropPlacedTwice(pool: seq<Piece>, a: seq<Placed>, b: seq<Placed>, all: seq<Placed>)
    requires forall id :: HasId(all, id) <==> HasId(a, id) || HasId(b, id)
    ensures DropPlaced(DropPlaced(pool, a), b) == DropPlaced(pool, all)
  {
    hide HasId;
    if pool != [] {
      var init, p := pool[..|pool|-1], pool[|pool|-1];
      DropPlacedTwice(init, a, b, all);
      DropOneMore(init, p, a);
      DropOneMore(init, p, all);
      assert init + [p] == pool && DropPlaced(init, a) + [] == DropPlaced(init, a);
      assert HasId(all, p.id) <==> HasId(a, p.id) || HasId(b, p.id);
      if !HasId(a, p.id) { DropOneMore(DropPlaced(init, a), p, b); }
    }
  }

  lemma DropOneMore(rest: seq<Piece>, p: Piece, b: seq<Placed>)
    ensures DropPlaced(rest + [p], b) == DropPlaced(rest, b) + if HasId(b, p.id) then [] else [p]
  {
    assert (rest + [p])[..|rest|] == rest;
  }

  /** From any state of the loop on. */
  lemma {:induction false} RunIsDensest(before: seq<Band>, pool: seq<Piece>, bounds: Box, firstDim: Option<int>,
                                        j: StripRules, repeats: Tally)
    requires IsStripOrder(j.order) && Counted(repeats, BandContents(before), j.maxRepeat)
    requires forall i :: 0 <= i < |before| ==> Densest(before[..i], before[i], pool, bounds, firstDim, j)
    ensures AllDensest(before + StripRun(LeftBy(pool, before), StartAfter(before, bounds, j), bounds,
                                         if before == [] then firstDim else None, j, repeats),
                       pool, bounds, firstDim, j)
    decreases |LeftBy(pool, before)|
  {
    hide BandContents, NextChoice, LeftBy, IsStripOrder, Counted, Densest, NoneFollows, StartAfter, BandAt, NextAt,
         CountedIn, StripRun, Signature, PiecesOf;
    var left, at, dim := LeftBy(pool, before), StartAfter(before, bounds, j), if before == [] then firstDim else None;
    var room := Hi(bounds, j.h) - at;
    StripRunNext(left, at, bounds, dim, j, repeats);
    var c := NextChoice(left, room, j, dim, repeats);
    if left == [] || room < j.minRect || c.None? {
      if left == [] || room < j.minRect { NoMore(before, pool, bounds, firstDim, j); }
      else { NoneIsLeft(before, pool, bounds, firstDim, j, repeats); }
      assert before + [] == before;
    } else {
      var b := BandAt(c.value, at, bounds, j.h);
      var more := before + [b];
      NextIsDensest(before, pool, at, bounds, firstDim, j, repeats);
      StripShrinks(left, room, j, dim, repeats);
      StepOfRun(before, pool, at, c.value, bounds, j, room, dim, repeats);
      OneMoreDensest(before, b, pool, bounds, firstDim, j);
      var repeats' := CountedIn(repeats, Signature(PiecesOf(c.value.strip.placed)), j.maxRepeat);
      RunIsDensest(more, pool, bounds, firstDim, j, repeats');
      assert before + ([b] + StripRun(LeftBy(pool, more), StartAfter(more, bounds, j), bounds, None, j, repeats'))
          == more + StripRun(LeftBy(pool, more), StartAfter(more, bounds, j), bounds, None, j, repeats');
    }
  }

  lemma OneMoreDensest(before: seq<Band>, b: Band, pool: seq<Piece>, bounds: Box, firstDim: Option<int>, j: StripRules)
    requires IsStripOrder(j.order) && Densest(before, b, pool, bounds, firstDim, j)
    requires forall i :: 0 <= i < |before| ==> Densest(before[..i], before[i], pool, bounds, firstDim, j)
    ensures var more := before + [b];
            forall i :: 0 <= i < |more| ==> Densest(more[..i], more[i], pool, bounds, firstDim, j)
  {
    hide Densest, IsStripOrder;
    var more := before + [b];
    forall i | 0 <= i < |more| ensures Densest(more[..i], more[i], pool, bounds, firstDim, j) {
      assert more[..i] == before[..i];
      if i == |before| { assert before[..i] == before; }
    }
  }

  lemma NoMore(bands: seq<Band>, pool: seq<Piece>, bounds: Box, firstDim: Option<int>, j: StripRules)
    requires LeftBy(pool, bands) == [] || Hi(bounds, j.h) - StartAfter(bands, bounds, j) < j.minRect
    ensures NoneFollows(bands, pool, bounds, firstDim, j)
  {
  }

  /** What one more strip does to what is left, where the next one starts, and the tally. */
  lemma StepOfRun(before: seq<Band>, pool: seq<Piece>, at: int, c: Choice, bounds: Box, j: StripRules, room: int,
                  dim: Option<int>, repeats: Tally)
    requires Counted(repeats, BandContents(before), j.maxRepeat)
    requires NextChoice(LeftBy(pool, before), room, j, dim, repeats) == Some(c)
    ensures var b := BandAt(c, at, bounds, j.h);
            && LeftBy(pool, before + [b]) == DropPlaced(LeftBy(pool, before), c.strip.placed)
            && StartAfter(before + [b], bounds, j) == NextAt(b, bounds, j.h, j.kerf)
            && Counted(CountedIn(repeats, Signature(PiecesOf(c.strip.placed)), j.maxRepeat), BandContents(before + [b]),
                       j.maxRepeat)
  {
    hide NextChoice, Counted, BandContents, Placements, ShiftPieces, ShiftAll, PiecesOf, Signature, HasId, DropPlaced,
         DensestOf, SizesOf, StripOf, Repeats;
    var b := BandAt(c, at, bounds, j.h);
    var dx, dy := if j.h then bounds.x0 else at, if j.h then at else bounds.y0;
    PlacementsNext(before, b);
    IdsOfMoved(Placements(before), c.strip.placed, dx, dy);
    DropPlacedTwice(pool, Placements(before), c.strip.placed, Placements(before + [b]));
    BandContentsNext(before, b);
    PiecesMoved(c.strip.placed, dx, dy);
    ChosenMayRepeat(LeftBy(pool, before), room, j, dim, repeats);
    CountStrip(repeats, BandContents(before), Signature(PiecesOf(c.strip.placed)), j.maxRepeat);
  }

  lemma PiecesMoved(ps: seq<Placed>, dx: int, dy: int)
    ensures PiecesOf(ShiftPieces(ps, dx, dy)) == PiecesOf(ps)
  {
    forall i | 0 <= i < |ps| ensures PiecesOf(ShiftPieces(ps, dx, dy))[i] == PiecesOf(ps)[i] {
    }
  }

  lemma ChosenMayRepeat(left: seq<Piece>, room: int, j: StripRules, dim: Option<int>, repeats: Tally)
    ensures var c := NextChoice(left, room, j, dim, repeats);
            c.Some? && j.maxRepeat.Some? ==>
              Repeats(repeats, Signature(PiecesOf(c.value.strip.placed))) < j.maxRepeat.value
  {
    hide DensestOf, SizesOf, StripOf, Signature, PiecesOf;
    DensestIs(SizesOf(left, room, j.h, dim), left, j, repeats);
  }

  /** The rules of one sheet. */
  function RulesFor(width: int, height: int, p: Params, h: bool, maxRepeat: Option<int>, order: StripOrder,
                    minRect: int): StripRules {
    var bounds := UsableBounds(width, height, p);
    StripRules(Hi(bounds, !h) - Lo(bounds, !h), h, p.kerf, order, minRect, maxRepeat)
  }

  /** The strips a sheet gets. */
  ghost function SheetStrips(pool: seq<Piece>, width: int, height: int, p: Params, firstDim: Option<int>,
                          j: StripRules): seq<Band>
    requires IsStripOrder(j.order)
  {
    var bounds := UsableBounds(width, height, p);
    if Width(bounds) <= 0 || Height(bounds) <= 0 then []
        else StripRun(pool, Lo(bounds, j.h), bounds, firstDim, j, map[])
  }

  lemma StripsOfSheet(pool: seq<Piece>, width: int, height: int, p: Params, firstDim: Option<int>, j: StripRules)
    requires IsStripOrder(j.order)
    ensures var bounds, strips := UsableBounds(width, height, p), SheetStrips(pool, width, height, p, firstDim, j);
            strips == if Width(bounds) <= 0 || Height(bounds) <= 0 then []
                      else StripRun(pool, Lo(bounds, j.h), bounds, firstDim, j, map[])
  {
    hide StripRun;
  }

  /** The strips of a sheet with room for any, one after the other the densest to be had. */
  lemma SheetIsDensest(pool: seq<Piece>, width: int, height: int, p: Params, firstDim: Option<int>, j: StripRules)
    requires IsStripOrder(j.order)
    ensures var bounds := UsableBounds(width, height, p);
            Width(bounds) > 0 && Height(bounds) > 0 ==>
              AllDensest(SheetStrips(pool, width, height, p, firstDim, j), pool, bounds, firstDim, j)
  {
    hide AllDensest, StripRun, Counted, DropPlaced;
    var bounds := UsableBounds(width, height, p);
    CountNothing(j.maxRepeat);
    assert BandContents([]) == [];
    AllAreLeft(pool);
    RunIsDensest([], pool, bounds, firstDim, j, map[]);
    var run := StripRun(pool, Lo(bounds, j.h), bounds, firstDim, j, map[]);
    assert [] + run == run;
  }

  lemma {:induction false} AllAreLeft(pool: seq<Piece>)
    ensures LeftBy(pool, []) == pool
  {
    if pool != [] { AllAreLeft(pool[..|pool|-1]); }
  }

  /** A sheet filled with these strips: a fill the saw can cut, of pieces of the pool, a blade
      apart, each strip as deep as a piece or up to the far edge and full: no piece left fits
      a gap of it. Each is at least as dense as one of any other depth of a piece then left,
      or of the whole room, would have been, and no content is repeated too often. */
  ghost predicate FilledInStrips(fill: Option<BinFill>, bands: seq<Band>, pool: seq<Piece>, bounds: Box,
                                 firstDim: Option<int>, j: StripRules) {
    && (fill.Some? <==> bands != [])
    && (fill.Some? ==>
          && fill.value.placed != [] && fill.value.placed == Placements(bands)
          && fill.value.remainders == BandGaps(bands) + Beyond(bands, bounds, j)
          && multiset(PiecesOf(fill.value.placed)) <= multiset(pool)
          && (exists t :: Realizes(t, bounds, fill.value, StripConfig(j)))
          && Banded(fill.value, bands, pool, bounds, j.h, j.kerf, firstDim))
    && Full(bands, pool)
    && (Width(bounds) > 0 && Height(bounds) > 0 ==> AllDensest(bands, pool, bounds, firstDim, j))
    && (j.maxRepeat.Some? ==> forall s :: multiset(BandContents(bands))[s] <= Max(0, j.maxRepeat.value))
  }

  lemma NoRoomNoStrips(pool: seq<Piece>, bounds: Box, firstDim: Option<int>, j: StripRules)
    requires Width(bounds) <= 0 || Height(bounds) <= 0
    ensures FilledInStrips(None, [], pool, bounds, firstDim, j)
  {
    hide BandContents;
    NoBands(pool, bounds, j.h, j.kerf, firstDim);
    assert multiset(BandContents([])) == multiset{};
  }

  /** What the loop leaves is such a sheet, with or without a leftover beyond the last strip. */
  lemma StrippedIsFilled(all: BinFill, tree: GTree, bounds: Box, at: int, j: StripRules, remaining: seq<Piece>,
                         pool: seq<Piece>, repeats: Tally, bands: seq<Band>, firstDim: Option<int>)
    requires Stripping(all, tree, bounds, at, j, remaining, pool, repeats, bands, firstDim) && j.minRect >= 1
    requires AllDensest(bands, pool, bounds, firstDim, j) && (all.placed == [] <==> bands == [])
    ensures at == StartAfter(bands, bounds, j) && all.remainders == BandGaps(bands)
    ensures var more := all.remainders + Beyond(bands, bounds, j);
            FilledInStrips(if all.placed == [] then None else Some(all.(remainders := more)), bands, pool, bounds,
                           firstDim, j)
  {
    hide Building, PiecesOf, Realizes, BandContents, BandGaps, Banded, Placements, Full, AllValid, AllDensest, Beyond;
    StrippingEnd(all, tree, bounds, at, j, remaining, pool, repeats, bands, firstDim);
    var fill := all.(remainders := BandGaps(bands) + Beyond(bands, bounds, j));
    assert Realizes(tree, bounds, fill, StripConfig(j));
  }

  /** Fill the sheet strip by strip from the near edge: exactly the strips that taking the
      densest one again and again gives. Nothing comes back only when nothing fits, unless
      the depth of the first strip or the repeats are restricted. */
  method StripFill(pool: seq<Piece>, width: int, height: int, p: Params, h: bool, firstDim: Option<int>,
                   maxRepeat: Option<int>, order: StripOrder, minRect: int) returns (fill: Option<BinFill>)
    requires AllValid(pool) && IsStripOrder(order) && minRect >= 1
    ensures var j := RulesFor(width, height, p, h, maxRepeat, order, minRect);
            FilledInStrips(fill, SheetStrips(pool, width, height, p, firstDim, j), pool, UsableBounds(width, height, p),
                           firstDim, j)
    ensures fill.None? && firstDim.None? && maxRepeat.None? ==>
              var bounds := UsableBounds(width, height, p);
              || Width(bounds) <= 0 || Height(bounds) <= 0 || Hi(bounds, h) - Lo(bounds, h) < minRect
              || forall q :: q in pool ==> !FitsPiece(bounds, q)
  {
    hide Stripping, Realizes, PiecesOf, BandContents, BandGaps, NoneGoes, FitsPiece, Committable, Banded, Denser,
         Offered, FitsDepth, StripRun, NextChoice, BandAt, NextAt, CountedIn, ChoiceFor, SizesOf, Full, Placements,
         DropPlaced, Signature, IsStripOrder, AllDensest, SheetStrips, FilledInStrips;
    var bounds, j := UsableBounds(width, height, p), RulesFor(width, height, p, h, maxRepeat, order, minRect);
    RoomIn(bounds, h);
    StripsOfSheet(pool, width, height, p, firstDim, j);
    if Width(bounds) <= 0 || Height(bounds) <= 0 {
      NoRoomNoStrips(pool, bounds, firstDim, j);
      return None;
    }
    var axisRoom := Hi(bounds, h) - Lo(bounds, h);
    var remaining := pool;
    var all := BinFill([], [], []);
    var cursor, room, first := 0, axisRoom, true;
    var repeats: Tally := map[];
    ghost var tree := Empty;
    ghost var bands: seq<Band> := [];
    ghost var at := Lo(bounds, h);
    StrippingStart(bounds, j, pool, firstDim);
    WholeStrip(pool, bounds, j);
    while remaining != [] && room >= minRect
      invariant cursor + room == axisRoom && AllValid(remaining) && at == Lo(bounds, h) + cursor
      invariant Stripping(all, tree, bounds, at, j, remaining, pool, repeats, bands, firstDim)
      invariant bands + StripRun(remaining, at, bounds, if first then firstDim else None, j, repeats)
                == StripRun(pool, Lo(bounds, h), bounds, firstDim, j, map[])
      invariant all.placed == [] <==> bands == []
      invariant first <==> bands == []
      invariant bands == [] ==> remaining == pool && room == axisRoom
      decreases |remaining|
    {
      StripRunNext(remaining, at, bounds, if first then firstDim else None, j, repeats);
      var best, t := NextStrip(remaining, room, j, if first then firstDim else None, repeats);
      if best.None? {
        break;
      }
      ghost var b := BandAt(best.value, at, bounds, h);
      var advance;
      all, advance, remaining, repeats, tree :=
        TakeNext(all, bounds, Lo(bounds, h) + cursor, best.value, remaining, repeats, j, firstDim, tree, t, pool,
                 bands);
      bands, first, at := bands + [b], false, at + advance;
      StrippingValid(all, tree, bounds, at, j, remaining, pool, repeats, bands, firstDim);
      cursor, room := cursor + advance, room - advance;
    }
    StripRunNext(remaining, at, bounds, if first then firstDim else None, j, repeats);
    assert bands + [] == bands;
    assert bands == SheetStrips(pool, width, height, p, firstDim, j);
    SheetIsDensest(pool, width, height, p, firstDim, j);
    StrippedIsFilled(all, tree, bounds, at, j, remaining, pool, repeats, bands, firstDim);
    if all.placed == [] {
      return None;
    }
    if room >= minRect {
      all := all.(remainders := all.remainders + [WithLo(bounds, h, Lo(bounds, h) + cursor)]);
    } else {
      assert all.remainders + [] == all.remainders;
    }
    fill := Some(all);
  }
}
