/**
Realizing a sheet laid out by hand (sheet_check.py): every reason it cannot be
cut, or the layout the saw would cut.
*/
module HandSheet {
  import opened Geometry
  import opened Guillotine
  import opened CandidateCuts
  import opened Plans
  import opened Sheets
  import opened Consolidate
  import opened Derive
  import opened SheetCheck
  import opened FreeSpace

  datatype Code =
    | OutOfBounds
    | InsideTrim
    | RotationNotAllowed
    | WrongDimensions
    | Overlap
    | KerfTooThin
    | WholeOffcutOverlap
    | NotGuillotine
    | Unverifiable

  datatype Violation = Violation(code: Code, pieces: seq<string>)

  // ---- what is wrong with a sheet ----------------------------------------------------

  function PlaceFaults(p: Placed, width: int, height: int, usable: Box): seq<Violation> {
    if !Inside(BoxOf(p), Box(0, 0, width, height)) then [Violation(OutOfBounds, [p.piece.id])]
    else if !Inside(BoxOf(p), usable) then [Violation(InsideTrim, [p.piece.id])]
    else []
  }

  function ShapeFaults(p: Placed): seq<Violation> {
    if p.rotated then
      (if !p.piece.canRotate then [Violation(RotationNotAllowed, [p.piece.id])] else [])
      + (if p.width != p.piece.height
         || p.height != p.piece.width then [Violation(WrongDimensions, [p.piece.id])] else [])
    else if p.width != p.piece.width || p.height != p.piece.height then [Violation(WrongDimensions, [p.piece.id])]
    else []
  }

  function FaultsOf(p: Placed, width: int, height: int, usable: Box): seq<Violation> {
    PlaceFaults(p, width, height, usable) + ShapeFaults(p)
  }

  function PairFaults(a: Placed, b: Placed, kerf: int): seq<Violation> {
    var s := Separation(BoxOf(a), BoxOf(b));
    if s >= kerf then []
    else [Violation(if s < 0 then Overlap else KerfTooThin, [a.piece.id, b.piece.id])]
  }

  /** A sheet is in order when every piece lies legally between the trims, pieces
      and whole offcuts are pairwise a blade apart, and no whole offcut reaches
      into a trim. */
  predicate InOrder(placed: seq<Placed>, whole: seq<Box>, usable: Box, kerf: int) {
    && (forall p :: p in placed ==> Inside(BoxOf(p), usable) && Legal(p))
    && PairwiseApart(BoxesOf(placed), kerf)
    && (forall r :: r in whole ==> Inside(r, usable))
    && (forall r, p :: r in whole && p in placed ==> Separation(r, BoxOf(p)) >= kerf)
    && PairwiseApart(whole, kerf)
  }

  method PieceViolations(placed: seq<Placed>, width: int, height: int, p: Params) returns (vs: seq<Violation>)
    ensures forall v ::
            v in vs <==> (exists q :: q in placed && v in FaultsOf(q, width, height, UsableBounds(width, height, p)))
    ensures vs == [] <==> forall q :: q in placed ==> Inside(BoxOf(q), UsableBounds(width, height, p)) && Legal(q)
  {
    vs := [];
    var usable := UsableBounds(width, height, p);
    for i := 0 to |placed|
      invariant forall v :: v in vs <==> (exists q :: q in placed[..i] && v in FaultsOf(q, width, height, usable))
      invariant vs == [] <==> forall q :: q in placed[..i] ==> Inside(BoxOf(q), usable) && Legal(q)
    {
      NoFaultsIffGood(placed[i], width, height, p);
      hide FaultsOf, Legal, Inside;
      assert placed[..i+1] == placed[..i] + [placed[i]];
      vs := vs + FaultsOf(placed[i], width, height, usable);
    }
    assert placed[..|placed|] == placed;
  }

  lemma NoFaultsIffGood(q: Placed, width: int, height: int, p: Params)
    ensures FaultsOf(q, width, height, UsableBounds(width, height, p)) == [] <==>
            Inside(BoxOf(q), UsableBounds(width, height, p)) && Legal(q)
  {
  }

  method PairViolations(placed: seq<Placed>, kerf: int) returns (vs: seq<Violation>)
    ensures forall v :: v in vs <==> exists i, j :: 0 <= i < j < |placed| && v in PairFaults(placed[i], placed[j], kerf)
    ensures vs == [] <==> PairwiseApart(BoxesOf(placed), kerf)
  {
    vs := [];
    for i := 0 to |placed|
      invariant forall v :: v in vs <==> exists a, b ::
                0 <= a < b < |placed| && a < i && v in PairFaults(placed[a], placed[b], kerf)
    {
      for j := i + 1 to |placed|
        invariant forall v :: v in vs <==> exists a, b :: 0 <= a < b < |placed| && (a < i || (a == i && b < j))
                                                          && v in PairFaults(placed[a], placed[b], kerf)
      {
        vs := vs + PairFaults(placed[i], placed[j], kerf);
      }
    }
    NoPairFaults(placed, kerf, vs);
  }

  lemma NoPairFaults(placed: seq<Placed>, kerf: int, vs: seq<Violation>)
    requires forall v :: v in vs <==> exists i, j ::
             0 <= i < j < |placed| && v in PairFaults(placed[i], placed[j], kerf)
    ensures vs == [] <==> PairwiseApart(BoxesOf(placed), kerf)
  {
    var S := BoxesOf(placed);
    assert vs == [] || vs[0] in vs;
    if !PairwiseApart(S, kerf) {
      var i, j :| 0 <= i < j < |S| && Separation(S[i], S[j]) < kerf;
      var f := PairFaults(placed[i], placed[j], kerf);
      assert f[0] in f;
      assert f[0] in vs;
    }
  }

  /** A fault of one whole offcut: it reaches a trim, a later offcut's clearance, or that of
      a piece, which is then named. */
  predicate OffcutFault(v: Violation, whole: seq<Box>, i: nat, placed: seq<Placed>, usable: Box, kerf: int)
    requires i < |whole|
  {
    || (v == Violation(WholeOffcutOverlap, [])
        && (!Inside(whole[i], usable) || exists b :: i < b < |whole| && Separation(whole[i], whole[b]) < kerf))
    || (exists b :: 0 <= b < |placed| && Separation(whole[i], BoxOf(placed[b])) < kerf
                    && v == Violation(WholeOffcutOverlap, [placed[b].piece.id]))
  }

  method ViolationsOf(whole: seq<Box>, i: nat, placed: seq<Placed>, usable: Box, kerf: int) returns (vs: seq<Violation>)
    requires i < |whole|
    ensures forall v :: v in vs <==> OffcutFault(v, whole, i, placed, usable, kerf)
  {
    hide Inside, Separation;
    vs := [];
    if !Inside(whole[i], usable) {
      vs := vs + [Violation(WholeOffcutOverlap, [])];
    }
    for j := 0 to |placed|
      invariant forall v :: v in vs <==>
                  || (v == Violation(WholeOffcutOverlap, []) && !Inside(whole[i], usable))
                  || (exists b :: 0 <= b < j && Separation(whole[i], BoxOf(placed[b])) < kerf
                                  && v == Violation(WholeOffcutOverlap, [placed[b].piece.id]))
    {
      if Separation(whole[i], BoxOf(placed[j])) < kerf {
        vs := vs + [Violation(WholeOffcutOverlap, [placed[j].piece.id])];
      }
    }
    for j := i + 1 to |whole|
      invariant forall v :: v in vs <==>
                  || (v == Violation(WholeOffcutOverlap, [])
                      && (!Inside(whole[i], usable) || exists b :: i < b < j && Separation(whole[i], whole[b]) < kerf))
                  || (exists b :: 0 <= b < |placed| && Separation(whole[i], BoxOf(placed[b])) < kerf
                                  && v == Violation(WholeOffcutOverlap, [placed[b].piece.id]))
    {
      if Separation(whole[i], whole[j]) < kerf {
        vs := vs + [Violation(WholeOffcutOverlap, [])];
      }
    }
  }

  /** A whole offcut is a wish about free space: it may not reach a trim, a piece's
      clearance or another whole offcut's. */
  method OffcutViolations(placed: seq<Placed>, whole: seq<Box>, usable: Box, kerf: int) returns (vs: seq<Violation>)
    ensures forall v :: v in vs <==> exists i :: 0 <= i < |whole| && OffcutFault(v, whole, i, placed, usable, kerf)
    ensures vs == [] <==>
              && (forall r :: r in whole ==> Inside(r, usable))
              && (forall r, p :: r in whole && p in placed ==> Separation(r, BoxOf(p)) >= kerf)
              && PairwiseApart(whole, kerf)
  {
    hide OffcutFault, GoodOffcut;
    vs := [];
    for i := 0 to |whole|
      invariant forall v :: v in vs <==> exists a :: 0 <= a < i && OffcutFault(v, whole, a, placed, usable, kerf)
      invariant vs == [] <==> forall a :: 0 <= a < i ==> GoodOffcut(whole, a, placed, usable, kerf)
    {
      var more := ViolationsOf(whole, i, placed, usable, kerf);
      FaultlessIffGood(whole, i, placed, usable, kerf, more);
      vs := vs + more;
    }
    GoodOffcuts(whole, placed, usable, kerf);
  }

  lemma FaultlessIffGood(whole: seq<Box>, i: nat, placed: seq<Placed>, usable: Box, kerf: int, vs: seq<Violation>)
    requires i < |whole| && forall v :: v in vs <==> OffcutFault(v, whole, i, placed, usable, kerf)
    ensures vs == [] <==> GoodOffcut(whole, i, placed, usable, kerf)
  {
    hide Inside, Separation;
    if vs != [] { assert vs[0] in vs; }
    if !GoodOffcut(whole, i, placed, usable, kerf) {
      var none := Violation(WholeOffcutOverlap, []);
      if b :| 0 <= b < |placed| && Separation(whole[i], BoxOf(placed[b])) < kerf {
        assert OffcutFault(Violation(WholeOffcutOverlap, [placed[b].piece.id]), whole, i, placed, usable, kerf);
      } else {
        assert OffcutFault(none, whole, i, placed, usable, kerf);
      }
    }
  }

  predicate GoodOffcut(whole: seq<Box>, i: nat, placed: seq<Placed>, usable: Box, kerf: int)
    requires i < |whole|
  {
    && Inside(whole[i], usable)
    && (forall b :: 0 <= b < |placed| ==> Separation(whole[i], BoxOf(placed[b])) >= kerf)
    && (forall b :: i < b < |whole| ==> Separation(whole[i], whole[b]) >= kerf)
  }

  lemma GoodOffcuts(whole: seq<Box>, placed: seq<Placed>, usable: Box, kerf: int)
    ensures (forall a :: 0 <= a < |whole| ==> GoodOffcut(whole, a, placed, usable, kerf)) <==>
              && (forall r :: r in whole ==> Inside(r, usable))
              && (forall r, p :: r in whole && p in placed ==> Separation(r, BoxOf(p)) >= kerf)
              && PairwiseApart(whole, kerf)
  {
    hide Inside, Separation;
    if forall a :: 0 <= a < |whole| ==> GoodOffcut(whole, a, placed, usable, kerf) {
      forall r | r in whole
        ensures Inside(r, usable) && forall p :: p in placed ==> Separation(r, BoxOf(p)) >= kerf
      {
        var a :| 0 <= a < |whole| && whole[a] == r;
        assert GoodOffcut(whole, a, placed, usable, kerf);
      }
      forall i, j | 0 <= i < j < |whole| ensures Separation(whole[i], whole[j]) >= kerf {
        assert GoodOffcut(whole, i, placed, usable, kerf);
      }
    }
    forall a | 0 <= a < |whole| ensures whole[a] in whole {}
  }

  /** Everything wrong with a sheet short of the guillotine question. */
  method IterViolations(width: int, height: int, placed: seq<Placed>, p: Params, whole: seq<Box>)
    returns (vs: seq<Violation>)
    ensures vs == [] <==> InOrder(placed, whole, UsableBounds(width, height, p), p.kerf)
    ensures forall v :: v in vs ==> v.code != NotGuillotine && v.code != Unverifiable
    ensures var usable := UsableBounds(width, height, p);
            forall v :: v in vs <==>
              || (exists q :: q in placed && v in FaultsOf(q, width, height, usable))
              || (exists i, j :: 0 <= i < j < |placed| && v in PairFaults(placed[i], placed[j], p.kerf))
              || (exists i :: 0 <= i < |whole| && OffcutFault(v, whole, i, placed, usable, p.kerf))
  {
    hide FaultsOf, PairFaults, OffcutFault, Inside, Separation, Legal;
    var usable := UsableBounds(width, height, p);
    var a := PieceViolations(placed, width, height, p);
    var b := PairViolations(placed, p.kerf);
    var c := OffcutViolations(placed, whole, usable, p.kerf);
    forall v: Violation | v in a + b + c ensures v.code != NotGuillotine && v.code != Unverifiable {
      if v in a {
        var q :| q in placed && v in FaultsOf(q, width, height, usable);
        FaultCodes(q, width, height, usable, v);
      } else if v in b {
        var i, j :| 0 <= i < j < |placed| && v in PairFaults(placed[i], placed[j], p.kerf);
        PairFaultCodes(placed[i], placed[j], p.kerf, v);
      } else {
        var i :| 0 <= i < |whole| && OffcutFault(v, whole, i, placed, usable, p.kerf);
        OffcutCode(v, whole, i, placed, usable, p.kerf);
      }
    }
    vs := a + b + c;
  }

  lemma OffcutCode(v: Violation, whole: seq<Box>, i: nat, placed: seq<Placed>, usable: Box, kerf: int)
    requires i < |whole| && OffcutFault(v, whole, i, placed, usable, kerf)
    ensures v.code == WholeOffcutOverlap
  {
  }

  lemma FaultCodes(q: Placed, width: int, height: int, usable: Box, v: Violation)
    requires v in FaultsOf(q, width, height, usable)
    ensures v.code in {OutOfBounds, InsideTrim, RotationNotAllowed, WrongDimensions} && v.pieces == [q.piece.id]
  {
  }

  lemma PairFaultCodes(a: Placed, b: Placed, kerf: int, v: Violation)
    requires v in PairFaults(a, b, kerf)
    ensures v.code in {Overlap, KerfTooThin} && v.pieces == [a.piece.id, b.piece.id]
  {
  }

  // ---- the sheet as the saw would cut it ------------------------------------------------

  function Boxes(placed: seq<Placed>, whole: seq<Box>): seq<Box> {
    BoxesOf(placed) + whole
  }

  lemma InOrderSolid(placed: seq<Placed>, whole: seq<Box>, usable: Box, kerf: int)
    requires InOrder(placed, whole, usable, kerf) && AllSolid(whole)
    requires forall p :: p in placed ==> ValidPiece(p.piece)
    ensures AllSolid(Boxes(placed, whole))
  {
    var S := BoxesOf(placed);
    forall b | b in S ensures Solid(b) {
      var i :| 0 <= i < |S| && S[i] == b;
      assert placed[i] in placed;
    }
  }

  /** What a derived sheet shows: the tree's own leftovers, then the whole offcuts. */
  ghost predicate Realized(res: Layout, placed: seq<Placed>, whole: seq<Box>, bounds: Box, g: Config) {
    && res.placed == placed
    && if Boxes(placed, whole) == [] then res.remainders == [bounds] && res.cuts == []
       else exists plan :: LeastReport(plan, bounds, Boxes(placed, whole), g)
              && res.cuts == plan.cuts && res.remainders == plan.rects + whole
  }

  /** The sheet as the saw would cut it, or every reason it cannot be. */
  method RealizeSheet(width: int, height: int, placed: seq<Placed>, p: Params, whole: seq<Box>, minRect: int,
                      minUsable: int, nodeBudget: int)
    returns (layout: Option<Layout>, vs: seq<Violation>)
    requires forall q :: q in placed ==> ValidPiece(q.piece)
    ensures layout.Some? <==> vs == []
    ensures var bounds, g := UsableBounds(width, height, p), ConfigOf(p.kerf, minRect, minUsable);
            var S := Boxes(placed, whole);
            AllSolid(whole) ==>
              && (layout.Some? ==> InOrder(placed, whole, bounds, p.kerf) && Cuttable(bounds, S, p.kerf)
                                   && Realized(layout.value, placed, whole, bounds, g))
              && (vs == [Violation(NotGuillotine, [])] ==>
                  InOrder(placed, whole, bounds, p.kerf) && !Cuttable(bounds, S, p.kerf))
              && (InOrder(placed, whole, bounds, p.kerf) && Cuttable(bounds, S, p.kerf)
                  && nodeBudget >= Nodes(bounds, SortBoxes(S), g)
                  ==> layout.Some?)
              && (InOrder(placed, whole, bounds, p.kerf) && layout.None? ==>
                    vs == [Violation(NotGuillotine, [])] || vs == [Violation(Unverifiable, [])])
  {
    hide InOrder, LeastReport, Nodes;
    vs := IterViolations(width, height, placed, p, whole);
    if vs != [] {
      assert vs[0] in vs;
      return None, vs;
    }
    var bounds := UsableBounds(width, height, p);
    var boxes := Boxes(placed, whole);
    if AllSolid(whole) { InOrderSolid(placed, whole, bounds, p.kerf); }
    var cuts, leftovers := [], [bounds];
    if boxes != [] {
      var plan, exhausted := DeriveTree(boxes, bounds, p.kerf, minRect, minUsable, nodeBudget);
      if plan.None? {
        return None, [Violation(if exhausted then Unverifiable else NotGuillotine, [])];
      }
      cuts, leftovers := plan.value.cuts, plan.value.rects;
      if AllSolid(whole) { LeastReportIsCuttable(plan.value, bounds, boxes, ConfigOf(p.kerf, minRect, minUsable)); }
    } else {
      NothingIsCuttable(bounds, p.kerf);
      assert whole == [];
    }
    layout := Some(Layout(width, height, placed, leftovers + whole, cuts));
  }

  lemma LeastReportIsCuttable(plan: Plan, bounds: Box, S: seq<Box>, g: Config)
    requires LeastReport(plan, bounds, S, g)
    ensures Cuttable(bounds, S, g.kerf)
  {
    var c :| Searchable(c, bounds, S, g.kerf) && plan == PlanOf(c, bounds, g);
    SearchableFrees(c, bounds, S, g.kerf);
  }

  lemma NothingIsCuttable(bounds: Box, kerf: nat)
    ensures Cuttable(bounds, [], kerf)
  {
    assert Frees(Empty, bounds, [], kerf);
  }
}
