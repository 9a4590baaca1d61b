/**
placement_candidates of sheet_check.py: where a piece may go on a hand-edited
sheet. Most positions are accepted by the leftover shortcut and never derived;
whatever is offered, the full derivation would accept.
*/
module Placement {
  import opened Geometry
  import opened Guillotine
  import opened CandidateCuts
  import opened Plans
  import opened Sheets
  import opened Derive
  import opened SheetCheck
  import opened FreeSpace
  import opened HandSheet
  import Consolidate

  /** A corner, an orientation, and the whole offcuts the piece would land on. */
  datatype Spot = Spot(x: int, y: int, rotated: bool, uses: seq<nat>)

  function At(piece: Piece, x: int, y: int, rotated: bool): Placed {
    Placed(piece, x, y, if rotated then piece.height else piece.width, if rotated then piece.width else piece.height,
           rotated)
  }

  /** Indices of the whole offcuts a box does not keep clear of. */
  function Used(b: Box, whole: seq<Box>, kerf: int): (us: seq<nat>)
    ensures forall i: int :: i in us <==> 0 <= i < |whole| && Separation(b, whole[i]) < kerf
  {
    if whole == [] then []
    else Used(b, whole[..|whole|-1], kerf) + if Separation(b, whole[|whole|-1]) < kerf then [|whole|-1] else []
  }

  /** The whole offcuts a position leaves whole. */
  function Untouched(b: Box, whole: seq<Box>, kerf: int): (r: seq<Box>)
    ensures forall c :: c in r <==> c in whole && Separation(b, c) >= kerf
  {
    if whole == [] then []
    else Untouched(b, whole[..|whole|-1], kerf) + if Separation(b, whole[|whole|-1]) < kerf then []
        else [whole[|whole|-1]]
  }

  lemma {:induction false} NoneTouched(b: Box, whole: seq<Box>, kerf: int)
    requires Used(b, whole, kerf) == []
    ensures Untouched(b, whole, kerf) == whole
  {
    hide Separation;
    if whole != [] {
      var init, last := whole[..|whole|-1], whole[|whole|-1];
      assert whole == init + [last];
      NoneTouched(b, init, kerf);
    }
  }

  /** The sheet with the piece there, keeping the whole offcuts it does not touch,
      is in order and a cut tree frees all of it. */
  ghost predicate CanGo(others: seq<Placed>, piece: Piece, s: Spot, whole: seq<Box>, bounds: Box, kerf: nat) {
    var pp := At(piece, s.x, s.y, s.rotated);
    var kept := Untouched(BoxOf(pp), whole, kerf);
    && s.uses == Used(BoxOf(pp), whole, kerf)
    && InOrder(others + [pp], kept, bounds, kerf)
    && Cuttable(bounds, Boxes(others + [pp], kept), kerf)
  }

  lemma ApartParts(A: seq<Box>, B: seq<Box>, kerf: int)
    requires PairwiseApart(A + B, kerf)
    ensures PairwiseApart(A, kerf) && PairwiseApart(B, kerf)
    ensures forall a, b :: a in A && b in B ==> Separation(b, a) >= kerf
  {
    var S, n := A + B, |A|;
    forall i, j | 0 <= i < j < |A| ensures Separation(A[i], A[j]) >= kerf {
      assert Separation(S[i], S[j]) >= kerf;
    }
    forall i, j | 0 <= i < j < |B| ensures Separation(B[i], B[j]) >= kerf {
      assert Separation(S[n+i], S[n+j]) >= kerf;
    }
    forall a, b | a in A && b in B ensures Separation(b, a) >= kerf {
      var i :| 0 <= i < |A| && A[i] == a;
      var j :| 0 <= j < |B| && B[j] == b;
      assert Separation(S[i], S[n+j]) >= kerf;
    }
  }

  lemma BoxOfListed(placed: seq<Placed>, p: Placed)
    requires p in placed
    ensures BoxOf(p) in BoxesOf(placed)
  {
    var i :| 0 <= i < |placed| && placed[i] == p;
    assert BoxesOf(placed)[i] == BoxOf(p);
  }

  /** A cuttable sheet of legal pieces has nothing else wrong with it. */
  lemma CuttableInOrder(placed: seq<Placed>, whole: seq<Box>, bounds: Box, kerf: nat)
    requires Cuttable(bounds, Boxes(placed, whole), kerf) && AllSolid(Boxes(placed, whole))
    requires forall p :: p in placed ==> Legal(p)
    ensures InOrder(placed, whole, bounds, kerf)
  {
    hide Frees, Legal, Inside, PairwiseApart, Separation, BoxOf, BoxesOf;
    var S := Boxes(placed, whole);
    var t :| Frees(t, bounds, S, kerf);
    FreedPiecesAreApart(t, bounds, S, kerf);
    ApartParts(BoxesOf(placed), whole, kerf);
    forall p | p in placed ensures BoxOf(p) in BoxesOf(placed) { BoxOfListed(placed, p); }
  }

  lemma OneMoreBox(placed: seq<Placed>, pp: Placed, whole: seq<Box>)
    ensures multiset(Boxes(placed + [pp], whole)) == multiset(Boxes(placed, whole) + [BoxOf(pp)])
    ensures AllSolid(Boxes(placed, whole)) && Solid(BoxOf(pp)) ==> AllSolid(Boxes(placed + [pp], whole))
  {
    assert BoxesOf(placed + [pp]) == BoxesOf(placed) + [BoxOf(pp)];
  }

  lemma ShortcutCuts(base: Layout, others: seq<Placed>, whole: seq<Box>, leftovers: seq<Box>, bounds: Box, g: Config,
                     b: Box)
    requires Realized(base, others, whole, bounds, g) && InOrder(others, whole, bounds, g.kerf) && AllSolid(whole)
    requires (forall q :: q in others ==> ValidPiece(q.piece)) && Solid(b)
    requires forall r :: r in leftovers ==> r in base.remainders && r !in whole
    requires FreeableInLeftover(b, leftovers, g.kerf)
    ensures Cuttable(bounds, Boxes(others, whole) + [b], g.kerf)
  {
    hide FreeableAlone, LeastReport, InOrder, Cuttable;
    var S := Boxes(others, whole);
    InOrderSolid(others, whole, bounds, g.kerf);
    if S == [] {
      assert leftovers != [] && FreeableAlone(b, bounds, g.kerf);
      AloneCuttableIff(bounds, b, g.kerf);
      assert S + [b] == [b];
    } else {
      var plan :| LeastReport(plan, bounds, S, g) && base.cuts == plan.cuts && base.remainders == plan.rects + whole;
      var r :| r in leftovers && FreeableAlone(b, r, g.kerf);
      assert r in plan.rects;
      ShortcutIsSound(plan, bounds, S, g, b);
    }
  }

  /** The shortcut as the sheet uses it: in a leftover of the sheet as it is. */
  lemma ShortcutCanGo(base: Layout, others: seq<Placed>, piece: Piece, x: int, y: int, rotated: bool, whole: seq<Box>,
                      leftovers: seq<Box>, bounds: Box, g: Config)
    requires Realized(base, others, whole, bounds, g) && InOrder(others, whole, bounds, g.kerf) && AllSolid(whole)
    requires (forall q :: q in others ==> ValidPiece(q.piece)) && ValidPiece(piece) && Legal(At(piece, x, y, rotated))
    requires forall r :: r in leftovers ==> r in base.remainders && r !in whole
    requires var b := BoxOf(At(piece, x, y, rotated));
             Used(b, whole, g.kerf) == [] && FreeableInLeftover(b, leftovers, g.kerf)
    ensures CanGo(others, piece, Spot(x, y, rotated, []), whole, bounds, g.kerf)
  {
    hide FreeableAlone, LeastReport, Used, Untouched, Legal, Realized, Cuttable, InOrder;
    var pp := At(piece, x, y, rotated);
    var b, S := BoxOf(pp), Boxes(others, whole);
    ShortcutCuts(base, others, whole, leftovers, bounds, g, b);
    OneMoreBox(others, pp, whole);
    CuttableHereditary(bounds, S + [b], Boxes(others + [pp], whole), g.kerf);
    AllLegalNow(others, whole, bounds, g.kerf);
    InOrderSolid(others, whole, bounds, g.kerf);
    CuttableInOrder(others + [pp], whole, bounds, g.kerf);
    NoneTouched(b, whole, g.kerf);
  }

  lemma AllLegalNow(others: seq<Placed>, whole: seq<Box>, bounds: Box, kerf: nat)
    requires InOrder(others, whole, bounds, kerf)
    ensures forall q :: q in others ==> Legal(q)
  {
  }

  // ---- the candidates ---------------------------------------------------------------

  /** A corner of the free space, as (y, x): candidates go bottom up, left to right. */
  datatype Corner = Corner(y: int, x: int)

  function InsertCorner(cs: seq<Corner>, c: Corner): (r: seq<Corner>)
    ensures (forall d :: d in r <==> d in cs || d == c) && |r| <= |cs| + 1
  {
    if c in cs then cs
    else if cs == [] || cs[|cs|-1].y < c.y || (cs[|cs|-1].y == c.y && cs[|cs|-1].x < c.x) then cs + [c]
    else InsertCorner(cs[..|cs|-1], c) + [cs[|cs|-1]]
  }

  predicate IsCornerOf(c: Corner, f: Box, w: int, h: int) {
    && Width(f) >= w && Height(f) >= h
    && (c.x == f.x0 || c.x == f.x1 - w) && (c.y == f.y0 || c.y == f.y1 - h)
  }

  ghost predicate IsCorner(c: Corner, free: seq<Box>, w: int, h: int) {
    exists f :: f in free && IsCornerOf(c, f, w, h)
  }

  lemma CornerOfLast(c: Corner, free: seq<Box>, f: Box, w: int, h: int)
    ensures IsCorner(c, free + [f], w, h) <==> IsCorner(c, free, w, h) || IsCornerOf(c, f, w, h)
  {
    if IsCorner(c, free, w, h) {
      var g :| g in free && IsCornerOf(c, g, w, h);
      assert g in free + [f];
    }
    assert f in free + [f];
  }

  /** The corners of every free rectangle the piece fits in. */
  method Corners(free: seq<Box>, w: int, h: int) returns (cs: seq<Corner>)
    ensures forall c :: c in cs <==> IsCorner(c, free, w, h)
    ensures |cs| <= 4 * |free|
  {
    cs := [];
    for k := 0 to |free|
      invariant |cs| <= 4 * k
      invariant forall c :: c in cs <==> IsCorner(c, free[..k], w, h)
    {
      var f := free[k];
      ghost var before := free[..k];
      assert free[..k+1] == before + [f];
      if Width(f) >= w && Height(f) >= h {
        cs := InsertCorner(InsertCorner(cs, Corner(f.y0, f.x0)), Corner(f.y1 - h, f.x0));
        cs := InsertCorner(InsertCorner(cs, Corner(f.y0, f.x1 - w)), Corner(f.y1 - h, f.x1 - w));
      }
      forall c ensures c in cs <==> IsCorner(c, before + [f], w, h) { CornerOfLast(c, before, f, w, h); }
    }
    assert free[..|free|] == free;
  }

  function NotAmong(S: seq<Box>, T: seq<Box>): (r: seq<Box>)
    ensures forall b :: b in r <==> b in S && b !in T
  {
    if S == [] then [] else NotAmong(S[..|S|-1], T) + if S[|S|-1] in T then [] else [S[|S|-1]]
  }

  /** Node budget enough to decide the sheet with the piece at a position. */
  ghost predicate Affordable(others: seq<Placed>, piece: Piece, s: Spot, whole: seq<Box>, bounds: Box, g: Config,
                             nodeBudget: int) {
    var pp := At(piece, s.x, s.y, s.rotated);
    nodeBudget >= Consolidate.Nodes(bounds, SortBoxes(Boxes(others + [pp], Untouched(BoxOf(pp), whole, g.kerf))), g)
  }

  datatype Sheet = Sheet(width: int, height: int, params: Params, whole: seq<Box>, minRect: int, minUsable: int,
                         nodeBudget: int)

  ghost predicate Sound(sheet: Sheet, others: seq<Placed>, piece: Piece, spots: seq<Spot>) {
    AllSolid(sheet.whole) ==>
      forall s :: s in spots ==>
        CanGo(others, piece, s, sheet.whole, UsableBounds(sheet.width, sheet.height, sheet.params), sheet.params.kerf)
  }

  /** The position at a corner, with the whole offcuts it would land on. */
  function SpotAt(sheet: Sheet, piece: Piece, c: Corner, rotated: bool): Spot {
    Spot(c.x, c.y, rotated, Used(BoxOf(At(piece, c.x, c.y, rotated)), sheet.whole, sheet.params.kerf))
  }

  /** The sheet can be cut with the piece there, and there are nodes enough to see it. */
  ghost predicate Takes(sheet: Sheet, others: seq<Placed>, piece: Piece, s: Spot) {
    var bounds, g := UsableBounds(sheet.width, sheet.height, sheet.params),
                     ConfigOf(sheet.params.kerf, sheet.minRect, sheet.minUsable);
    && AllSolid(sheet.whole) && CanGo(others, piece, s, sheet.whole, bounds, sheet.params.kerf)
    && Affordable(others, piece, s, sheet.whole, bounds, g, sheet.nodeBudget)
  }

  /** The sheet as it is can be cut, and there are nodes enough to see it. */
  ghost predicate Standing(sheet: Sheet, others: seq<Placed>) {
    var bounds, g := UsableBounds(sheet.width, sheet.height, sheet.params),
                     ConfigOf(sheet.params.kerf, sheet.minRect, sheet.minUsable);
    && AllSolid(sheet.whole) && InOrder(others, sheet.whole, bounds, sheet.params.kerf)
    && Cuttable(bounds, Boxes(others, sheet.whole), sheet.params.kerf)
    && sheet.nodeBudget >= Consolidate.Nodes(bounds, SortBoxes(Boxes(others, sheet.whole)), g)
  }

  predicate OfferedAt(spots: seq<Spot>, c: Corner, rotated: bool) {
    exists s :: s in spots && s.rotated == rotated && s.x == c.x && s.y == c.y
  }

  predicate Turned(spots: seq<Spot>, rotated: bool) {
    exists s :: s in spots && s.rotated == rotated
  }

  ghost predicate OffersCorner(sheet: Sheet, others: seq<Placed>, piece: Piece, rotated: bool, c: Corner,
                               firstOnly: bool, spots: seq<Spot>) {
    Takes(sheet, others, piece, SpotAt(sheet, piece, c, rotated)) ==>
      if firstOnly then Turned(spots, rotated) else OfferedAt(spots, c, rotated)
  }

  /** Every corner with which the sheet can be cut is among the positions, or one of them
      when one is all that is asked. */
  ghost predicate Offers(sheet: Sheet, others: seq<Placed>, piece: Piece, rotated: bool, free: seq<Box>,
                         firstOnly: bool, spots: seq<Spot>) {
    forall c :: IsCorner(c, free, WidthAt(piece, rotated), WidthAt(piece, !rotated)) ==>
      OffersCorner(sheet, others, piece, rotated, c, firstOnly, spots)
  }

  function WidthAt(piece: Piece, rotated: bool): int {
    if rotated then piece.height else piece.width
  }

  /** The positions are corners of the free space, this way round. */
  ghost predicate AreCorners(spots: seq<Spot>, piece: Piece, rotated: bool, free: seq<Box>) {
    forall s :: s in spots ==>
      s.rotated == rotated && IsCorner(Corner(s.y, s.x), free, WidthAt(piece, rotated), WidthAt(piece, !rotated))
  }

  /** A position decided by deriving the whole sheet. */
  method Checked(sheet: Sheet, others: seq<Placed>, piece: Piece, x: int, y: int, rotated: bool)
    returns (spot: Option<Spot>)
    requires (forall q :: q in others ==> ValidPiece(q.piece)) && ValidPiece(piece)
    ensures spot.Some? ==> spot.value.x == x && spot.value.y == y && spot.value.rotated == rotated
    ensures spot.Some? ==> Sound(sheet, others, piece, [spot.value])
    ensures var bounds, g := UsableBounds(sheet.width, sheet.height, sheet.params),
                             ConfigOf(sheet.params.kerf, sheet.minRect, sheet.minUsable);
            var s := Spot(x, y, rotated, Used(BoxOf(At(piece, x, y, rotated)), sheet.whole, sheet.params.kerf));
            AllSolid(sheet.whole) && CanGo(others, piece, s, sheet.whole, bounds, sheet.params.kerf)
            && Affordable(others, piece, s, sheet.whole, bounds, g, sheet.nodeBudget)
            ==> spot == Some(s)
  {
    hide InOrder, Cuttable, Realized, Consolidate.Nodes, SortBoxes, Used, Untouched, Boxes;
    var pp := At(piece, x, y, rotated);
    var kerf := sheet.params.kerf;
    var used, kept := Used(BoxOf(pp), sheet.whole, kerf), Untouched(BoxOf(pp), sheet.whole, kerf);
    var layout, _ := RealizeSheet(sheet.width, sheet.height, others + [pp], sheet.params, kept, sheet.minRect,
                                  sheet.minUsable, sheet.nodeBudget);
    spot := if layout.Some? then Some(Spot(x, y, rotated, used)) else None;
  }

  /** One corner of the free space: accepted by the shortcut, or by a derivation of
      the whole sheet while derivations are left. */
  method TryCorner(sheet: Sheet, others: seq<Placed>, piece: Piece, x: int, y: int, rotated: bool,
                   base: Option<Layout>, leftovers: seq<Box>, fullChecks: int, maxFullChecks: int)
    returns (spot: Option<Spot>, checks: int)
    requires (forall q :: q in others ==> ValidPiece(q.piece)) && ValidPiece(piece) && (rotated ==> piece.canRotate)
    requires var bounds, g := UsableBounds(sheet.width, sheet.height, sheet.params),
                              ConfigOf(sheet.params.kerf, sheet.minRect, sheet.minUsable);
             AllSolid(sheet.whole) && base.Some? ==>
               Realized(base.value, others, sheet.whole, bounds, g) && InOrder(others, sheet.whole, bounds, g.kerf)
    requires base.None? ==> leftovers == []
    requires base.Some? ==> forall r :: r in leftovers ==> r in base.value.remainders && r !in sheet.whole
    ensures spot.Some? ==> spot.value.x == x && spot.value.y == y && spot.value.rotated == rotated
    ensures spot.Some? ==> Sound(sheet, others, piece, [spot.value])
    ensures fullChecks <= checks <= Max(fullChecks, maxFullChecks) && checks <= fullChecks + 1
    ensures base.Some? && fullChecks < maxFullChecks ==>
              Takes(sheet, others, piece, SpotAt(sheet, piece, Corner(y, x), rotated)) ==> spot.Some?
  {
    hide InOrder, Cuttable, Realized, Used, Untouched, Boxes, FreeableAlone, UsableBounds, CanGo, Affordable;
    var pp := At(piece, x, y, rotated);
    var kerf := sheet.params.kerf;
    var used := Used(BoxOf(pp), sheet.whole, kerf);
    spot, checks := None, fullChecks;
    if used == [] && FreeableInLeftover(BoxOf(pp), leftovers, kerf) {
      if AllSolid(sheet.whole) {
        ShortcutCanGo(base.value, others, piece, x, y, rotated, sheet.whole, leftovers,
                      UsableBounds(sheet.width, sheet.height, sheet.params),
                      ConfigOf(kerf, sheet.minRect, sheet.minUsable));
      }
      spot := Some(Spot(x, y, rotated, []));
    } else if base.Some? && fullChecks < maxFullChecks {
      checks := fullChecks + 1;
      spot := Checked(sheet, others, piece, x, y, rotated);
    }
  }

  /** Where a piece can go on a sheet already holding `others`: first where it sits
      now and turned on that corner, then the corners of the free space. Every
      position offered can be cut, putting a piece back always works, and every corner
      with which the sheet can be cut is offered when nodes and full checks are enough. */
  method PlacementCandidates(sheet: Sheet, others: seq<Placed>, piece: Piece, firstOnly: bool, current: Option<Spot>,
                             maxFullChecks: int)
    returns (spots: seq<Spot>, free: seq<Box>)
    requires (forall q :: q in others ==> ValidPiece(q.piece)) && ValidPiece(piece)
    ensures Sound(sheet, others, piece, spots)
    ensures forall b :: b in free <==>
              MaximalFree(b, UsableBounds(sheet.width, sheet.height, sheet.params), BoxesOf(others), sheet.params.kerf)
    ensures var bounds, g := UsableBounds(sheet.width, sheet.height, sheet.params),
                             ConfigOf(sheet.params.kerf, sheet.minRect, sheet.minUsable);
            current.Some? ==>
              var at := current.value;
              var s := Spot(at.x, at.y, at.rotated,
                            Used(BoxOf(At(piece, at.x, at.y, at.rotated)), sheet.whole, sheet.params.kerf));
              AllSolid(sheet.whole) && CanGo(others, piece, s, sheet.whole, bounds, sheet.params.kerf)
              && Affordable(others, piece, s, sheet.whole, bounds, g, sheet.nodeBudget)
              ==> |spots| > 0 && spots[0] == s
    ensures Standing(sheet, others) && maxFullChecks >= 8 * |free| ==>
              && Offers(sheet, others, piece, false, free, firstOnly, spots)
              && (piece.canRotate && piece.width != piece.height ==>
                    Offers(sheet, others, piece, true, free, firstOnly, spots))
    ensures forall s :: s in spots ==>
              || (current.Some? && s.x == current.value.x && s.y == current.value.y)
              || IsCorner(Corner(s.y, s.x), free, WidthAt(piece, s.rotated), WidthAt(piece, !s.rotated))
  {
    hide CanGo, MaximalFree, IsFree, FreeableAlone, Affordable, InOrder, Realized, Cuttable, Boxes, Used, IsCorner,
         Offers, Consolidate.Nodes, SortBoxes, AllSolid;
    var bounds := UsableBounds(sheet.width, sheet.height, sheet.params);
    free := FreeRectangles(bounds, BoxesOf(others), sheet.params.kerf);
    var base, _ := RealizeSheet(sheet.width, sheet.height, others, sheet.params, sheet.whole, sheet.minRect,
                                sheet.minUsable, sheet.nodeBudget);
    var leftovers := if base.Some? then NotAmong(base.value.remainders, sheet.whole) else [];
    spots := [];
    if current.Some? {
      var now := current.value;
      var spot := Checked(sheet, others, piece, now.x, now.y, now.rotated);
      spots := if spot.Some? then [spot.value] else [];
      if piece.canRotate && piece.width != piece.height {
        spot := Checked(sheet, others, piece, now.x, now.y, !now.rotated);
        spots := spots + if spot.Some? then [spot.value] else [];
      }
    }
    ghost var offered := spots;
    var checks := 0;
    assert Standing(sheet, others) ==> base.Some?;
    spots, checks := TryOrientation(sheet, others, piece, false, free, firstOnly, spots, base, leftovers, checks,
                                    maxFullChecks);
    if piece.canRotate && piece.width != piece.height {
      ghost var drawn := spots;
      spots, checks := TryOrientation(sheet, others, piece, true, free, firstOnly, spots, base, leftovers, checks,
                                      maxFullChecks);
      if Offers(sheet, others, piece, false, free, firstOnly, drawn) {
        StillOffers(sheet, others, piece, false, free, firstOnly, drawn, spots);
      }
    }
  }

  lemma StillOffers(sheet: Sheet, others: seq<Placed>, piece: Piece, rotated: bool, free: seq<Box>, firstOnly: bool,
                    spots: seq<Spot>, more: seq<Spot>)
    requires Offers(sheet, others, piece, rotated, free, firstOnly, spots) && spots <= more
    ensures Offers(sheet, others, piece, rotated, free, firstOnly, more)
  {
    hide Takes, IsCorner;
    forall c | IsCorner(c, free, WidthAt(piece, rotated), WidthAt(piece, !rotated))
      ensures OffersCorner(sheet, others, piece, rotated, c, firstOnly, more)
    {
      StillOffersCorner(sheet, others, piece, rotated, c, firstOnly, spots, more);
    }
  }

  lemma StillOffersCorner(sheet: Sheet, others: seq<Placed>, piece: Piece, rotated: bool, c: Corner, firstOnly: bool,
                          spots: seq<Spot>, more: seq<Spot>)
    requires OffersCorner(sheet, others, piece, rotated, c, firstOnly, spots) && spots <= more
    ensures OffersCorner(sheet, others, piece, rotated, c, firstOnly, more)
  {
    hide Takes;
    assert forall s :: s in spots ==> s in more;
  }

  /** The first `k` corners are offered if they should be. */
  ghost predicate OffersFirst(sheet: Sheet, others: seq<Placed>, piece: Piece, rotated: bool, corners: seq<Corner>,
                              k: nat, firstOnly: bool, spots: seq<Spot>)
    requires k <= |corners|
  {
    forall i :: 0 <= i < k ==> OffersCorner(sheet, others, piece, rotated, corners[i], firstOnly, spots)
  }

  lemma NoneOffered(sheet: Sheet, others: seq<Placed>, piece: Piece, rotated: bool, corners: seq<Corner>,
                    firstOnly: bool, spots: seq<Spot>)
    ensures OffersFirst(sheet, others, piece, rotated, corners, 0, firstOnly, spots)
  {
  }

  lemma OffersNext(sheet: Sheet, others: seq<Placed>, piece: Piece, rotated: bool, corners: seq<Corner>, k: nat,
                   firstOnly: bool, spots: seq<Spot>, more: seq<Spot>)
    requires k < |corners| && OffersFirst(sheet, others, piece, rotated, corners, k, firstOnly, spots) && spots <= more
    requires OffersCorner(sheet, others, piece, rotated, corners[k], firstOnly, more)
    ensures OffersFirst(sheet, others, piece, rotated, corners, k + 1, firstOnly, more)
  {
    hide OffersCorner;
    forall i | 0 <= i < k ensures OffersCorner(sheet, others, piece, rotated, corners[i], firstOnly, more) {
      StillOffersCorner(sheet, others, piece, rotated, corners[i], firstOnly, spots, more);
    }
  }

  lemma OffersEvery(sheet: Sheet, others: seq<Placed>, piece: Piece, rotated: bool, free: seq<Box>,
                    corners: seq<Corner>, firstOnly: bool, spots: seq<Spot>)
    requires forall c :: c in corners <==> IsCorner(c, free, WidthAt(piece, rotated), WidthAt(piece, !rotated))
    requires OffersFirst(sheet, others, piece, rotated, corners, |corners|, firstOnly, spots)
    ensures Offers(sheet, others, piece, rotated, free, firstOnly, spots)
  {
    hide OffersCorner, IsCorner;
    forall c | IsCorner(c, free, WidthAt(piece, rotated), WidthAt(piece, !rotated))
      ensures OffersCorner(sheet, others, piece, rotated, c, firstOnly, spots)
    {
      assert c in corners;
      var i :| 0 <= i < |corners| && corners[i] == c;
    }
  }

  lemma OneIsEnough(sheet: Sheet, others: seq<Placed>, piece: Piece, rotated: bool, free: seq<Box>, spots: seq<Spot>)
    requires Turned(spots, rotated)
    ensures Offers(sheet, others, piece, rotated, free, true, spots)
  {
    hide Takes, IsCorner;
  }

  /** All corners for one orientation, skipping positions already offered. */
  method TryOrientation(sheet: Sheet, others: seq<Placed>, piece: Piece, rotated: bool, free: seq<Box>, firstOnly: bool,
                        offered: seq<Spot>, base: Option<Layout>, leftovers: seq<Box>, fullChecks: int,
                        maxFullChecks: int)
    returns (spots: seq<Spot>, checks: int)
    requires (forall q :: q in others ==> ValidPiece(q.piece)) && ValidPiece(piece) && (rotated ==> piece.canRotate)
    requires var bounds, g := UsableBounds(sheet.width, sheet.height, sheet.params),
                              ConfigOf(sheet.params.kerf, sheet.minRect, sheet.minUsable);
             AllSolid(sheet.whole) && base.Some? ==>
               Realized(base.value, others, sheet.whole, bounds, g) && InOrder(others, sheet.whole, bounds, g.kerf)
    requires base.None? ==> leftovers == []
    requires base.Some? ==> forall r :: r in leftovers ==> r in base.value.remainders && r !in sheet.whole
    requires Sound(sheet, others, piece, offered)
    ensures offered <= spots && Sound(sheet, others, piece, spots)
    ensures AreCorners(spots[|offered|..], piece, rotated, free)
    ensures fullChecks <= checks <= fullChecks + 4 * |free|
    ensures base.Some? && maxFullChecks >= fullChecks + 4 * |free| ==>
              Offers(sheet, others, piece, rotated, free, firstOnly, spots)
  {
    hide CanGo, InOrder, Realized, IsCorner, ConfigOf, UsableBounds, Takes, Sound, Offers, OffersFirst, Used;
    spots, checks := offered, fullChecks;
    if firstOnly && exists s :: s in spots && s.rotated == rotated {
      OneIsEnough(sheet, others, piece, rotated, free, spots);
      return;
    }
    var w, h := WidthAt(piece, rotated), WidthAt(piece, !rotated);
    var corners := Corners(free, w, h);
    NoneOffered(sheet, others, piece, rotated, corners, firstOnly, spots);
    for k := 0 to |corners|
      invariant offered <= spots && Sound(sheet, others, piece, spots)
      invariant AreCorners(spots[|offered|..], piece, rotated, free)
      invariant fullChecks <= checks <= fullChecks + k
      invariant base.Some? && maxFullChecks >= fullChecks + 4 * |free| ==>
                  OffersFirst(sheet, others, piece, rotated, corners, k, firstOnly, spots)
    {
      ghost var before := spots;
      var Corner(y, x) := corners[k];
      assert corners[k] in corners;
      if !exists s :: s in spots && s.rotated == rotated && s.x == x && s.y == y {
        var spot;
        spot, checks := TryCorner(sheet, others, piece, x, y, rotated, base, leftovers, checks, maxFullChecks);
        if spot.Some? {
          spots := spots + [spot.value];
          assert spot.value in spots && spots[|offered|..] == before[|offered|..] + [spot.value];
          SoundAll(sheet, others, piece, before, spot.value);
          if firstOnly {
            OneIsEnough(sheet, others, piece, rotated, free, spots);
            return;
          }
        }
      }
      if OffersFirst(sheet, others, piece, rotated, corners, k, firstOnly, before)
         && OffersCorner(sheet, others, piece, rotated, corners[k], firstOnly, spots) {
        OffersNext(sheet, others, piece, rotated, corners, k, firstOnly, before, spots);
      }
    }
    if OffersFirst(sheet, others, piece, rotated, corners, |corners|, firstOnly, spots) {
      OffersEvery(sheet, others, piece, rotated, free, corners, firstOnly, spots);
    }
  }

  lemma SoundAll(sheet: Sheet, others: seq<Placed>, piece: Piece, spots: seq<Spot>, s: Spot)
    requires Sound(sheet, others, piece, spots) && Sound(sheet, others, piece, [s])
    ensures Sound(sheet, others, piece, spots + [s])
  {
    hide CanGo;
    assert s in [s];
  }
}
