/**
packer.py: the single-sheet guillotine packer, a state machine over the free
rectangles of one sheet.

A ghost cut tree records what its placements mean. Every state it can reach is a
tree in consolidate.py's search space whose report is the packer's own list of
cuts and free rectangles.
*/
module Packer {
  import opened Geometry
  import opened Guillotine
  import opened Surgery
  import opened CandidateCuts
  import opened Plans
  import opened Filling
  import opened Sheets

  datatype SplitRule =
    | ShorterLeftoverAxis
    | LongerLeftoverAxis
    | MinimizeArea
    | MaximizeArea
    | ShorterAxis
    | LongerAxis

  datatype Selection = BestAreaFit | BottomLeft

  // ---- choosing a gap ----------------------------------------------------------

  predicate Fits(rect: Box, w: int, h: int) {
    Width(rect) >= w && Height(rect) >= h
  }

  predicate FitsPiece(rect: Box, p: Piece) {
    Fits(rect, p.width, p.height) || (p.canRotate && Fits(rect, p.height, p.width))
  }

  /** How good a gap is for a piece laid `w` wide, lower first. */
  datatype GapScore = GapScore(x: int, y: int, leftover: int, slack: int)

  predicate LessGap(a: GapScore, b: GapScore) {
    || a.x < b.x
    || (a.x == b.x && a.y < b.y)
    || (a.x == b.x && a.y == b.y && a.leftover < b.leftover)
    || (a.x == b.x && a.y == b.y && a.leftover == b.leftover && a.slack < b.slack)
  }

  function GapScoreOf(rect: Box, p: Piece, w: int, sel: Selection): GapScore {
    GapScore(if sel == BottomLeft then rect.x0 else 0, if sel == BottomLeft then rect.y0 else 0,
             Area(rect) - p.width * p.height, Width(rect) - w)
  }

  // ---- splitting a gap around a piece --------------------------------------------

  /** The cuts that free a `w` x `h` piece from the near corner of a gap. With
      `topFirst` the strip above the piece is cut off at full width first. */
  function CornerTree(rect: Box, w: int, h: int, topFirst: bool): GTree {
    var wide, tall := Width(rect) > w, Height(rect) > h;
    if topFirst then
      var inner := if wide then Cut(false, rect.x0 + w, Whole, Empty) else Whole;
      if tall then Cut(true, rect.y0 + h, inner, Empty) else inner
    else
      var inner := if tall then Cut(true, rect.y0 + h, Whole, Empty) else Whole;
      if wide then Cut(false, rect.x0 + w, inner, Empty) else inner
  }

  lemma OnePieceClear(b: Box, h: bool, kerf: nat)
    requires Solid(b)
    ensures Clear([b], h, Hi(b, h), kerf)
    ensures Near([b], h, Hi(b, h)) == [b]
    ensures Far([b], h, Hi(b, h), kerf) == []
  {
    SideAll([b], h, Hi(b, h), false);
    SideNone([b], h, Hi(b, h) + kerf, true);
  }

  /** One crop past the far edge of the only piece is a candidate cut. */
  lemma CropSearchable(t: GTree, r: Box, b: Box, h: bool, kerf: nat)
    requires Solid(b) && Lo(r, h) < Hi(b, h) < Hi(r, h)
    requires Searchable(t, NearRegion(r, h, Hi(b, h)), [b], kerf)
    ensures Searchable(Cut(h, Hi(b, h), t, Empty), r, [b], kerf)
  {
    OnePieceClear(b, h, kerf);
    SearchableLeaf(FarRegion(r, h, Hi(b, h), kerf), kerf);
    assert b in [b];
    hide Searchable, Side;
    SearchableCut(h, Hi(b, h), t, Empty, r, [b], kerf);
  }

  lemma CornerSearchable(rect: Box, w: int, h: int, topFirst: bool, kerf: nat)
    requires w > 0 && h > 0 && Fits(rect, w, h)
    ensures Searchable(CornerTree(rect, w, h, topFirst), rect, [Box(rect.x0, rect.y0, rect.x0 + w, rect.y0 + h)], kerf)
  {
    hide Searchable;
    var b := Box(rect.x0, rect.y0, rect.x0 + w, rect.y0 + h);
    SearchableLeaf(b, kerf);
    var wide, tall := Width(rect) > w, Height(rect) > h;
    var inner := NearRegion(rect, topFirst, if topFirst then b.y1 else b.x1);
    if if topFirst then wide else tall {
      assert NearRegion(inner, !topFirst, Hi(b, !topFirst)) == b;
      CropSearchable(Whole, inner, b, !topFirst, kerf);
    } else {
      assert inner == b;
    }
    if if topFirst then tall else wide {
      CropSearchable(if (if topFirst then wide else tall) then Cut(!topFirst, Hi(b, !topFirst), Whole, Empty)
                     else Whole, rect, b, topFirst, kerf);
    } else {
      assert inner == rect;
    }
  }

  /** The strips beside and above the piece, less what the blade consumes. */
  function CornerRects(rect: Box, w: int, h: int, topFirst: bool, kerf: nat): seq<Box> {
    var right := if rect.x0 + w + kerf < rect.x1
                 then [Box(rect.x0 + w + kerf, rect.y0, rect.x1, if topFirst then rect.y0 + h else rect.y1)] else [];
    var top := if rect.y0 + h + kerf < rect.y1
               then [Box(rect.x0, rect.y0 + h + kerf, if topFirst then rect.x1 else rect.x0 + w, rect.y1)] else [];
    if topFirst then right + top else top + right
  }

  lemma CropOffcuts(t: GTree, r: Box, h: bool, at: int, kerf: nat)
    ensures Offcuts(Cut(h, at, t, Empty), r, kerf) ==
            Offcuts(t, NearRegion(r, h, at), kerf)
            + if Solid(FarRegion(r, h, at, kerf)) then [FarRegion(r, h, at, kerf)] else []
  {
  }

  lemma WholeLeavesNothing(r: Box, kerf: nat)
    ensures Offcuts(Whole, r, kerf) == []
  {
  }

  lemma CornerOffcuts(rect: Box, w: int, h: int, topFirst: bool, kerf: nat)
    requires w > 0 && h > 0 && Fits(rect, w, h)
    ensures Offcuts(CornerTree(rect, w, h, topFirst), rect, kerf) == CornerRects(rect, w, h, topFirst, kerf)
  {
    hide Offcuts;
    var wide, tall := Width(rect) > w, Height(rect) > h;
    var x, y := rect.x0 + w, rect.y0 + h;
    WholeLeavesNothing(Box(rect.x0, rect.y0, x, y), kerf);
    if topFirst {
      var inner := if wide then Cut(false, x, Whole, Empty) else Whole;
      CropOffcuts(Whole, NearRegion(rect, true, y), false, x, kerf);
      CropOffcuts(inner, rect, true, y, kerf);
    } else {
      var inner := if tall then Cut(true, y, Whole, Empty) else Whole;
      CropOffcuts(Whole, NearRegion(rect, false, x), true, y, kerf);
      CropOffcuts(inner, rect, false, x, kerf);
    }
  }

  lemma CropCuts(t: GTree, r: Box, h: bool, at: int, g: Config)
    ensures PlanOf(Cut(h, at, t, Empty), r, g).cuts == [CutOf(r, h, at)] + PlanOf(t, NearRegion(r, h, at), g).cuts
  {
  }

  lemma CornerCuts(rect: Box, w: int, h: int, topFirst: bool, g: Config)
    requires w > 0 && h > 0 && Fits(rect, w, h)
    ensures var tall := if Height(rect) > h then [SawCut(rect.x0, rect.y0 + h, if topFirst then Width(rect)
                                                         else w, true)] else [];
            var wide := if Width(rect) > w
                then [SawCut(rect.x0 + w, rect.y0, if topFirst then h else Height(rect), false)] else [];
            PlanOf(CornerTree(rect, w, h, topFirst), rect, g).cuts == if topFirst then tall + wide else wide + tall
  {
    var wide, tall := Width(rect) > w, Height(rect) > h;
    var x, y := rect.x0 + w, rect.y0 + h;
    assert PlanOf(Whole, Box(rect.x0, rect.y0, x, y), g).cuts == [];
    hide PlanOf;
    if topFirst {
      CropCuts(Whole, NearRegion(rect, true, y), false, x, g);
      CropCuts(if wide then Cut(false, x, Whole, Empty) else Whole, rect, true, y, g);
    } else {
      CropCuts(Whole, NearRegion(rect, false, x), true, y, g);
      CropCuts(if tall then Cut(true, y, Whole, Empty) else Whole, rect, false, x, g);
    }
  }

  /** Offcuts worth keeping, in order. */
  function Keep(S: seq<Box>, g: Config): seq<Box> {
    if S == [] then []
    else Keep(S[..|S|-1], g) + Leftover(S[|S|-1], g).rects
  }

  lemma {:induction false} KeepConcat(A: seq<Box>, B: seq<Box>, g: Config)
    ensures Keep(A + B, g) == Keep(A, g) + Keep(B, g)
  {
    if B == [] {
      assert A + B == A;
    } else {
      assert (A + B)[..|A + B|-1] == A + B[..|B|-1];
      KeepConcat(A, B[..|B|-1], g);
    }
  }

  /** What a tree reports is what it leaves over, less what is too thin. */
  lemma {:induction false} ReportKeeps(t: GTree, r: Box, g: Config)
    ensures PlanOf(t, r, g).rects == Keep(Offcuts(t, r, g.kerf), g)
  {
    if t == Empty {
      assert [r][..0] == [];
    } else if t.Cut? {
      var n, f := NearRegion(r, t.horizontal, t.at), FarRegion(r, t.horizontal, t.at, g.kerf);
      ReportKeeps(t.near, n, g);
      ReportKeeps(t.far, f, g);
      KeepConcat(Offcuts(t.near, n, g.kerf), if Solid(f) then Offcuts(t.far, f, g.kerf) else [], g);
    }
  }

  function MaxArea(S: seq<Box>): int {
    if S == [] then 0 else Max(MaxArea(S[..|S|-1]), Area(S[|S|-1]))
  }

  /** Stable sort by area, smallest first. */
  function InsertByArea(S: seq<Box>, b: Box): (r: seq<Box>)
    ensures multiset(r) == multiset(S) + multiset{b}
  {
    if S == [] || Area(S[|S|-1]) <= Area(b) then S + [b]
    else
      assert S == S[..|S|-1] + [S[|S|-1]];
      InsertByArea(S[..|S|-1], b) + [S[|S|-1]]
  }

  function SortByArea(S: seq<Box>): (r: seq<Box>)
    ensures multiset(r) == multiset(S)
  {
    if S == [] then []
    else
      assert S == S[..|S|-1] + [S[|S|-1]];
      InsertByArea(SortByArea(S[..|S|-1]), S[|S|-1])
  }

  predicate AreaAscending(S: seq<Box>) {
    forall i, j :: 0 <= i < j < |S| ==> Area(S[i]) <= Area(S[j])
  }

  lemma {:induction false} InsertedInOrder(S: seq<Box>, b: Box)
    requires AreaAscending(S)
    ensures AreaAscending(InsertByArea(S, b))
  {
    hide Area;
    if S != [] && Area(S[|S|-1]) > Area(b) {
      var init, last := S[..|S|-1], S[|S|-1];
      InsertedInOrder(init, b);
      var r := InsertByArea(init, b);
      forall i | 0 <= i < |r| ensures Area(r[i]) <= Area(last) {
        assert r[i] in multiset(init) + multiset{b};
        if r[i] != b { assert r[i] in init; }
      }
    }
  }

  /** Gaps are kept smallest first. */
  lemma {:induction false} GapsAscend(S: seq<Box>)
    ensures AreaAscending(SortByArea(S))
  {
    if S != [] {
      GapsAscend(S[..|S|-1]);
      InsertedInOrder(SortByArea(S[..|S|-1]), S[|S|-1]);
    }
  }

  /** Whether the strip above a piece of this size is cut off first, by the split rule. */
  function TopFirst(rule: SplitRule, rect: Box, w: int, h: int, kerf: nat): bool {
    var top, side := MaxArea(Offcuts(CornerTree(rect, w, h, true), rect, kerf)),
                     MaxArea(Offcuts(CornerTree(rect, w, h, false), rect, kerf));
    match rule
    case ShorterLeftoverAxis => Width(rect) - w <= Height(rect) - h
    case LongerLeftoverAxis => Width(rect) - w >= Height(rect) - h
    case ShorterAxis => Width(rect) <= Height(rect)
    case LongerAxis => Width(rect) >= Height(rect)
    case MinimizeArea => top <= side
    case MaximizeArea => top >= side
  }

  /** The strip of a gap cut off first, over its whole width or height, and the one cut off
      what is left beside the piece. */
  function WholeStrip(rect: Box, w: int, h: int, topFirst: bool, kerf: nat): Box {
    if topFirst then Box(rect.x0, rect.y0 + h + kerf, rect.x1, rect.y1)
    else Box(rect.x0 + w + kerf, rect.y0, rect.x1, rect.y1)
  }

  function ShortStrip(rect: Box, w: int, h: int, topFirst: bool, kerf: nat): Box {
    if topFirst then Box(rect.x0 + w + kerf, rect.y0, rect.x1, rect.y0 + h)
    else Box(rect.x0, rect.y0 + h + kerf, rect.x0 + w, rect.y1)
  }

  /** A split that leaves two strips leaves one over the whole gap and one beside the piece.
      Over the whole gap goes: the thicker strip under the shorter leftover axis, the thinner
      under the longer, one along the gap's shorter side under the shorter axis, along its
      longer under the longer. Minimizing takes the split whose larger strip is the smaller,
      maximizing the one whose larger strip is the larger. The strip above is first among
      equals. */
  lemma SplitRulePrefers(rule: SplitRule, rect: Box, w: int, h: int, kerf: nat)
    requires 0 < w && 0 < h && w + kerf < Width(rect) && h + kerf < Height(rect)
    ensures var top := TopFirst(rule, rect, w, h, kerf);
            var long, short := WholeStrip(rect, w, h, top, kerf), ShortStrip(rect, w, h, top, kerf);
            var long', short' := WholeStrip(rect, w, h, !top, kerf), ShortStrip(rect, w, h, !top, kerf);
            var larger, larger' := Max(Area(long), Area(short)), Max(Area(long'), Area(short'));
            var thick, thick' := if top then Height(long) else Width(long), if top then Width(short) else Height(short);
            var run, run' := if top then Width(long) else Height(long), if top then Height(rect) else Width(rect);
            && multiset(Offcuts(CornerTree(rect, w, h, top), rect, kerf)) == multiset{long, short}
            && match rule
               case ShorterLeftoverAxis => thick > thick' || (thick == thick' && top)
               case LongerLeftoverAxis => thick < thick' || (thick == thick' && top)
               case ShorterAxis => run < run' || (run == run' && top)
               case LongerAxis => run > run' || (run == run' && top)
               case MinimizeArea => larger < larger' || (larger == larger' && top)
               case MaximizeArea => larger > larger' || (larger == larger' && top)
  {
    CornerOffcuts(rect, w, h, true, kerf);
    CornerOffcuts(rect, w, h, false, kerf);
    hide Offcuts, CornerTree;
    TwoStrips(rect, w, h, true, kerf);
    TwoStrips(rect, w, h, false, kerf);
  }

  lemma TwoStrips(rect: Box, w: int, h: int, topFirst: bool, kerf: nat)
    requires 0 < w && 0 < h && w + kerf < Width(rect) && h + kerf < Height(rect)
    ensures var long, short := WholeStrip(rect, w, h, topFirst, kerf), ShortStrip(rect, w, h, topFirst, kerf);
            && multiset(CornerRects(rect, w, h, topFirst, kerf)) == multiset{long, short}
            && MaxArea(CornerRects(rect, w, h, topFirst, kerf)) == Max(Area(long), Area(short))
  {
    var long, short := WholeStrip(rect, w, h, topFirst, kerf), ShortStrip(rect, w, h, topFirst, kerf);
    SolidArea(long);
    SolidArea(short);
    hide Area;
    assert CornerRects(rect, w, h, topFirst, kerf) == [short, long];
    LargerOfTwo(short, long);
  }

  lemma LargerOfTwo(a: Box, b: Box)
    requires Area(a) > 0 && Area(b) > 0
    ensures MaxArea([a, b]) == Max(Area(a), Area(b))
  {
    hide Area;
    assert MaxArea([]) == 0;
    assert [a][..0] == [] && MaxArea([a]) == Area(a);
    assert [a, b][..1] == [a];
  }

  lemma SolidArea(b: Box)
    requires Solid(b)
    ensures Area(b) > 0
  {
    assert Width(b) > 0 && Height(b) > 0;
  }

  /** What cutting a piece out of the corner of a gap reports under the split rule. */
  function SplitReport(rule: SplitRule, rect: Box, w: int, h: int, g: Config): Plan {
    PlanOf(CornerTree(rect, w, h, TopFirst(rule, rect, w, h, g.kerf)), rect, g)
  }

  /** The gaps after that split, smallest first. */
  function GapsAfter(rule: SplitRule, gaps: seq<Box>, i: nat, w: int, h: int, g: Config): seq<Box>
    requires i < |gaps|
  {
    SortByArea(gaps[..i] + gaps[i+1..] + SplitReport(rule, gaps[i], w, h, g).rects)
  }

  predicate FitsAs(rect: Box, p: Piece, rotated: bool) {
    if rotated then p.canRotate && Fits(rect, p.height, p.width) else Fits(rect, p.width, p.height)
  }

  /** A gap takes a piece exactly when the piece can lie somewhere in it, as drawn or turned
      if it may be. */
  lemma FitsIffLies(rect: Box, p: Piece)
    requires ValidPiece(p)
    ensures FitsPiece(rect, p) <==> exists q: Placed :: q.piece == p && Legal(q) && Inside(BoxOf(q), rect)
    ensures forall rotated: bool ::
              FitsAs(rect, p, rotated) <==>
              exists q: Placed :: q.piece == p && Legal(q) && Inside(BoxOf(q), rect) && q.rotated == rotated
  {
    var drawn := Placed(p, rect.x0, rect.y0, p.width, p.height, false);
    var turned := Placed(p, rect.x0, rect.y0, p.height, p.width, true);
    assert FitsAs(rect, p, false) ==> Legal(drawn) && Inside(BoxOf(drawn), rect);
    assert FitsAs(rect, p, true) ==> Legal(turned) && Inside(BoxOf(turned), rect);
  }

  function ScoreAs(rect: Box, p: Piece, rotated: bool, sel: Selection): GapScore {
    GapScoreOf(rect, p, if rotated then p.height else p.width, sel)
  }

  /** Gap `i` in orientation `rotated` is the best fit for the piece, and the first
      among equals when gaps are tried in order, upright before turned. */
  predicate BestGap(rects: seq<Box>, p: Piece, sel: Selection, i: int, rotated: bool) {
    && 0 <= i < |rects|
    && FitsAs(rects[i], p, rotated)
    && (forall j, other :: 0 <= j < |rects| && FitsAs(rects[j], p, other) ==>
          if j < i || (j == i && !other && rotated)
          then LessGap(ScoreAs(rects[i], p, rotated, sel), ScoreAs(rects[j], p, other, sel))
          else !LessGap(ScoreAs(rects[j], p, other, sel), ScoreAs(rects[i], p, rotated, sel)))
  }

  /** What the rule says of two gaps that both take the piece, the second leaving `slack'`
      of its width: best area fit takes the smaller gap; bottom left the one further left,
      then further down, then the smaller. Of equals, the one the piece leaves less width of. */
  predicate NoWorseGap(sel: Selection, a: Box, slack: int, b: Box, slack': int) {
    var snug := Area(a) < Area(b) || (Area(a) == Area(b) && slack <= slack');
    match sel
    case BestAreaFit => snug
    case BottomLeft => a.x0 < b.x0 || (a.x0 == b.x0 && (a.y0 < b.y0 || (a.y0 == b.y0 && snug)))
  }

  function SlackOf(rect: Box, p: Piece, rotated: bool): int {
    Width(rect) - if rotated then p.height else p.width
  }

  /** No gap that takes the piece is better than the best, nor as good and earlier. */
  lemma BestGapIsBest(rects: seq<Box>, p: Piece, sel: Selection, i: int, rotated: bool)
    requires BestGap(rects, p, sel, i, rotated)
    ensures forall j, other :: 0 <= j < |rects| && FitsAs(rects[j], p, other) ==>
              && NoWorseGap(sel, rects[i], SlackOf(rects[i], p, rotated), rects[j], SlackOf(rects[j], p, other))
              && (NoWorseGap(sel, rects[j], SlackOf(rects[j], p, other), rects[i], SlackOf(rects[i], p, rotated)) ==>
                    i < j || (i == j && (rotated ==> other)))
  {
    hide Area;
  }

  lemma BestGapFits(rects: seq<Box>, p: Piece, sel: Selection, i: int, rotated: bool)
    requires BestGap(rects, p, sel, i, rotated)
    ensures 0 <= i < |rects| && FitsAs(rects[i], p, rotated) && FitsPiece(rects[i], p) && rects[i] in rects
  {
  }

  /** The piece at the near corner of a gap. */
  function AtCorner(p: Piece, rect: Box, rotated: bool): Placed {
    Placed(p, rect.x0, rect.y0, if rotated then p.height else p.width, if rotated then p.width else p.height, rotated)
  }

  // ---- the packer as a function --------------------------------------------------------------

  datatype GapChoice = GapChoice(index: nat, rotated: bool)

  /** The better of the best gap so far and gap `i` in one orientation. */
  function Better(gaps: seq<Box>, p: Piece, sel: Selection, best: Option<GapChoice>, i: nat,
                  rotated: bool): Option<GapChoice>
    requires i < |gaps| && (best.Some? ==> best.value.index < |gaps|)
  {
    if FitsAs(gaps[i], p, rotated) &&
       (best.None? || LessGap(ScoreAs(gaps[i], p, rotated, sel),
                              ScoreAs(gaps[best.value.index], p, best.value.rotated, sel)))
    then Some(GapChoice(i, rotated)) else best
  }

  /** The first best among the first `n` gaps. */
  function BestTo(gaps: seq<Box>, p: Piece, sel: Selection, n: nat): (best: Option<GapChoice>)
    requires n <= |gaps|
    ensures best.Some? ==> best.value.index < n
  {
    if n == 0 then None
    else Better(gaps, p, sel, Better(gaps, p, sel, BestTo(gaps, p, sel, n - 1), n - 1, false), n - 1, true)
  }

  /** Gaps left, pieces placed, cuts taken. */
  datatype Packing = Packing(gaps: seq<Box>, placed: seq<Placed>, cuts: seq<SawCut>)

  /** One more piece, put into the best gap if any takes it. */
  function PlaceIn(s: Packing, p: Piece, rule: SplitRule, sel: Selection, g: Config): Packing {
    var best := BestTo(s.gaps, p, sel, |s.gaps|);
    if best.None? then s
    else
      var rect := s.gaps[best.value.index];
      var q := AtCorner(p, rect, best.value.rotated);
      Packing(GapsAfter(rule, s.gaps, best.value.index, q.width, q.height, g), s.placed + [q],
              s.cuts + SplitReport(rule, rect, q.width, q.height, g).cuts)
  }

  /** All pieces, in order. */
  function PackAll(s: Packing, pieces: seq<Piece>, rule: SplitRule, sel: Selection, g: Config): Packing {
    if pieces == [] then s
    else PlaceIn(PackAll(s, pieces[..|pieces|-1], rule, sel, g), pieces[|pieces|-1], rule, sel, g)
  }

  lemma PackNext(s: Packing, pieces: seq<Piece>, p: Piece, rule: SplitRule, sel: Selection, g: Config)
    ensures PackAll(s, pieces + [p], rule, sel, g) == PlaceIn(PackAll(s, pieces, rule, sel, g), p, rule, sel, g)
  {
    hide PlaceIn;
    assert (pieces + [p])[..|pieces|] == pieces;
  }

  /** What is placed was placed before or is among the pieces. */
  lemma {:induction false} PackAllPlaces(s: Packing, pieces: seq<Piece>, rule: SplitRule, sel: Selection, g: Config)
    ensures multiset(PiecesOf(PackAll(s, pieces, rule, sel, g).placed)) <=
            multiset(PiecesOf(s.placed)) + multiset(pieces)
  {
    hide PiecesOf, BestTo, GapsAfter, SplitReport;
    if pieces != [] {
      var init, p := pieces[..|pieces|-1], pieces[|pieces|-1];
      PackAllPlaces(s, init, rule, sel, g);
      assert pieces == init + [p];
      var before, after := PackAll(s, init, rule, sel, g), PackAll(s, pieces, rule, sel, g);
      if after != before { PiecesOfLast(before.placed, after.placed[|before.placed|]); }
    }
  }

  /** The packer's lists as the report of a tree for the pieces `S`. The first gap
      is a gap even where it would be too thin to report. */
  ghost predicate Tracks(tree: GTree, bounds: Box, S: seq<Box>, remainders: seq<Box>, cuts: seq<SawCut>, g: Config) {
    && Searchable(tree, bounds, S, g.kerf)
    && multiset(cuts) == multiset(PlanOf(tree, bounds, g).cuts)
    && (multiset(remainders) == multiset(PlanOf(tree, bounds, g).rects) || (tree == Empty && remainders == [bounds]))
  }

  lemma GapIsOffcut(tree: GTree, bounds: Box, S: seq<Box>, remainders: seq<Box>, cuts: seq<SawCut>, g: Config, gap: Box)
    requires Tracks(tree, bounds, S, remainders, cuts, g) && gap in remainders
    ensures gap in Offcuts(tree, bounds, g.kerf)
  {
    if tree != Empty || remainders != [bounds] {
      assert gap in multiset(remainders);
      ReportedOffcuts(tree, bounds, g, gap);
    }
  }

  /** Splitting a gap around a piece is grafting the split's tree onto the gap. */
  lemma SplitTracks(tree: GTree, bounds: Box, S: seq<Box>, rems: seq<Box>, cuts: seq<SawCut>, g: Config,
                    gap: Box, u: GTree, b: Box, rems': seq<Box>, cuts': seq<SawCut>)
    requires Tracks(tree, bounds, S, rems, cuts, g) && gap in rems
    requires Searchable(u, gap, [b], g.kerf) && Solid(b)
    requires cuts' == cuts + PlanOf(u, gap, g).cuts
    requires multiset(rems') == multiset(rems) - multiset{gap} + multiset(PlanOf(u, gap, g).rects)
    ensures Tracks(Graft(tree, bounds, g.kerf, gap, u), bounds, S + [b], rems', cuts', g)
  {
    hide Searchable, PlanOf, Graft, Offcuts;
    GapIsOffcut(tree, bounds, S, rems, cuts, g, gap);
    GraftSearchable(tree, bounds, S, g.kerf, gap, u, [b]);
    GraftPlan(tree, bounds, g, gap, u);
    var p := PlanOf(tree, bounds, g);
    if multiset(rems) != multiset(p.rects) {
      ReportOfEmpty(bounds, g);
      assert multiset(rems) - multiset{gap} == multiset{} == multiset(p.rects) - multiset{gap};
    }
  }

  lemma ReportOfEmpty(r: Box, g: Config)
    ensures PlanOf(Empty, r, g).rects == [] || PlanOf(Empty, r, g).rects == [r]
  {
  }

  /** What a split leaves of a gap lies inside the gap. */
  lemma ReportInside(u: GTree, gap: Box, b: Box, g: Config)
    requires Searchable(u, gap, [b], g.kerf)
    ensures forall r :: r in PlanOf(u, gap, g).rects ==> Inside(r, gap)
  {
    SearchableFrees(u, gap, [b], g.kerf);
    forall r | r in PlanOf(u, gap, g).rects ensures Inside(r, gap) {
      ReportedOffcuts(u, gap, g, r);
      OffcutInside(u, gap, [b], g.kerf, r);
    }
  }

  predicate NoneFits(ps: seq<Piece>, gaps: seq<Box>) {
    forall p, r :: p in ps && r in gaps ==> !FitsPiece(r, p)
  }

  /** Gaps only ever shrink, so what fits none of them never will. */
  lemma StillNoneFits(ps: seq<Piece>, gaps: seq<Box>, gaps': seq<Box>)
    requires NoneFits(ps, gaps)
    requires forall r :: r in gaps' ==> exists r' :: r' in gaps && Inside(r, r')
    ensures NoneFits(ps, gaps')
  {
    forall p, r | p in ps && r in gaps' ensures !FitsPiece(r, p) {
      var r' :| r' in gaps && Inside(r, r');
      assert !FitsPiece(r', p);
    }
  }

  /** The next piece, whether it is placed or not. */
  lemma OneMoreHandled(pieces: seq<Piece>, k: nat, done: seq<Piece>, unplaced: seq<Piece>)
    requires k < |pieces|
    ensures multiset(pieces[..k+1]) == multiset(pieces[..k]) + multiset{pieces[k]}
    ensures multiset(done + [pieces[k]]) + multiset(unplaced) ==
            multiset(done) + multiset(unplaced) + multiset{pieces[k]}
    ensures multiset(done) + multiset(unplaced + [pieces[k]]) ==
            multiset(done) + multiset(unplaced) + multiset{pieces[k]}
  {
    assert pieces[..k+1] == pieces[..k] + [pieces[k]];
  }

  lemma NoneLeft(gaps: seq<Box>)
    ensures NoneFits([], gaps)
  {
  }

  lemma BoxesOfLast(ps: seq<Placed>, p: Placed)
    ensures BoxesOf(ps + [p]) == BoxesOf(ps) + [BoxOf(p)]
  {
  }

  lemma OneMore(ps: seq<Piece>, p: Piece, gaps: seq<Box>)
    requires NoneFits(ps, gaps) && forall r :: r in gaps ==> !FitsPiece(r, p)
    ensures NoneFits(ps + [p], gaps)
  {
  }

  lemma PiecesOfLast(ps: seq<Placed>, p: Placed)
    ensures PiecesOf(ps + [p]) == PiecesOf(ps) + [p.piece]
  {
  }

  lemma TakenOut<T>(xs: seq<T>, i: nat)
    requires i < |xs|
    ensures multiset(xs[..i] + xs[i+1..]) == multiset(xs) - multiset{xs[i]}
  {
    assert xs == xs[..i] + [xs[i]] + xs[i+1..];
  }

  lemma GapsAfterAre(rule: SplitRule, gaps: seq<Box>, i: nat, w: int, h: int, g: Config)
    requires i < |gaps|
    ensures multiset(GapsAfter(rule, gaps, i, w, h, g)) ==
            multiset(gaps) - multiset{gaps[i]} + multiset(SplitReport(rule, gaps[i], w, h, g).rects)
  {
    hide SplitReport, SortByArea;
    TakenOut(gaps, i);
  }

  class GuillotineOptimizer {
    const bounds: Box
    const g: Config
    const rule: SplitRule
    const selection: Selection
    var remainders: seq<Box>
    var placed: seq<Placed>
    var cuts: seq<SawCut>
    ghost var tree: GTree

    /** The source raises an error when the trims leave no room. */
    constructor (width: int, height: int, p: Params, rule: SplitRule, minRect: int, selection: Selection)
      requires p.left + p.right < width && p.top + p.bottom < height
      ensures Valid() && placed == [] && cuts == [] && remainders == [bounds]
      ensures bounds == UsableBounds(width, height, p) && g == Config(p.kerf, Max(1, minRect), 0)
      ensures this.rule == rule && this.selection == selection
    {
      bounds := UsableBounds(width, height, p);
      g := Config(p.kerf, Max(1, minRect), 0);
      this.rule, this.selection := rule, selection;
      remainders, placed, cuts, tree := [UsableBounds(width, height, p)], [], [], Empty;
    }

    /** The state is a tree of the search space for the pieces placed so far; its
        report lists the packer's cuts and free rectangles. */
    ghost predicate Valid()
      reads this
    {
      && Tracks(tree, bounds, BoxesOf(placed), remainders, cuts, g)
      && (forall p :: p in placed ==> Legal(p) && ValidPiece(p.piece))
    }

    method FindGap(p: Piece) returns (index: int, rotated: bool)
      ensures -1 <= index < |remainders|
      ensures index == -1 ==> forall r :: r in remainders ==> !FitsPiece(r, p)
      ensures index != -1 ==> BestGap(remainders, p, selection, index, rotated)
      ensures index != -1 ==> forall j, other :: 0 <= j < |remainders| && FitsAs(remainders[j], p, other) ==>
                NoWorseGap(selection, remainders[index], SlackOf(remainders[index], p, rotated),
                           remainders[j], SlackOf(remainders[j], p, other))
      ensures BestTo(remainders, p, selection, |remainders|) ==
              if index >= 0 then Some(GapChoice(index, rotated)) else None
    {
      hide NoWorseGap, SlackOf, GapScoreOf, ScoreAs, Fits, Tracks, BoxesOf;
      index, rotated := -1, false;
      for i := 0 to |remainders|
        invariant index == -1 ==> forall j :: 0 <= j < i ==> !FitsPiece(remainders[j], p)
        invariant index != -1 ==> 0 <= index < i && BestGap(remainders[..i], p, selection, index, rotated)
        invariant BestTo(remainders, p, selection, i) == if index >= 0 then Some(GapChoice(index, rotated)) else None
      {
        var rect := remainders[i];
        assert forall j :: 0 <= j < i ==> remainders[..i][j] == remainders[..i+1][j] == remainders[j];
        if FitsAs(rect, p, false) &&
           (index == -1 || LessGap(ScoreAs(rect, p, false, selection),
                                   ScoreAs(remainders[index], p, rotated, selection))) {
          index, rotated := i, false;
        }
        if FitsAs(rect, p, true) &&
           (index == -1 || LessGap(ScoreAs(rect, p, true, selection),
                                   ScoreAs(remainders[index], p, rotated, selection))) {
          index, rotated := i, true;
        }
      }
      assert remainders[..|remainders|] == remainders;
      if index != -1 { BestGapIsBest(remainders, p, selection, index, rotated); }
    }

    method TopSplitFirst(rect: Box, effectiveWidth: int, effectiveHeight: int, widthLeftover: int, heightLeftover: int)
      returns (rects: seq<Box>)
      requires SplitArguments(rect, effectiveWidth, effectiveHeight, widthLeftover, heightLeftover)
      ensures rects ==
              Offcuts(CornerTree(rect, Width(rect) - widthLeftover, Height(rect) - heightLeftover, true), rect, g.kerf)
    {
      CornerOffcuts(rect, Width(rect) - widthLeftover, Height(rect) - heightLeftover, true, g.kerf);
      hide Offcuts;
      rects := [];
      if widthLeftover > 0 {
        var remaining := Width(rect) - effectiveWidth;
        if remaining > 0 {
          var height := if heightLeftover > 0 then effectiveHeight - g.kerf else effectiveHeight;
          rects := rects
              + [Box(rect.x0 + effectiveWidth, rect.y0, rect.x0 + effectiveWidth + remaining, rect.y0 + height)];
        }
      }
      if heightLeftover > 0 {
        var remaining := Height(rect) - effectiveHeight;
        if remaining > 0 {
          rects := rects + [Box(rect.x0, rect.y0 + effectiveHeight, rect.x1, rect.y0 + effectiveHeight + remaining)];
        }
      }
    }

    method SideSplitFirst(rect: Box, effectiveWidth: int, effectiveHeight: int, widthLeftover: int, heightLeftover: int)
      returns (rects: seq<Box>)
      requires SplitArguments(rect, effectiveWidth, effectiveHeight, widthLeftover, heightLeftover)
      ensures rects ==
              Offcuts(CornerTree(rect, Width(rect) - widthLeftover, Height(rect) - heightLeftover, false), rect, g.kerf)
    {
      CornerOffcuts(rect, Width(rect) - widthLeftover, Height(rect) - heightLeftover, false, g.kerf);
      hide Offcuts;
      rects := [];
      if heightLeftover > 0 {
        var remaining := Height(rect) - effectiveHeight;
        if remaining > 0 {
          var width := if widthLeftover > 0 then effectiveWidth - g.kerf else effectiveWidth;
          rects := rects
              + [Box(rect.x0, rect.y0 + effectiveHeight, rect.x0 + width, rect.y0 + effectiveHeight + remaining)];
        }
      }
      if widthLeftover > 0 {
        var remaining := Width(rect) - effectiveWidth;
        if remaining > 0 {
          rects := rects + [Box(rect.x0 + effectiveWidth, rect.y0, rect.x0 + effectiveWidth + remaining, rect.y1)];
        }
      }
    }

    predicate SplitArguments(rect: Box, effectiveWidth: int, effectiveHeight: int, widthLeftover: int,
                             heightLeftover: int) {
      && 0 <= widthLeftover < Width(rect) && 0 <= heightLeftover < Height(rect)
      && effectiveWidth == Width(rect) - widthLeftover + (if widthLeftover > 0 then g.kerf else 0)
      && effectiveHeight == Height(rect) - heightLeftover + (if heightLeftover > 0 then g.kerf else 0)
    }

    /** The leftover rectangles of the chosen split, and whether the strip above
        the piece is the one cut off first. */
    method CreateSplitRectangles(rect: Box, effectiveWidth: int, effectiveHeight: int, widthLeftover: int,
                                 heightLeftover: int)
      returns (rects: seq<Box>, topFirst: bool)
      requires SplitArguments(rect, effectiveWidth, effectiveHeight, widthLeftover, heightLeftover)
      ensures rects ==
              Offcuts(CornerTree(rect, Width(rect) - widthLeftover, Height(rect) - heightLeftover, topFirst), rect,
                      g.kerf)
      ensures topFirst == TopFirst(rule, rect, Width(rect) - widthLeftover, Height(rect) - heightLeftover, g.kerf)
    {
      hide Offcuts, CornerTree;
      if rule == MinimizeArea || rule == MaximizeArea {
        var top := TopSplitFirst(rect, effectiveWidth, effectiveHeight, widthLeftover, heightLeftover);
        var side := SideSplitFirst(rect, effectiveWidth, effectiveHeight, widthLeftover, heightLeftover);
        topFirst := if rule == MinimizeArea then MaxArea(top) <= MaxArea(side) else MaxArea(top) >= MaxArea(side);
        rects := if topFirst then top else side;
        return;
      }
      match rule {
        case ShorterLeftoverAxis => topFirst := widthLeftover <= heightLeftover;
        case LongerLeftoverAxis => topFirst := widthLeftover >= heightLeftover;
        case ShorterAxis => topFirst := Width(rect) <= Height(rect);
        case LongerAxis => topFirst := Width(rect) >= Height(rect);
      }
      if topFirst {
        rects := TopSplitFirst(rect, effectiveWidth, effectiveHeight, widthLeftover, heightLeftover);
      } else {
        rects := SideSplitFirst(rect, effectiveWidth, effectiveHeight, widthLeftover, heightLeftover);
      }
    }

    /** The saw travel of the split, the first cut first. */
    method CutsFor(rect: Box, placed: Placed, widthLeftover: int, heightLeftover: int, topFirst: bool)
      returns (cs: seq<SawCut>)
      requires placed.x == rect.x0 && placed.y == rect.y0
      requires placed.width > 0 && placed.height > 0 && Fits(rect, placed.width, placed.height)
      requires widthLeftover == Width(rect) - placed.width && heightLeftover == Height(rect) - placed.height
      ensures cs == PlanOf(CornerTree(rect, placed.width, placed.height, topFirst), rect, g).cuts
    {
      CornerCuts(rect, placed.width, placed.height, topFirst, g);
      hide PlanOf, CornerTree;
      cs := [];
      if topFirst {
        if heightLeftover > 0 {
          cs := cs + [SawCut(rect.x0, rect.y0 + placed.height, Width(rect), true)];
        }
        if widthLeftover > 0 {
          cs := cs + [SawCut(rect.x0 + placed.width, rect.y0, placed.height, false)];
        }
      } else {
        if widthLeftover > 0 {
          cs := cs + [SawCut(rect.x0 + placed.width, rect.y0, Height(rect), false)];
        }
        if heightLeftover > 0 {
          cs := cs + [SawCut(rect.x0, rect.y0 + placed.height, placed.width, true)];
        }
      }
    }

    /** Replaces gap `index` by what a piece at its corner leaves of it. */
    method SplitRemainder(index: nat, p: Placed)
      requires index < |remainders|
      requires p.x == remainders[index].x0 && p.y == remainders[index].y0
      requires p.width > 0 && p.height > 0 && Fits(remainders[index], p.width, p.height)
      modifies `remainders, `cuts
      ensures cuts == old(cuts) + SplitReport(rule, old(remainders)[index], p.width, p.height, g).cuts
      ensures remainders == GapsAfter(rule, old(remainders), index, p.width, p.height, g)
    {
      hide PlanOf, CornerTree, Offcuts, SortByArea, Keep, TopFirst;
      var rect := remainders[index];
      remainders := remainders[..index] + remainders[index+1..];
      var widthLeftover := Width(rect) - p.width;
      var heightLeftover := Height(rect) - p.height;
      var effectiveWidth := p.width + (if widthLeftover > 0 then g.kerf else 0);
      var effectiveHeight := p.height + (if heightLeftover > 0 then g.kerf else 0);
      var rects, topFirst := CreateSplitRectangles(rect, effectiveWidth, effectiveHeight, widthLeftover,
                                                   heightLeftover);
      var cs := CutsFor(rect, p, widthLeftover, heightLeftover, topFirst);
      cuts := cuts + cs;
      ReportKeeps(CornerTree(rect, p.width, p.height, topFirst), rect, g);
      var kept := Keep(rects, g);
      remainders := SortByArea(remainders + kept);
    }

    function State(): Packing
      reads this
    {
      Packing(remainders, placed, cuts)
    }

    /** Puts the piece at the near corner of the best gap, if any gap takes it. */
    method PlacePiece(p: Piece) returns (ok: bool)
      requires Valid() && ValidPiece(p)
      modifies this
      ensures Valid()
      ensures ok <==> exists r :: r in old(remainders) && FitsPiece(r, p)
      ensures !ok ==> remainders == old(remainders) && placed == old(placed) && cuts == old(cuts)
      ensures State() == PlaceIn(old(State()), p, rule, selection, g)
      ensures ok ==> exists i, rotated ::
                BestGap(old(remainders), p, selection, i, rotated)
                && placed == old(placed) + [AtCorner(p, old(remainders)[i], rotated)]
      ensures ok ==> |placed| == |old(placed)| + 1 && old(placed) <= placed && placed[|old(placed)|].piece == p
      ensures old(cuts) <= cuts
      ensures forall r :: r in remainders ==> exists r' :: r' in old(remainders) && Inside(r, r')
    {
      hide Searchable, PlanOf, Offcuts, CornerTree, Graft, Tracks, BoxesOf, BestGap, GapsAfter, TopFirst;
      var index, rotated := FindGap(p);
      if index == -1 {
        return false;
      }
      var rect := remainders[index];
      BestGapFits(remainders, p, selection, index, rotated);
      var piece := AtCorner(p, rect, rotated);
      ghost var before', S, before, was := placed, BoxesOf(placed), remainders, cuts;
      placed := placed + [piece];
      SplitRemainder(index, piece);
      ghost var topFirst := TopFirst(rule, rect, piece.width, piece.height, g.kerf);
      GapsAfterAre(rule, before, index, piece.width, piece.height, g);
      ghost var u := CornerTree(rect, piece.width, piece.height, topFirst);
      CornerSearchable(rect, piece.width, piece.height, topFirst, g.kerf);
      SplitTracks(tree, bounds, S, before, was, g, rect, u, BoxOf(piece), remainders, cuts);
      tree := Graft(tree, bounds, g.kerf, rect, u);
      BoxesOfLast(before', piece);
      assert Legal(piece);
      forall q | q in placed ensures Legal(q) && ValidPiece(q.piece) {
        assert q == piece || q in before';
      }
      ReportInside(u, rect, BoxOf(piece), g);
      forall r | r in remainders ensures exists r' :: r' in before && Inside(r, r') {
        assert r in multiset(remainders);
        if r in multiset(before) { assert Inside(r, r); } else { assert rect in before; }
      }
      ok := true;
    }

    /** Places the pieces in the order given. The pieces are placed or returned,
        and no piece returned fits any gap that is left. */
    method Optimize(pieces: seq<Piece>) returns (unplaced: seq<Piece>)
      requires Valid() && forall p :: p in pieces ==> ValidPiece(p)
      modifies this
      ensures Valid()
      ensures old(placed) <= placed && (placed == old(placed) ==> remainders == old(remainders))
      ensures multiset(PiecesOf(placed)) + multiset(unplaced) == multiset(PiecesOf(old(placed))) + multiset(pieces)
      ensures NoneFits(unplaced, remainders)
      ensures State() == PackAll(old(State()), pieces, rule, selection, g)
    {
      hide Tracks, PiecesOf, FitsPiece, NoneFits, BestGap, BoxesOf, Inside, ValidPiece, Legal, Valid, AtCorner, PlaceIn;
      unplaced := [];
      NoneLeft(remainders);
      ghost var start := multiset(PiecesOf(placed));
      for k := 0 to |pieces|
        invariant Valid() && old(placed) <= placed && (placed == old(placed) ==> remainders == old(remainders))
        invariant multiset(PiecesOf(placed)) + multiset(unplaced) == start + multiset(pieces[..k])
        invariant NoneFits(unplaced, remainders)
        invariant State() == PackAll(old(State()), pieces[..k], rule, selection, g)
      {
        var p := pieces[k];
        PackNext(old(State()), pieces[..k], p, rule, selection, g);
        assert pieces[..k] + [p] == pieces[..k+1];
        assert p in pieces;
        ghost var before, gaps := placed, remainders;
        OneMoreHandled(pieces, k, PiecesOf(before), unplaced);
        var ok := PlacePiece(p);
        StillNoneFits(unplaced, gaps, remainders);
        if !ok {
          OneMore(unplaced, p, remainders);
          unplaced := unplaced + [p];
        } else {
          assert placed == before + [placed[|before|]];
          PiecesOfLast(before, placed[|before|]);
        }
      }
      assert pieces[..|pieces|] == pieces;
    }
  }
}
