/**
`_emit` of lanes.py: one sheet of lanes with whatever strip was packed above them.
*/
module LaneEmission {
  import opened Geometry
  import opened Guillotine
  import opened Surgery
  import opened Plans
  import opened Sheets
  import opened Constructors
  import opened Strips
  import opened ExactModel
  import opened ExactBinding
  import opened ExactLayout
  import opened Exact
  import opened LaneSheets

  predicate StripUsed(strip: BinFill) {
    strip.placed != [] || strip.cuts != [] || strip.remainders != []
  }

  /** The height above the band and the blade that frees it. */
  function FreeAbove(lanes: seq<Lane>, r: Box, kerf: nat): int {
    Height(r) - BandHeight(lanes) - kerf
  }

  function KeepAll(S: seq<Box>, minRect: int): (k: seq<Box>)
    ensures multiset(k) <= multiset(S)
  {
    if S == [] then []
    else
      assert S == S[..|S|-1] + [S[|S|-1]];
      KeepAll(S[..|S|-1], minRect) + Kept(S[|S|-1], minRect)
  }

  /** The cut above the band, when there is anything above it. */
  function BandTop(lanes: seq<Lane>, r: Box): seq<SawCut> {
    var band := BandHeight(lanes);
    if band < Height(r) then [SawCut(r.x0, r.y0 + band, Width(r), true)] else []
  }

  /** One sheet: the lanes, then the strip moved above them or the free space there. */
  function Emitted(lanes: seq<Lane>, strip: BinFill, r: Box, kerf: nat, minRect: int): BinFill {
    var f := BandFrame(r, BandHeight(lanes), kerf);
    var columns := AsColumns(lanes);
    var whole, free := WholeSheet(f, columns, minRect), FreeAbove(lanes, r, kerf);
    var moved := Translate(strip, r.x0, r.y0 + BandHeight(lanes) + kerf);
    if StripUsed(strip) then
      BinFill(whole.placed + moved.placed, whole.remainders + KeepAll(moved.remainders, minRect),
              BandCuts(f, lanes) + BandTop(lanes, r) + moved.cuts)
    else
      BinFill(whole.placed,
              whole.remainders + if free > 0 then Kept(WithLo(r, true, r.y0 + BandHeight(lanes) + kerf), minRect)
              else [], BandCuts(f, lanes))
  }

  /** Cuts the sheet takes that are not listed: the tops of its shorter lanes, and the
      cut above the band when no strip is packed there. */
  function Unlisted(lanes: seq<Lane>, strip: BinFill, r: Box, kerf: nat): seq<SawCut> {
    LaneTops(BandFrame(r, BandHeight(lanes), kerf), lanes) + if StripUsed(strip) then [] else BandTop(lanes, r)
  }

  /** A strip packed for the space above the lanes. */
  ghost predicate StripOk(lanes: seq<Lane>, strip: BinFill, r: Box, g: Config) {
    StripUsed(strip) ==>
      && FreeAbove(lanes, r, g.kerf) > 0
      && exists u :: Realizes(u, Box(0, 0, Width(r), FreeAbove(lanes, r, g.kerf)), strip, g)
  }

  // ---- the sheet can be cut ----------------------------------------------------------------

  lemma UnroundedPlaced(q: Placed)
    ensures RoundedPlaced(q, 1) == q
  {
    UpExact(q.piece.width, 1);
    UpExact(q.piece.height, 1);
    UpExact(q.width, 1);
    UpExact(q.height, 1);
  }

  lemma UnroundedFill(fill: BinFill)
    ensures InSlots(fill, 1) == fill
  {
    forall i | 0 <= i < |fill.placed|
      ensures Rounded(fill.placed, 1)[i] == fill.placed[i] { UnroundedPlaced(fill.placed[i]); }
    assert Rounded(fill.placed, 1) == fill.placed;
  }

  lemma BandRealizes(lanes: seq<Lane>, r: Box, minRect: int, g: Config) returns (t: GTree)
    requires Solid(r) && LanesOk(lanes, r, g.kerf)
    ensures 0 < BandHeight(lanes) <= Height(r)
    ensures var band := BandHeight(lanes);
            Realizes(t, WithHi(r, true, r.y0 + band), WholeSheet(BandFrame(r, band, g.kerf), AsColumns(lanes), minRect),
                     g)
  {
    hide Realizes, WholeSheet, LanesOk, ColumnsFit, BandHeight, AsColumns;
    var band := BandHeight(lanes);
    var f := BandFrame(r, band, g.kerf);
    BandFits(lanes, r, g.kerf);
    t := SheetRealizes(f, AsColumns(lanes), minRect, g);
    UnroundedFill(WholeSheet(f, AsColumns(lanes), minRect));
    assert FrameBounds(f) == WithHi(r, true, r.y0 + band);
  }

  lemma FewerLeftovers(t: GTree, r: Box, fill: BinFill, fill': BinFill, g: Config)
    requires Realizes(t, r, fill, g)
    requires fill'.placed == fill.placed && multiset(fill'.cuts) == multiset(fill.cuts)
    requires multiset(fill'.remainders) <= multiset(fill.remainders)
    ensures Realizes(t, r, fill', g)
  {
    hide Frees, PlanOf, Offcuts, BoxesOf, Legal, ValidPiece;
  }

  lemma EndBuilding(t: GTree, r: Box, h: bool, lo: int, fill: BinFill, tail: seq<Box>, g: Config)
    requires Building(t, r, h, lo, fill, g) && multiset(tail) <= multiset(TailAfter(r, h, lo))
    ensures Realizes(t, r, Append(fill, BinFill([], tail, [])), g)
  {
    UnroundedFill(fill);
    UnroundedFill(Append(fill, BinFill([], tail, [])));
    FinishBuilding(t, r, h, lo, fill, tail, 1, g);
  }

  /** The band cut off the near edge of the sheet. */
  lemma BandCommitted(lanes: seq<Lane>, r: Box, minRect: int, g: Config) returns (t: GTree)
    requires Solid(r) && LanesOk(lanes, r, g.kerf)
    ensures 0 < BandHeight(lanes) <= Height(r)
    ensures var band := BandHeight(lanes);
            var whole := WholeSheet(BandFrame(r, band, g.kerf), AsColumns(lanes), minRect);
            Building(t, r, true, r.y0 + band + g.kerf, whole.(cuts := whole.cuts + BandTop(lanes, r)), g)
  {
    hide Realizes, Building, WholeSheet, LanesOk, BandHeight, AsColumns;
    var band := BandHeight(lanes);
    var whole := WholeSheet(BandFrame(r, band, g.kerf), AsColumns(lanes), minRect);
    var u := BandRealizes(lanes, r, minRect, g);
    StartBuilding(r, true, g);
    assert WithLo(r, true, Lo(r, true)) == r;
    var fill := whole.(cuts := whole.cuts + BandTop(lanes, r));
    assert BandTop(lanes, r) == if r.y0 + band < Hi(r, true) then [CutOf(r, true, r.y0 + band)] else [];
    assert fill.cuts == NOFILL.cuts + whole.cuts + BandTop(lanes, r);
    t := CommitStrip(Empty, r, true, Lo(r, true), NOFILL, g, u, r.y0 + band, whole, fill);
  }

  /** All the cuts, listed or not. */
  function WithUnlisted(lanes: seq<Lane>, strip: BinFill, r: Box, kerf: nat, minRect: int): BinFill {
    var e := Emitted(lanes, strip, r, kerf, minRect);
    e.(cuts := e.cuts + Unlisted(lanes, strip, r, kerf))
  }

  lemma LaneCutsAll(lanes: seq<Lane>, r: Box, kerf: nat, minRect: int)
    requires Solid(r) && LanesOk(lanes, r, kerf)
    ensures var f := BandFrame(r, BandHeight(lanes), kerf);
            multiset(WholeSheet(f, AsColumns(lanes), minRect).cuts) ==
                multiset(BandCuts(f, lanes)) + multiset(LaneTops(f, lanes))
  {
    hide SheetFill, BandCuts, LaneTops, LaneOk;
    var f := BandFrame(r, BandHeight(lanes), kerf);
    BandFits(lanes, r, kerf);
    BandCutsAre(f, lanes, Height(r), minRect);
    var s := SheetFill(f, AsColumns(lanes), minRect);
    assert WholeSheet(f, AsColumns(lanes), minRect).cuts == s.cuts + [];
  }

  lemma TopKept(lanes: seq<Lane>, r: Box, kerf: nat, minRect: int)
    ensures var lo := r.y0 + BandHeight(lanes) + kerf;
            multiset(if FreeAbove(lanes, r, kerf) > 0 then Kept(WithLo(r, true, lo), minRect) else []) <=
                multiset(TailAfter(r, true, lo))
  {
    hide BandHeight;
  }

  lemma PlainParts(lanes: seq<Lane>, strip: BinFill, r: Box, kerf: nat, minRect: int)
    requires !StripUsed(strip)
    ensures var f := BandFrame(r, BandHeight(lanes), kerf);
            var whole, all := WholeSheet(f, AsColumns(lanes), minRect), WithUnlisted(lanes, strip, r, kerf, minRect);
            && all.placed == whole.placed
            && all.remainders == whole.remainders
                                 + (if FreeAbove(lanes, r, kerf) > 0
                                    then Kept(WithLo(r, true, r.y0 + BandHeight(lanes) + kerf), minRect) else [])
            && all.cuts == BandCuts(f, lanes) + (LaneTops(f, lanes) + BandTop(lanes, r))
  {
    hide WholeSheet, BandHeight, AsColumns, BandCuts, LaneTops, BandTop, Kept, BandFrame, FreeAbove;
  }

  lemma PlainSheet(lanes: seq<Lane>, strip: BinFill, r: Box, minRect: int, g: Config) returns (t: GTree)
    requires Solid(r) && LanesOk(lanes, r, g.kerf) && !StripUsed(strip)
    ensures Realizes(t, r, WithUnlisted(lanes, strip, r, g.kerf, minRect), g)
  {
    hide Realizes, Building, WholeSheet, LanesOk, BandHeight, AsColumns, BandCuts, LaneTops, BandTop, Kept, TailAfter,
         BandFrame, WithUnlisted, FreeAbove;
    var band := BandHeight(lanes);
    t := BandCommitted(lanes, r, minRect, g);
    var whole := WholeSheet(BandFrame(r, band, g.kerf), AsColumns(lanes), minRect);
    var fill := whole.(cuts := whole.cuts + BandTop(lanes, r));
    var tail := if FreeAbove(lanes, r, g.kerf) > 0 then Kept(WithLo(r, true, r.y0 + band + g.kerf), minRect) else [];
    TopKept(lanes, r, g.kerf, minRect);
    EndBuilding(t, r, true, r.y0 + band + g.kerf, fill, tail, g);
    LaneCutsAll(lanes, r, g.kerf, minRect);
    var done := Append(fill, BinFill([], tail, []));
    assert done.placed == whole.placed && done.cuts == fill.cuts;
    PlainParts(lanes, strip, r, g.kerf, minRect);
    FewerLeftovers(t, r, done, WithUnlisted(lanes, strip, r, g.kerf, minRect), g);
  }

  lemma StrippedSheet(lanes: seq<Lane>, strip: BinFill, r: Box, minRect: int, g: Config) returns (t: GTree)
    requires Solid(r) && LanesOk(lanes, r, g.kerf) && StripUsed(strip) && StripOk(lanes, strip, r, g)
    ensures Realizes(t, r, WithUnlisted(lanes, strip, r, g.kerf, minRect), g)
  {
    hide Realizes, Building, WholeSheet, LanesOk, BandHeight, AsColumns, BandCuts, LaneTops, BandTop, Translate,
         KeepAll;
    var band, free := BandHeight(lanes), FreeAbove(lanes, r, g.kerf);
    t := BandCommitted(lanes, r, minRect, g);
    var whole := WholeSheet(BandFrame(r, band, g.kerf), AsColumns(lanes), minRect);
    var fill := whole.(cuts := whole.cuts + BandTop(lanes, r));
    var lo := r.y0 + band + g.kerf;
    var u :| Realizes(u, Box(0, 0, Width(r), free), strip, g);
    TranslateRealizes(u, Box(0, 0, Width(r), free), strip, g, r.x0, lo);
    assert Shift(Box(0, 0, Width(r), free), r.x0, lo) == WithHi(WithLo(r, true, lo), true, Hi(r, true));
    var moved := Translate(strip, r.x0, lo);
    var both := BinFill(fill.placed + moved.placed, fill.remainders + moved.remainders, fill.cuts + moved.cuts + []);
    t := CommitStrip(t, r, true, lo, fill, g, ShiftTree(u, r.x0, r.y0 + band + g.kerf), Hi(r, true), moved, both);
    EndBuilding(t, r, true, Hi(r, true) + g.kerf, both, [], g);
    LaneCutsAll(lanes, r, g.kerf, minRect);
    var done := Append(both, BinFill([], [], []));
    assert done.placed == both.placed && done.cuts == both.cuts && done.remainders == both.remainders;
    KeptOfMoved(moved.remainders, minRect);
    FewerLeftovers(t, r, done, WithUnlisted(lanes, strip, r, g.kerf, minRect), g);
  }

  lemma KeptOfMoved(S: seq<Box>, minRect: int)
    ensures multiset(KeepAll(S, minRect)) <= multiset(S)
  {
  }

  /** Every emitted sheet can be cut: with the unlisted cuts it is a cut tree's report. */
  lemma EmittedIsCuttable(lanes: seq<Lane>, strip: BinFill, r: Box, minRect: int, g: Config) returns (t: GTree)
    requires Solid(r) && LanesOk(lanes, r, g.kerf) && StripOk(lanes, strip, r, g)
    ensures Realizes(t, r, WithUnlisted(lanes, strip, r, g.kerf, minRect), g)
  {
    hide Realizes, StripOk, LanesOk, WithUnlisted;
    if StripUsed(strip) {
      t := StrippedSheet(lanes, strip, r, minRect, g);
    } else {
      t := PlainSheet(lanes, strip, r, minRect, g);
    }
  }

  /** The list of cuts is complete exactly when every lane is as tall as the band and
      what is above the band is cut off by a listed cut. */
  lemma CutsListedIff(lanes: seq<Lane>, strip: BinFill, r: Box, kerf: nat)
    ensures Unlisted(lanes, strip, r, kerf) == [] <==>
            (forall l :: l in lanes ==> l.height == BandHeight(lanes))
                && (StripUsed(strip) || BandHeight(lanes) >= Height(r))
  {
    hide BandHeight;
    var f := BandFrame(r, BandHeight(lanes), kerf);
    NoTopsIff(f, lanes);
    assert forall l :: l in lanes ==> l.height <= BandHeight(lanes);
  }

  lemma {:induction false} NoTopsIff(f: Frame, lanes: seq<Lane>)
    ensures LaneTops(f, lanes) == [] <==> forall l :: l in lanes ==> l.height >= f.along
  {
    hide SheetCursor, CutAt, AsColumns;
    if lanes != [] {
      var init, last := lanes[..|lanes|-1], lanes[|lanes|-1];
      assert lanes == init + [last];
      NoTopsIff(f, init);
    }
  }

  // ---- emitting, step by step -----------------------------------------------------------------

  lemma {:induction false} StackGrows(items: seq<Item>, i: nat, kerf: nat)
    requires i < |items| && forall it :: it in items ==> ItemOk(it)
    ensures StackHeight(items[..i], kerf) < StackHeight(items, kerf)
    decreases |items|
  {
    var init, last := items[..|items|-1], items[|items|-1];
    assert last in items && forall it :: it in init ==> it in items;
    if i == |items| - 1 {
      assert items[..i] == init;
    } else {
      StackGrows(init, i, kerf);
      assert init[..i] == items[..i];
    }
  }

  /** The first items of a lane make a lane of their own. */
  lemma PrefixLane(l: Lane, i: nat, limit: int, kerf: nat)
    requires LaneOk(l, limit, kerf) && i < |l.items|
    ensures var m := Lane(l.width, l.items[..i+1], StackHeight(l.items[..i+1], kerf));
            && LaneOk(m, limit, kerf) && m.height <= l.height
            && (m.height < l.height <==> i + 1 < |l.items|)
  {
    if i + 1 < |l.items| {
      StackGrows(l.items, i + 1, kerf);
    } else {
      assert l.items[..i+1] == l.items;
    }
  }

  lemma ItemPlaced(f: Frame, along: int, across: int, it: Item)
    requires ItemOk(it) && !f.transposed
    ensures PlacedAt(f, along, across, Bound(Row(it.height, it.width, it.rotated, 0), it.piece)) ==
            Placed(it.piece, f.left + across, f.bottom + along, it.width, it.height, it.rotated)
  {
  }

  lemma LaneItem(l: Lane, i: nat, limit: int, kerf: nat)
    requires LaneOk(l, limit, kerf) && i < |l.items|
    ensures ItemOk(l.items[i])
  {
    assert l.items[i] in l.items;
  }

  lemma CursorNext(f: Frame, l: Lane, i: nat, limit: int)
    requires RoundsUp(f) && f.unit == 1 && !f.transposed && LaneOk(l, limit, f.kerf) && l.height <= f.along
             && i < |l.items|
    ensures var rows, at := AsBound(l.items), StackHeight(l.items[..i+1], f.kerf);
            && ColumnCursor(f, rows[..i]) + l.items[i].height == at <= l.height
               && (at < l.height <==> i + 1 < |l.items|)
            && ColumnCursor(f, rows[..i+1]) == PastBlade(at, f.along, f.kerf)
  {
    var rows, m := AsBound(l.items), Lane(l.width, l.items[..i+1], StackHeight(l.items[..i+1], f.kerf));
    PrefixLane(l, i, limit, f.kerf);
    assert rows[..i+1] == AsBound(m.items) && m.items[..i] == l.items[..i];
    assert rows[..i] == AsBound(m.items[..i]);
    hide LaneOk, ColumnCursor, StackHeight;
    LaneCursor(f, m, limit);
  }

  /** One more item of a lane, as the layout of its column. */
  lemma ColumnNext(f: Frame, across: int, l: Lane, i: nat, limit: int, minRect: int)
    requires RoundsUp(f) && f.unit == 1 && !f.transposed && LaneOk(l, limit, f.kerf) && l.height <= f.along
             && i < |l.items|
    ensures var rows, it := AsBound(l.items), l.items[i];
            var along := ColumnCursor(f, rows[..i]);
            && ColumnFill(f, across, l.width, rows[..i+1], minRect).placed ==
               ColumnFill(f, across, l.width, rows[..i], minRect).placed
               + [Placed(it.piece, f.left + across, f.bottom + along, it.width, it.height, it.rotated)]
            && ColumnFill(f, across, l.width, rows[..i+1], 0).cuts ==
               ColumnFill(f, across, l.width, rows[..i], 0).cuts + Crosscut(f, along + it.height, across, l.width)
  {
    hide ColumnCursor, Crosscut, ItemOk, PlacedAt, ColumnFill, Used, LaneOk;
    var rows := AsBound(l.items);
    LaneWidths(l, limit, f.kerf);
    assert rows[i] in rows;
    LaneItem(l, i, limit, f.kerf);
    ItemPlaced(f, ColumnCursor(f, rows[..i]), across, l.items[i]);
    assert rows[..i+1][..i] == rows[..i];
    LaneStep(f, across, l.width, rows[..i+1], minRect);
    LaneStep(f, across, l.width, rows[..i+1], 0);
  }

  lemma LaneStep(f: Frame, across: int, width: int, rows: seq<Bound>, minRect: int)
    requires rows != [] && rows[|rows|-1].row.across == width
    ensures var init, b := rows[..|rows|-1], rows[|rows|-1];
            var along := ColumnCursor(f, init);
            var before, after := ColumnFill(f, across, width, init, minRect), ColumnFill(f, across, width, rows,
                minRect);
            && after.placed == before.placed + [PlacedAt(f, along, across, b)]
            && after.cuts == before.cuts + Crosscut(f, along + b.row.along, across, width)
  {
    hide ColumnCursor, Crosscut, PlacedAt;
    var init, b := rows[..|rows|-1], rows[|rows|-1];
    FullRow(f, ColumnCursor(f, init), across, width, b, minRect);
    var before := ColumnFill(f, across, width, init, minRect);
    assert before.cuts + [] == before.cuts;
  }

  /** One lane, from the bottom up. */
  method EmitLane(r: Box, band: int, x: int, l: Lane, kerf: nat, minRect: int)
    returns (placed: seq<Placed>, cuts: seq<SawCut>, rects: seq<Box>)
    requires Solid(r) && 0 < band <= Height(r) && LaneOk(l, Height(r), kerf) && l.height <= band
    ensures var c := WholeColumn(BandFrame(r, band, kerf), x, AsColumn(l), minRect);
            placed == c.placed && cuts == LaneCuts(BandFrame(r, band, kerf), x, l) && rects == c.remainders
  {
    hide ColumnFill, ColumnCursor, LaneOk, WholeColumn;
    ghost var f := BandFrame(r, band, kerf);
    ghost var rows, n := AsBound(l.items), |l.items|;
    placed, cuts, rects := [], [], [];
    var y := 0;
    assert rows[..0] == [];
    LaneIsStack(l, Height(r), kerf);
    NoRowsYet(f, x, l.width, minRect);
    for i := 0 to |l.items|
      invariant placed == ColumnFill(f, x, l.width, rows[..i], minRect).placed
      invariant y == if i < n then ColumnCursor(f, rows[..i]) else l.height
      invariant cuts == ColumnFill(f, x, l.width, rows[..if i < n then i else n - 1], 0).cuts
    {
      var it := l.items[i];
      CursorNext(f, l, i, Height(r));
      ColumnNext(f, x, l, i, Height(r), minRect);
      placed := placed + [Placed(it.piece, r.x0 + x, r.y0 + y, it.width, it.height, it.rotated)];
      y := y + it.height;
      if y < l.height {
        cuts := cuts + [SawCut(r.x0 + x, r.y0 + y, l.width, true)];
        y := y + kerf;
      } else {
        assert l.items[..i+1] == l.items;
      }
    }
    assert rows[..n] == rows && rows[..n-1] == AsBound(l.items[..n-1]);
    LaneColumn(f, x, l, Height(r), minRect);
    if band - l.height > kerf {
      rects := Kept(Box(r.x0 + x, r.y0 + l.height + kerf, r.x0 + x + l.width, r.y0 + band), minRect);
    }
  }

  lemma NoRowsYet(f: Frame, across: int, width: int, minRect: int)
    ensures ColumnFill(f, across, width, [], minRect) == NOFILL && ColumnCursor(f, []) == 0
    ensures ColumnFill(f, across, width, [], 0) == NOFILL
  {
  }

  lemma LaneIsStack(l: Lane, limit: int, kerf: nat)
    requires LaneOk(l, limit, kerf)
    ensures l.height == StackHeight(l.items, kerf) && l.items != []
  {
  }

  lemma SheetNext(f: Frame, lanes: seq<Lane>, i: nat, minRect: int)
    requires i < |lanes|
    ensures var columns := AsColumns(lanes);
            var x := SheetCursor(f, columns[..i]);
            var before, after := SheetFill(f, columns[..i], minRect), SheetFill(f, columns[..i+1], minRect);
            var c := WholeColumn(f, x, columns[i], minRect);
            && after.placed == before.placed + c.placed && after.remainders == before.remainders + c.remainders
            && SheetCursor(f, columns[..i+1]) == PastBlade(x + lanes[i].width, f.across, f.kerf)
            && BandCuts(f, lanes[..i+1]) ==
               BandCuts(f, lanes[..i]) + LaneCuts(f, x, lanes[i]) + RipCut(f, x + lanes[i].width)
  {
    hide WholeColumn, LaneCuts, RipCut;
    var columns := AsColumns(lanes);
    assert columns[..i+1][..i] == columns[..i] && lanes[..i+1][..i] == lanes[..i];
    assert columns[..i] == AsColumns(lanes[..i]);
    var before, c := SheetFill(f, columns[..i], minRect), WholeColumn(f, SheetCursor(f, columns[..i]), columns[i],
                                                                      minRect);
    assert Append(before, c).placed + [] == before.placed + c.placed;
    assert Append(before, c).remainders + [] == before.remainders + c.remainders;
  }

  lemma NoLanesYet(f: Frame, minRect: int)
    ensures SheetFill(f, [], minRect) == NOFILL && SheetCursor(f, []) == 0 && BandCuts(f, []) == []
  {
  }

  lemma BandEnd(f: Frame, columns: seq<BoundColumn>, minRect: int)
    ensures var s, w := SheetFill(f, columns, minRect), WholeSheet(f, columns, minRect);
            w.placed == s.placed && w.remainders == s.remainders + SheetTail(f, SheetCursor(f, columns), minRect)
  {
    hide SheetFill, SheetTail, SheetCursor;
    var s := SheetFill(f, columns, minRect);
    assert s.placed + [] == s.placed;
  }

  /** The lanes of a sheet from left to right, ripped apart. */
  method EmitBand(r: Box, band: int, lanes: seq<Lane>, kerf: nat, minRect: int)
    returns (placed: seq<Placed>, cuts: seq<SawCut>, rects: seq<Box>)
    requires Solid(r) && LanesOk(lanes, r, kerf) && band == BandHeight(lanes) && 0 < band <= Height(r)
    ensures var f := BandFrame(r, band, kerf);
            var whole := WholeSheet(f, AsColumns(lanes), minRect);
            placed == whole.placed && cuts == BandCuts(f, lanes) && rects == whole.remainders
  {
    hide SheetFill, SheetCursor, LaneOk, WholeColumn, BandCuts, LaneCuts, WholeSheet, BandHeight, LanesWidth;
    ghost var f := BandFrame(r, band, kerf);
    ghost var columns := AsColumns(lanes);
    placed, cuts, rects := [], [], [];
    var x := 0;
    NoLanesYet(f, minRect);
    for i := 0 to |lanes|
      invariant x == SheetCursor(f, columns[..i])
      invariant placed == SheetFill(f, columns[..i], minRect).placed
      invariant rects == SheetFill(f, columns[..i], minRect).remainders
      invariant cuts == BandCuts(f, lanes[..i])
    {
      var l := lanes[i];
      assert l in lanes;
      SheetNext(f, lanes, i, minRect);
      var lanePlaced, laneCuts, laneRects := EmitLane(r, band, x, l, kerf, minRect);
      placed, cuts, rects := placed + lanePlaced, cuts + laneCuts, rects + laneRects;
      x := x + l.width;
      if x < Width(r) {
        cuts := cuts + [SawCut(r.x0 + x, r.y0, band, false)];
        x := x + kerf;
      }
    }
    assert columns[..|lanes|] == columns && lanes[..|lanes|] == lanes;
    BandEnd(f, columns, minRect);
    var tail := Width(r) - x;
    if tail > 0 {
      rects := rects + Kept(Box(r.x0 + x, r.y0, r.x1, r.y0 + band), minRect);
    }
  }

  /** Lanes and strip put together. */
  method EmitFill(lanes: seq<Lane>, strip: BinFill, r: Box, kerf: nat, minRect: int) returns (fill: BinFill)
    requires Solid(r) && LanesOk(lanes, r, kerf) && (StripUsed(strip) ==> BandHeight(lanes) < Height(r))
    ensures fill == Emitted(lanes, strip, r, kerf, minRect)
  {
    hide LanesOk, WholeSheet, BandHeight, BandCuts, Translate, KeepAll, AsColumns, Kept, ColumnsFit, LaneOk;
    BandFits(lanes, r, kerf);
    var band := BandHeight(lanes);
    var placed, cuts, rects := EmitBand(r, band, lanes, kerf, minRect);
    var free := Height(r) - band - kerf;
    if StripUsed(strip) {
      cuts := cuts + [SawCut(r.x0, r.y0 + band, Width(r), true)];
      var moved := Translate(strip, r.x0, r.y0 + band + kerf);
      placed, cuts, rects := placed + moved.placed, cuts + moved.cuts, rects + KeepAll(moved.remainders, minRect);
    } else if free > 0 {
      rects := rects + Kept(Box(r.x0, r.y0 + band + kerf, r.x1, r.y1), minRect);
    } else {
      rects := rects + [];
    }
    fill := BinFill(placed, rects, cuts);
  }

  /** Materializes one sheet. With its unlisted cuts it is the report of a cut tree. */
  method Emit(lanes: seq<Lane>, strip: BinFill, r: Box, kerf: nat, minRect: int) returns (fill: BinFill)
    requires Solid(r) && LanesOk(lanes, r, kerf) && StripOk(lanes, strip, r, Config(kerf, minRect, 0))
    ensures fill == Emitted(lanes, strip, r, kerf, minRect)
    ensures exists t ::
            Realizes(t, r, fill.(cuts := fill.cuts + Unlisted(lanes, strip, r, kerf)), Config(kerf, minRect, 0))
  {
    hide LanesOk, BandHeight, StripOk, Unlisted, Realizes, Emitted;
    var g := Config(kerf, minRect, 0);
    if StripUsed(strip) { StripNeedsRoom(lanes, strip, r, g); }
    fill := EmitFill(lanes, strip, r, kerf, minRect);
    ghost var t := EmittedIsCuttable(lanes, strip, r, minRect, g);
  }

  lemma StripNeedsRoom(lanes: seq<Lane>, strip: BinFill, r: Box, g: Config)
    requires StripOk(lanes, strip, r, g) && StripUsed(strip)
    ensures BandHeight(lanes) + g.kerf < Height(r)
  {
    hide Realizes, BandHeight;
  }
}
