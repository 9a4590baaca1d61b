/**
The hand-computed geometry of lanes.py: sheets of full-height lanes with a packed
strip above them.

The band the lanes stand in is a sheet of bound columns in the sense of ExactLayout,
one column a lane; what `_emit` leaves out of its list of cuts is named here.
*/
module LaneSheets {
  import opened Geometry
  import opened Guillotine
  import opened Plans
  import opened Sequences
  import opened Sheets
  import opened Constructors
  import opened Strips
  import opened ExactModel
  import opened ExactBinding
  import opened ExactLayout
  import opened Exact

  /** A piece in a chosen orientation. */
  datatype Item = Item(piece: Piece, width: int, height: int, rotated: bool)

  predicate ItemOk(it: Item) {
    && ValidPiece(it.piece)
    && if it.rotated then it.piece.canRotate && it.width == it.piece.height && it.height == it.piece.width
       else it.width == it.piece.width && it.height == it.piece.height
  }

  /** Items of one width stacked with a blade between them. */
  datatype Lane = Lane(width: int, items: seq<Item>, height: int)

  function StackHeight(items: seq<Item>, kerf: nat): int {
    if items == [] then 0 else StackHeight(items[..|items|-1], kerf) + items[|items|-1].height + if |items| > 1
        then kerf else 0
  }

  predicate LaneOk(l: Lane, limit: int, kerf: nat) {
    && l.items != [] && 0 < l.width
    && (forall it :: it in l.items ==> ItemOk(it) && it.width == l.width)
    && l.height == StackHeight(l.items, kerf) <= limit
  }

  // ---- the band of lanes -----------------------------------------------------------------

  function BandHeight(lanes: seq<Lane>): (h: int)
    ensures forall l :: l in lanes ==> l.height <= h
    ensures lanes != [] ==> exists l :: l in lanes && l.height == h
  {
    if lanes == [] then 0
    else
      var init, l := lanes[..|lanes|-1], lanes[|lanes|-1];
      assert lanes == init + [l];
      if init == [] then l.height else Max(BandHeight(init), l.height)
  }

  /** The part of the sheet the lanes stand in. */
  function BandFrame(r: Box, band: int, kerf: nat): Frame {
    Frame(r.x0, r.y0, Width(r), band, kerf, 1, false, false)
  }

  function AsBound(items: seq<Item>): (r: seq<Bound>)
    ensures |r| == |items|
    ensures forall i ::
            0 <= i < |r| ==> r[i] == Bound(Row(items[i].height, items[i].width, items[i].rotated, 0), items[i].piece)
  {
    seq(|items|, i requires 0 <=
        i < |items| => Bound(Row(items[i].height, items[i].width, items[i].rotated, 0), items[i].piece))
  }

  function AsColumn(l: Lane): BoundColumn {
    BoundColumn(l.width, AsBound(l.items))
  }

  function AsColumns(lanes: seq<Lane>): (r: seq<BoundColumn>)
    ensures |r| == |lanes| && forall i :: 0 <= i < |r| ==> r[i] == AsColumn(lanes[i])
  {
    seq(|lanes|, i requires 0 <= i < |lanes| => AsColumn(lanes[i]))
  }

  lemma ItemMeets(it: Item, f: Frame)
    requires ItemOk(it) && f.unit == 1 && !f.transposed
    ensures BoundMeets(Bound(Row(it.height, it.width, it.rotated, 0), it.piece), f) && 0 < it.width && 0 < it.height
  {
    UpExact(it.piece.width, 1);
    UpExact(it.piece.height, 1);
  }

  lemma {:induction false} LaneUses(items: seq<Item>, f: Frame)
    ensures Used(f, AsBound(items)) == StackHeight(items, f.kerf) + if items == [] then 0 else f.kerf
  {
    if items != [] {
      LaneUses(items[..|items|-1], f);
      assert AsBound(items)[..|items|-1] == AsBound(items[..|items|-1]);
    }
  }

  /** A lane is a column of rows as wide as itself. */
  lemma LaneFits(l: Lane, limit: int, f: Frame)
    requires LaneOk(l, limit, f.kerf) && f.unit == 1 && !f.transposed && l.height <= f.along
    ensures RowsFit(f, l.width, AsBound(l.items))
  {
    var rows := AsBound(l.items);
    LaneUses(l.items, f);
    forall b | b in rows ensures BoundMeets(b, f) && 0 < b.row.across <= l.width && 0 < b.row.along {
      var i :| 0 <= i < |rows| && rows[i] == b;
      assert l.items[i] in l.items;
      ItemMeets(l.items[i], f);
    }
  }

  function LanesWidth(lanes: seq<Lane>, kerf: nat): int {
    if lanes == [] then 0 else LanesWidth(lanes[..|lanes|-1], kerf) + lanes[|lanes|-1].width + kerf
  }

  /** Lanes that stand side by side in a region, a blade apart. */
  predicate LanesOk(lanes: seq<Lane>, r: Box, kerf: nat) {
    && lanes != []
    && (forall l :: l in lanes ==> LaneOk(l, Height(r), kerf))
    && LanesWidth(lanes, kerf) <= Width(r) + kerf
  }

  lemma {:induction false} LanesUse(lanes: seq<Lane>, f: Frame)
    ensures UsedAcross(f, AsColumns(lanes)) == LanesWidth(lanes, f.kerf)
  {
    if lanes != [] {
      LanesUse(lanes[..|lanes|-1], f);
      assert AsColumns(lanes)[..|lanes|-1] == AsColumns(lanes[..|lanes|-1]);
    }
  }

  lemma StackPositive(items: seq<Item>, kerf: nat)
    requires items != [] && forall it :: it in items ==> ItemOk(it)
    ensures StackHeight(items, kerf) > 0
  {
    StackNonNegative(items[..|items|-1], kerf);
    assert items[|items|-1] in items;
  }

  lemma {:induction false} StackNonNegative(items: seq<Item>, kerf: nat)
    requires forall it :: it in items ==> ItemOk(it)
    ensures StackHeight(items, kerf) >= 0
  {
    if items != [] {
      assert items[|items|-1] in items;
      StackNonNegative(items[..|items|-1], kerf);
    }
  }

  lemma LanesFit(lanes: seq<Lane>, limit: int, f: Frame)
    requires f.unit == 1 && !f.transposed
    requires forall l :: l in lanes ==> LaneOk(l, limit, f.kerf) && l.height <= f.along
    ensures forall c :: c in AsColumns(lanes) ==> 0 < c.width && RowsFit(f, c.width, c.rows)
  {
    hide RowsFit, LaneOk;
    var columns := AsColumns(lanes);
    forall c | c in columns ensures 0 < c.width && RowsFit(f, c.width, c.rows) {
      var i :| 0 <= i < |columns| && columns[i] == c;
      assert lanes[i] in lanes;
      LanePositive(lanes[i], limit, f.kerf);
      LaneFits(lanes[i], limit, f);
    }
  }

  lemma BandFits(lanes: seq<Lane>, r: Box, kerf: nat)
    requires Solid(r) && LanesOk(lanes, r, kerf)
    ensures var band := BandHeight(lanes); var f := BandFrame(r, band, kerf);
            && 0 < band <= Height(r) && RoundsUp(f) && ColumnsFit(f, AsColumns(lanes))
  {
    hide RowsFit, LaneOk, UsedAcross, LanesWidth;
    var band := BandHeight(lanes);
    var f := BandFrame(r, band, kerf);
    var tallest :| tallest in lanes && tallest.height == band;
    LanePositive(tallest, Height(r), kerf);
    LanesUse(lanes, f);
    LanesFit(lanes, Height(r), f);
  }

  lemma LanePositive(l: Lane, limit: int, kerf: nat)
    requires LaneOk(l, limit, kerf)
    ensures 0 < l.height <= limit && 0 < l.width
  {
    StackPositive(l.items, kerf);
  }

  // ---- cuts that are listed, and cuts that are not ---------------------------------------------

  /** The crosscuts between the items of a lane. */
  function LaneCuts(f: Frame, across: int, l: Lane): seq<SawCut> {
    if l.items == [] then [] else ColumnFill(f, across, l.width, AsBound(l.items[..|l.items|-1]), 0).cuts
  }

  /** The listed cuts of the band, lane by lane: crosscuts, then the rip. */
  function BandCuts(f: Frame, lanes: seq<Lane>): seq<SawCut> {
    if lanes == [] then []
    else
      var init, l := lanes[..|lanes|-1], lanes[|lanes|-1];
      var across := SheetCursor(f, AsColumns(init));
      BandCuts(f, init) + LaneCuts(f, across, l) + RipCut(f, across + l.width)
  }

  /** The crosscut above each lane that is shorter than the band. */
  function LaneTops(f: Frame, lanes: seq<Lane>): seq<SawCut> {
    if lanes == [] then []
    else
      var init, l := lanes[..|lanes|-1], lanes[|lanes|-1];
      LaneTops(f, init) + Crosscut(f, l.height, SheetCursor(f, AsColumns(init)), l.width)
  }

  lemma LaneCursor(f: Frame, l: Lane, limit: int)
    requires RoundsUp(f) && f.unit == 1 && !f.transposed && LaneOk(l, limit, f.kerf) && l.height <= f.along
    ensures var n := |l.items| - 1;
            && AsBound(l.items)[..n] == AsBound(l.items[..n])
            && ColumnCursor(f, AsBound(l.items[..n])) + l.items[n].height == l.height
            && ColumnCursor(f, AsBound(l.items)) == PastBlade(l.height, f.along, f.kerf)
  {
    var n := |l.items| - 1;
    var rows := AsBound(l.items);
    LaneFits(l, limit, f);
    RowsFitPrefix(f, l.width, rows);
    assert rows[..n] == AsBound(l.items[..n]);
    hide BoundMeets;
    ColumnCursorIs(f, l.width, rows[..n]);
    LaneUses(l.items[..n], f);
    LaneUses(l.items, f);
  }

  /** A row as wide as its column is not trimmed. */
  lemma FullRow(f: Frame, along: int, across: int, width: int, b: Bound, minRect: int)
    requires b.row.across == width
    ensures RowFill(f, along, across, width, b, minRect) == BinFill([PlacedAt(f, along, across, b)], [], [])
  {
  }

  lemma {:induction false} NoTrims(f: Frame, across: int, width: int, rows: seq<Bound>, minRect: int)
    requires forall b :: b in rows ==> b.row.across == width
    ensures ColumnFill(f, across, width, rows, minRect).remainders == []
    ensures ColumnFill(f, across, width, rows, minRect).cuts == ColumnFill(f, across, width, rows, 0).cuts
  {
    hide RowFill, Crosscut, ColumnCursor;
    if rows != [] {
      var init, b := rows[..|rows|-1], rows[|rows|-1];
      assert b in rows && forall c :: c in init ==> c in rows;
      NoTrims(f, across, width, init, minRect);
      FullRow(f, ColumnCursor(f, init), across, width, b, minRect);
      FullRow(f, ColumnCursor(f, init), across, width, b, 0);
    }
  }

  lemma LaneWidths(l: Lane, limit: int, kerf: nat)
    requires LaneOk(l, limit, kerf)
    ensures forall b :: b in AsBound(l.items) ==> b.row.across == l.width
  {
    var rows := AsBound(l.items);
    forall b | b in rows ensures b.row.across == l.width {
      var i :| 0 <= i < |rows| && rows[i] == b;
      assert l.items[i] in l.items;
    }
  }

  /** What a lane needs, against what is listed for it. */
  lemma LaneColumn(f: Frame, across: int, l: Lane, limit: int, minRect: int)
    requires RoundsUp(f) && f.unit == 1 && !f.transposed && LaneOk(l, limit, f.kerf) && l.height <= f.along
    ensures var c := WholeColumn(f, across, AsColumn(l), minRect);
            && c.cuts == LaneCuts(f, across, l) + Crosscut(f, l.height, across, l.width)
            && c.placed == ColumnFill(f, across, l.width, AsBound(l.items), minRect).placed
            && c.remainders == if f.along - l.height > f.kerf
                               then Kept(Slot(f, l.height + f.kerf, across, f.along - l.height - f.kerf, l.width),
                                         minRect) else []
  {
    hide ColumnFill, Crosscut, Kept, Slot, ColumnCursor, LaneOk;
    var rows, n := AsBound(l.items), |l.items| - 1;
    LaneCursor(f, l, limit);
    LaneWidths(l, limit, f.kerf);
    LaneRows(f, across, l, limit);
    NoTrims(f, across, l.width, rows, minRect);
    var fill := ColumnFill(f, across, l.width, rows, minRect);
    var c := WholeColumn(f, across, AsColumn(l), minRect);
    assert c.cuts == fill.cuts + [] && c.placed == fill.placed + [];
    assert c.remainders == [] + ColumnTail(f, ColumnCursor(f, rows), across, l.width, minRect);
  }

  lemma LaneRows(f: Frame, across: int, l: Lane, limit: int)
    requires RoundsUp(f) && f.unit == 1 && !f.transposed && LaneOk(l, limit, f.kerf) && l.height <= f.along
    ensures ColumnFill(f, across, l.width, AsBound(l.items), 0).cuts ==
            LaneCuts(f, across, l) + Crosscut(f, l.height, across, l.width)
  {
    hide Crosscut;
    var rows, n := AsBound(l.items), |l.items| - 1;
    LaneCursor(f, l, limit);
    LaneWidths(l, limit, f.kerf);
    assert rows[n] in rows;
    FullRow(f, ColumnCursor(f, rows[..n]), across, l.width, rows[n], 0);
    var before := ColumnFill(f, across, l.width, rows[..n], 0);
    assert ColumnFill(f, across, l.width, rows, 0).cuts == before.cuts + [] + Crosscut(f, l.height, across, l.width);
  }

  lemma OneMoreLane(f: Frame, lanes: seq<Lane>, limit: int, minRect: int)
    requires RoundsUp(f) && f.unit == 1 && !f.transposed && lanes != []
    requires var l := lanes[|lanes|-1]; LaneOk(l, limit, f.kerf) && l.height <= f.along
    ensures var init, l := lanes[..|lanes|-1], lanes[|lanes|-1];
            var across := SheetCursor(f, AsColumns(init));
            SheetFill(f, AsColumns(lanes), minRect).cuts ==
            SheetFill(f, AsColumns(init), minRect).cuts
                + (LaneCuts(f, across, l) + Crosscut(f, l.height, across, l.width)) + RipCut(f, across + l.width)
  {
    hide WholeColumn, LaneCuts, Crosscut, RipCut, LaneOk, SheetCursor;
    var init, l := lanes[..|lanes|-1], lanes[|lanes|-1];
    var columns := AsColumns(lanes);
    assert columns[..|columns|-1] == AsColumns(init);
    var across := SheetCursor(f, AsColumns(init));
    LaneColumn(f, across, l, limit, minRect);
    var before, column := SheetFill(f, AsColumns(init), minRect), WholeColumn(f, across, AsColumn(l), minRect);
    assert Append(before, column).cuts == before.cuts + column.cuts;
  }

  /** The cuts the band takes are the listed ones and the tops of its shorter lanes. */
  lemma {:induction false} BandCutsAre(f: Frame, lanes: seq<Lane>, limit: int, minRect: int)
    requires RoundsUp(f) && f.unit == 1 && !f.transposed
    requires forall l :: l in lanes ==> LaneOk(l, limit, f.kerf) && l.height <= f.along
    ensures multiset(SheetFill(f, AsColumns(lanes), minRect).cuts) ==
            multiset(BandCuts(f, lanes)) + multiset(LaneTops(f, lanes))
  {
    hide SheetFill, LaneCuts, Crosscut, RipCut, LaneOk, SheetCursor, BandCuts, LaneTops, AsColumns;
    if lanes == [] {
      NothingInBand(f, minRect);
    } else {
      var init, l := lanes[..|lanes|-1], lanes[|lanes|-1];
      assert l in lanes && forall m :: m in init ==> m in lanes;
      BandCutsAre(f, init, limit, minRect);
      OneMoreLane(f, lanes, limit, minRect);
      CutsOfLast(f, lanes);
      var across := SheetCursor(f, AsColumns(init));
      ShuffleCuts(SheetFill(f, AsColumns(init), minRect).cuts, LaneCuts(f, across, l),
                  Crosscut(f, l.height, across, l.width), RipCut(f, across + l.width), BandCuts(f, init),
                  LaneTops(f, init));
    }
  }

  lemma CutsOfLast(f: Frame, lanes: seq<Lane>)
    requires lanes != []
    ensures var init, l := lanes[..|lanes|-1], lanes[|lanes|-1];
            var across := SheetCursor(f, AsColumns(init));
            && BandCuts(f, lanes) == BandCuts(f, init) + LaneCuts(f, across, l) + RipCut(f, across + l.width)
            && LaneTops(f, lanes) == LaneTops(f, init) + Crosscut(f, l.height, across, l.width)
  {
    hide LaneCuts, RipCut, Crosscut, SheetCursor, AsColumns;
  }

  lemma NothingInBand(f: Frame, minRect: int)
    ensures SheetFill(f, AsColumns([]), minRect) == NOFILL
    ensures BandCuts(f, []) == [] && LaneTops(f, []) == []
  {
  }

  lemma ShuffleCuts(before: seq<SawCut>, a: seq<SawCut>, b: seq<SawCut>, c: seq<SawCut>, listed: seq<SawCut>,
                    tops: seq<SawCut>)
    requires multiset(before) == multiset(listed) + multiset(tops)
    ensures multiset(before + (a + b) + c) == multiset(listed + a + c) + multiset(tops + b)
  {
  }
}
