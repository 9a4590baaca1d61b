/**
How exact.py lays out bound columns: cursors advancing along columns and rows, a
blade apart, with the cuts and leftovers this leaves.
*/
module ExactLayout {
  import opened Geometry
  import opened Guillotine
  import opened Plans
  import opened Sequences
  import opened Sheets
  import opened Constructors
  import opened Strips
  import opened Rounding
  import opened ExactModel
  import opened ExactColumns
  import opened ExactBinding

  const NOFILL := BinFill([], [], [])

  function Append(a: BinFill, b: BinFill): BinFill {
    BinFill(a.placed + b.placed, a.remainders + b.remainders, a.cuts + b.cuts)
  }

  /** A leftover too thin to keep is dropped. */
  function Kept(b: Box, minRect: int): seq<Box> {
    if Min(Width(b), Height(b)) >= minRect then [b] else []
  }

  /** A cut that starts at a corner given in the frame's directions. */
  function CutAt(f: Frame, along: int, across: int, length: int, horizontal: bool): SawCut {
    SawCut(f.left + (if f.transposed then along else across), f.bottom + (if f.transposed then across else along),
           length, horizontal)
  }

  function PlacedAt(f: Frame, along: int, across: int, b: Bound): Placed {
    var r := b.row.rotated;
    Placed(b.piece, f.left + (if f.transposed then along else across),
           f.bottom + (if f.transposed then across else along), if r then b.piece.height else b.piece.width,
           if r then b.piece.width else b.piece.height, r)
  }

  /** One row: the piece, and the trim to its side when it is narrower than the column. */
  function RowFill(f: Frame, along: int, across: int, width: int, b: Bound, minRect: int): BinFill {
    var side := width - b.row.across;
    BinFill([PlacedAt(f, along, across, b)],
            if side > f.kerf
            then Kept(Slot(f, along, across + b.row.across + f.kerf, b.row.along, side - f.kerf), minRect) else [],
            if side > 0 then [CutAt(f, along, across + b.row.across, b.row.along, f.transposed)] else [])
  }

  /** Past an end, and past the blade unless the end is the sheet's. */
  function PastBlade(at: int, limit: int, kerf: nat): int {
    if at < limit then at + kerf else at
  }

  function ColumnCursor(f: Frame, rows: seq<Bound>): int {
    if rows == [] then 0 else PastBlade(ColumnCursor(f, rows[..|rows|-1]) + rows[|rows|-1].row.along, f.along, f.kerf)
  }

  function Crosscut(f: Frame, at: int, across: int, width: int): seq<SawCut> {
    if at < f.along then [CutAt(f, at, across, width, !f.transposed)] else []
  }

  function ColumnFill(f: Frame, across: int, width: int, rows: seq<Bound>, minRect: int): BinFill {
    if rows == [] then NOFILL
    else
      var init, b := rows[..|rows|-1], rows[|rows|-1];
      var along := ColumnCursor(f, init);
      Append(Append(ColumnFill(f, across, width, init, minRect), RowFill(f, along, across, width, b, minRect)),
             BinFill([], [], Crosscut(f, along + b.row.along, across, width)))
  }

  /** What remains beyond the last row. */
  function ColumnTail(f: Frame, cursor: int, across: int, width: int, minRect: int): seq<Box> {
    if f.along - cursor > 0 then Kept(Slot(f, cursor, across, f.along - cursor, width), minRect) else []
  }

  function WholeColumn(f: Frame, across: int, c: BoundColumn, minRect: int): BinFill {
    Append(ColumnFill(f, across, c.width, c.rows, minRect),
           BinFill([], ColumnTail(f, ColumnCursor(f, c.rows), across, c.width, minRect), []))
  }

  function SheetCursor(f: Frame, columns: seq<BoundColumn>): int {
    if columns == [] then 0
        else PastBlade(SheetCursor(f, columns[..|columns|-1]) + columns[|columns|-1].width, f.across, f.kerf)
  }

  function RipCut(f: Frame, at: int): seq<SawCut> {
    if at < f.across then [CutAt(f, 0, at, f.along, f.transposed)] else []
  }

  function SheetFill(f: Frame, columns: seq<BoundColumn>, minRect: int): BinFill {
    if columns == [] then NOFILL
    else
      var init, c := columns[..|columns|-1], columns[|columns|-1];
      var across := SheetCursor(f, init);
      Append(Append(SheetFill(f, init, minRect), WholeColumn(f, across, c, minRect)),
             BinFill([], [], RipCut(f, across + c.width)))
  }

  function SheetTail(f: Frame, cursor: int, minRect: int): seq<Box> {
    if f.across - cursor > 0 then Kept(Slot(f, 0, cursor, f.along, f.across - cursor), minRect) else []
  }

  function WholeSheet(f: Frame, columns: seq<BoundColumn>, minRect: int): BinFill {
    Append(SheetFill(f, columns, minRect), BinFill([], SheetTail(f, SheetCursor(f, columns), minRect), []))
  }

  // ---- the same in rounded units --------------------------------------------------------

  function RoundedPiece(p: Piece, unit: int): Piece
    requires unit > 0
  {
    p.(width := Up(p.width, unit), height := Up(p.height, unit))
  }

  function RoundedPlaced(p: Placed, unit: int): Placed
    requires unit > 0
  {
    p.(piece := RoundedPiece(p.piece, unit), width := Up(p.width, unit), height := Up(p.height, unit))
  }

  function Rounded(ps: seq<Placed>, unit: int): (r: seq<Placed>)
    requires unit > 0
    ensures |r| == |ps| && forall i :: 0 <= i < |ps| ==> r[i] == RoundedPlaced(ps[i], unit)
  {
    seq(|ps|, i requires 0 <= i < |ps| => RoundedPlaced(ps[i], unit))
  }

  /** The fill with every piece taking up its whole slot. */
  function InSlots(fill: BinFill, unit: int): BinFill
    requires unit > 0
  {
    fill.(placed := Rounded(fill.placed, unit))
  }

  lemma InSlotsAppend(a: BinFill, b: BinFill, unit: int)
    requires unit > 0
    ensures InSlots(Append(a, b), unit) == Append(InSlots(a, unit), InSlots(b, unit))
  {
    assert Rounded(a.placed + b.placed, unit) == Rounded(a.placed, unit) + Rounded(b.placed, unit);
  }

  // ---- soundness -----------------------------------------------------------------------

  /** A bound row lies in the slot of its piece. */
  predicate BoundMeets(b: Bound, f: Frame)
    requires f.unit > 0
  {
    && ValidPiece(b.piece) && (b.row.rotated ==> b.piece.canRotate)
    && b.row == RowOf(SlotFor(f, b.piece, b.row.rotated), b.row.kind)
  }

  lemma StartBuilding(r: Box, h: bool, g: Config)
    ensures Building(Empty, r, h, Lo(r, h), NOFILL, g)
  {
    assert WithLo(r, h, Lo(r, h)) == r;
    assert BoxesOf([]) == [];
  }

  /** The last of the region, if kept, is one more leftover. */
  lemma FinishBuilding(t: GTree, r: Box, h: bool, lo: int, fill: BinFill, tail: seq<Box>, unit: int, g: Config)
    requires unit > 0 && Building(t, r, h, lo, InSlots(fill, unit), g)
    requires multiset(tail) <= multiset(TailAfter(r, h, lo))
    ensures Realizes(t, r, InSlots(Append(fill, BinFill([], tail, [])), unit), g)
  {
    hide Frees, PlanOf, Offcuts, TailAfter, BoxesOf, Legal, ValidPiece, RoundedPlaced;
    InSlotsAppend(fill, BinFill([], tail, []), unit);
    assert Rounded([], unit) == [];
    var slots := InSlots(fill, unit);
    assert slots.placed + [] == slots.placed && slots.cuts + [] == slots.cuts;
    assert multiset(slots.remainders + tail) == multiset(slots.remainders) + multiset(tail);
  }

  /** One more strip of the region is cut off and filled. */
  lemma CommitNext(t: GTree, r: Box, h: bool, lo: int, fill: BinFill, unit: int, g: Config,
                   u: GTree, at: int, strip: BinFill, cut: seq<SawCut>)
    returns (t': GTree)
    requires unit > 0 && Solid(r) && Lo(r, h) <= lo < at <= Hi(r, h)
    requires Building(t, r, h, lo, InSlots(fill, unit), g)
    requires Realizes(u, WithHi(WithLo(r, h, lo), h, at), InSlots(strip, unit), g)
    requires cut == if at < Hi(r, h) then [CutOf(WithLo(r, h, lo), h, at)] else []
    ensures Building(t', r, h, at + g.kerf, InSlots(Append(Append(fill, strip), BinFill([], [], cut)), unit), g)
  {
    hide Building, Realizes, CutOf, RoundedPlaced;
    var fill' := Append(Append(fill, strip), BinFill([], [], cut));
    InSlotsAppend(fill, strip, unit);
    InSlotsAppend(Append(fill, strip), BinFill([], [], cut), unit);
    assert Rounded([], unit) == [];
    t' := CommitStrip(t, r, h, lo, InSlots(fill, unit), g, u, at, InSlots(strip, unit), InSlots(fill', unit));
  }

  lemma SlotRealizes(f: Frame, along: int, across: int, b: Bound, g: Config)
    requires f.unit > 0 && !f.truncates && BoundMeets(b, f)
    ensures Realizes(Whole, Slot(f, along, across, b.row.along, b.row.across),
                     InSlots(BinFill([PlacedAt(f, along, across, b)], [], []), f.unit), g)
  {
    var p := RoundedPlaced(PlacedAt(f, along, across, b), f.unit);
    var slot := Slot(f, along, across, b.row.along, b.row.across);
    assert BoxOf(p) == slot;
    assert Rounded([PlacedAt(f, along, across, b)], f.unit) == [p];
    assert BoxesOf([p]) == [slot];
    assert Legal(p) && ValidPiece(p.piece);
  }

  lemma RowGeometry(f: Frame, along: int, across: int, width: int, alongLen: int, acrossLen: int)
    ensures var r, h := Slot(f, along, across, alongLen, width), f.transposed;
            var at := Lo(r, h) + acrossLen;
            && Hi(r, h) == Lo(r, h) + width
            && (0 < width && 0 < alongLen ==> Solid(r))
            && WithHi(WithLo(r, h, Lo(r, h)), h, at) == Slot(f, along, across, alongLen, acrossLen)
            && CutOf(WithLo(r, h, Lo(r, h)), h, at) == CutAt(f, along, across + acrossLen, alongLen, h)
            && WithLo(r, h, at + f.kerf) ==
               Slot(f, along, across + acrossLen + f.kerf, alongLen, width - acrossLen - f.kerf)
  {
  }

  lemma RowRealizes(f: Frame, along: int, across: int, width: int, b: Bound, minRect: int, g: Config) returns (t: GTree)
    requires f.unit > 0 && !f.truncates && BoundMeets(b, f) && b.row.across <= width && g.kerf == f.kerf
    ensures Realizes(t, Slot(f, along, across, b.row.along, width),
                     InSlots(RowFill(f, along, across, width, b, minRect), f.unit), g)
  {
    hide Realizes, Building, Slot, CutAt, CutOf, PlacedAt, InSlots, Lo, Hi, WithLo, WithHi, Kept, RowFill, BoundMeets;
    BoundPositive(b, f);
    var r, h := Slot(f, along, across, b.row.along, width), f.transposed;
    var at := Lo(r, h) + b.row.across;
    var piece := BinFill([PlacedAt(f, along, across, b)], [], []);
    var cut := if width - b.row.across > 0 then [CutAt(f, along, across + b.row.across, b.row.along, f.transposed)]
        else [];
    RowGeometry(f, along, across, width, b.row.along, b.row.across);
    StartSlots(r, h, f.unit, g);
    SlotRealizes(f, along, across, b, g);
    t := CommitNext(Empty, r, h, Lo(r, h), NOFILL, f.unit, g, Whole, at, piece, cut);
    var committed := Append(Append(NOFILL, piece), BinFill([], [], cut));
    var tail := RowFill(f, along, across, width, b, minRect).remainders;
    RowTail(f, along, across, width, b, minRect);
    FinishBuilding(t, r, h, at + f.kerf, committed, tail, f.unit, g);
    RowParts(f, along, across, width, b, minRect);
  }

  lemma BoundPositive(b: Bound, f: Frame)
    requires f.unit > 0 && !f.truncates && BoundMeets(b, f)
    ensures 0 < b.row.across && 0 < b.row.along
  {
  }

  lemma RowParts(f: Frame, along: int, across: int, width: int, b: Bound, minRect: int)
    ensures var piece := BinFill([PlacedAt(f, along, across, b)], [], []);
            var cut := if width - b.row.across > 0
                then [CutAt(f, along, across + b.row.across, b.row.along, f.transposed)] else [];
            var tail := RowFill(f, along, across, width, b, minRect).remainders;
            Append(Append(Append(NOFILL, piece), BinFill([], [], cut)), BinFill([], tail, [])) ==
                RowFill(f, along, across, width, b, minRect)
  {
    hide PlacedAt, CutAt, Kept, Slot;
  }

  lemma RowTail(f: Frame, along: int, across: int, width: int, b: Bound, minRect: int)
    ensures var r, h := Slot(f, along, across, b.row.along, width), f.transposed;
            multiset(RowFill(f, along, across, width, b, minRect).remainders) <=
                multiset(TailAfter(r, h, Lo(r, h) + b.row.across + f.kerf))
  {
  }

  lemma StartSlots(r: Box, h: bool, unit: int, g: Config)
    requires unit > 0
    ensures Building(Empty, r, h, Lo(r, h), InSlots(NOFILL, unit), g)
  {
    StartBuilding(r, h, g);
    assert Rounded([], unit) == [];
  }

  // ---- one column ------------------------------------------------------------------------

  /** What rows use of a column's length, a blade each. */
  function Used(f: Frame, rows: seq<Bound>): int {
    if rows == [] then 0 else Used(f, rows[..|rows|-1]) + rows[|rows|-1].row.along + f.kerf
  }

  predicate RowsFit(f: Frame, width: int, rows: seq<Bound>)
    requires f.unit > 0
  {
    && (forall b :: b in rows ==> BoundMeets(b, f) && Least(f) <= b.row.across <= width && Least(f) <= b.row.along)
    && Used(f, rows) <= f.along + f.kerf
  }

  lemma RowsFitPrefix(f: Frame, width: int, rows: seq<Bound>)
    requires f.unit > 0 && !f.truncates && RowsFit(f, width, rows) && rows != []
    ensures var init, b := rows[..|rows|-1], rows[|rows|-1];
            && RowsFit(f, width, init) && Used(f, init) < f.along
            && BoundMeets(b, f) && 0 < b.row.across <= width && 0 < b.row.along
            && Used(f, init) + b.row.along <= f.along
            && Used(f, rows) == Used(f, init) + b.row.along + f.kerf
  {
    assert rows[|rows|-1] in rows;
    assert forall b :: b in rows[..|rows|-1] ==> b in rows;
  }

  /** The cursor stands where the used length says, but never past the blade at the end. */
  lemma {:induction false} ColumnCursorIs(f: Frame, width: int, rows: seq<Bound>)
    requires RoundsUp(f) && RowsFit(f, width, rows)
    ensures Used(f, rows) >= 0
    ensures ColumnCursor(f, rows) == if Used(f, rows) - f.kerf < f.along then Used(f, rows) else Used(f, rows) - f.kerf
  {
    if rows != [] {
      RowsFitPrefix(f, width, rows);
      ColumnCursorIs(f, width, rows[..|rows|-1]);
    }
  }

  lemma ColumnGeometry(f: Frame, across: int, width: int, lo: int, length: int)
    ensures var r, h := Slot(f, 0, across, f.along, width), !f.transposed;
            var at := Lo(r, h) + lo + length;
            && Hi(r, h) == Lo(r, h) + f.along
            && (0 < width && 0 < f.along ==> Solid(r))
            && WithHi(WithLo(r, h, Lo(r, h) + lo), h, at) == Slot(f, lo, across, length, width)
            && CutOf(WithLo(r, h, Lo(r, h) + lo), h, at) == CutAt(f, lo + length, across, width, h)
            && WithLo(r, h, Lo(r, h) + lo) == Slot(f, lo, across, f.along - lo, width)
  {
  }

  lemma {:induction false} ColumnBuilding(f: Frame, across: int, width: int, rows: seq<Bound>, minRect: int, g: Config)
    returns (t: GTree)
    requires RoundsUp(f) && 0 < width && RowsFit(f, width, rows) && g.kerf == f.kerf
    ensures var r, h := Slot(f, 0, across, f.along, width), !f.transposed;
            Building(t, r, h, Lo(r, h) + Used(f, rows), InSlots(ColumnFill(f, across, width, rows, minRect), f.unit), g)
  {
    hide Realizes, Building, Slot, CutAt, CutOf, InSlots, Lo, Hi, WithLo, WithHi, RowFill, RowsFit, BoundMeets;
    var r, h := Slot(f, 0, across, f.along, width), !f.transposed;
    if rows == [] {
      StartSlots(r, h, f.unit, g);
      t := Empty;
    } else {
      var init, b := rows[..|rows|-1], rows[|rows|-1];
      RowsFitPrefix(f, width, rows);
      t := ColumnBuilding(f, across, width, init, minRect, g);
      ColumnCursorIs(f, width, init);
      var along := Used(f, init);
      var u := RowRealizes(f, along, across, width, b, minRect, g);
      ColumnGeometry(f, across, width, along, b.row.along);
      t := CommitNext(t, r, h, Lo(r, h) + along, ColumnFill(f, across, width, init, minRect), f.unit, g,
                      u, Lo(r, h) + along + b.row.along, RowFill(f, along, across, width, b, minRect),
                      Crosscut(f, along + b.row.along, across, width));
    }
  }

  lemma ColumnRealizes(f: Frame, across: int, c: BoundColumn, minRect: int, g: Config) returns (t: GTree)
    requires RoundsUp(f) && 0 < c.width && RowsFit(f, c.width, c.rows) && g.kerf == f.kerf
    ensures Realizes(t, Slot(f, 0, across, f.along, c.width), InSlots(WholeColumn(f, across, c, minRect), f.unit), g)
  {
    hide Realizes, Building, Slot, CutOf, InSlots, Lo, Hi, WithLo, WithHi, ColumnFill, RowsFit, ColumnCursor;
    var r, h := Slot(f, 0, across, f.along, c.width), !f.transposed;
    t := ColumnBuilding(f, across, c.width, c.rows, minRect, g);
    ColumnCursorIs(f, c.width, c.rows);
    assert Used(f, c.rows) <= f.along + f.kerf by { UsedFits(f, c.width, c.rows); }
    ColumnGeometry(f, across, c.width, Used(f, c.rows), 0);
    FinishBuilding(t, r, h, Lo(r, h) + Used(f, c.rows), ColumnFill(f, across, c.width, c.rows, minRect),
                   ColumnTail(f, ColumnCursor(f, c.rows), across, c.width, minRect), f.unit, g);
  }

  lemma UsedFits(f: Frame, width: int, rows: seq<Bound>)
    requires f.unit > 0 && RowsFit(f, width, rows)
    ensures Used(f, rows) <= f.along + f.kerf
  {
  }

  // ---- the whole sheet -------------------------------------------------------------------

  function UsedAcross(f: Frame, columns: seq<BoundColumn>): int {
    if columns == [] then 0 else UsedAcross(f, columns[..|columns|-1]) + columns[|columns|-1].width + f.kerf
  }

  predicate ColumnsFit(f: Frame, columns: seq<BoundColumn>)
    requires f.unit > 0
  {
    && (forall c :: c in columns ==> Least(f) <= c.width && RowsFit(f, c.width, c.rows))
    && UsedAcross(f, columns) <= f.across + f.kerf
  }

  lemma ColumnsFitPrefix(f: Frame, columns: seq<BoundColumn>)
    requires f.unit > 0 && !f.truncates && ColumnsFit(f, columns) && columns != []
    ensures var init, c := columns[..|columns|-1], columns[|columns|-1];
            && ColumnsFit(f, init) && UsedAcross(f, init) < f.across
            && 0 < c.width && RowsFit(f, c.width, c.rows)
            && UsedAcross(f, init) + c.width <= f.across
            && UsedAcross(f, columns) == UsedAcross(f, init) + c.width + f.kerf
  {
    hide RowsFit;
    assert columns[|columns|-1] in columns;
    assert forall c :: c in columns[..|columns|-1] ==> c in columns;
  }

  lemma {:induction false} SheetCursorIs(f: Frame, columns: seq<BoundColumn>)
    requires RoundsUp(f) && ColumnsFit(f, columns)
    ensures 0 <= UsedAcross(f, columns) <= f.across + f.kerf
    ensures SheetCursor(f, columns) ==
            if UsedAcross(f, columns) - f.kerf < f.across then UsedAcross(f, columns)
                else UsedAcross(f, columns) - f.kerf
  {
    if columns != [] {
      ColumnsFitPrefix(f, columns);
      SheetCursorIs(f, columns[..|columns|-1]);
    }
  }

  /** The usable part of the sheet, rounded down. */
  function FrameBounds(f: Frame): Box {
    Slot(f, 0, 0, f.along, f.across)
  }

  lemma SheetGeometry(f: Frame, lo: int, width: int)
    ensures var r, h := FrameBounds(f), f.transposed;
            var at := Lo(r, h) + lo + width;
            && Hi(r, h) == Lo(r, h) + f.across
            && (0 < f.across && 0 < f.along ==> Solid(r))
            && WithHi(WithLo(r, h, Lo(r, h) + lo), h, at) == Slot(f, 0, lo, f.along, width)
            && CutOf(WithLo(r, h, Lo(r, h) + lo), h, at) == CutAt(f, 0, lo + width, f.along, h)
            && WithLo(r, h, Lo(r, h) + lo) == Slot(f, 0, lo, f.along, f.across - lo)
  {
  }

  lemma {:induction false} SheetBuilding(f: Frame, columns: seq<BoundColumn>, minRect: int, g: Config)
    returns (t: GTree)
    requires RoundsUp(f) && ColumnsFit(f, columns) && g.kerf == f.kerf
    ensures var r, h := FrameBounds(f), f.transposed;
            Building(t, r, h, Lo(r, h) + UsedAcross(f, columns), InSlots(SheetFill(f, columns, minRect), f.unit), g)
  {
    hide Realizes, Building, FrameBounds, Slot, CutAt, CutOf, InSlots, Lo, Hi, WithLo, WithHi, WholeColumn, RowsFit,
         ColumnsFit;
    var r, h := FrameBounds(f), f.transposed;
    if columns == [] {
      StartSlots(r, h, f.unit, g);
      t := Empty;
    } else {
      var init, c := columns[..|columns|-1], columns[|columns|-1];
      ColumnsFitPrefix(f, columns);
      t := SheetBuilding(f, init, minRect, g);
      SheetCursorIs(f, init);
      var across := UsedAcross(f, init);
      var u := ColumnRealizes(f, across, c, minRect, g);
      SheetGeometry(f, across, c.width);
      t := CommitNext(t, r, h, Lo(r, h) + across, SheetFill(f, init, minRect), f.unit, g,
                      u, Lo(r, h) + across + c.width, WholeColumn(f, across, c, minRect), RipCut(f, across + c.width));
    }
  }

  /** In rounded units the layout is a tree of cuts: its pieces fill their slots, its
      cuts are the tree's, and its leftovers are offcuts of the tree. */
  lemma SheetRealizes(f: Frame, columns: seq<BoundColumn>, minRect: int, g: Config) returns (t: GTree)
    requires RoundsUp(f) && ColumnsFit(f, columns) && g.kerf == f.kerf
    ensures Realizes(t, FrameBounds(f), InSlots(WholeSheet(f, columns, minRect), f.unit), g)
  {
    hide Realizes, Building, FrameBounds, Slot, CutOf, InSlots, Lo, Hi, WithLo, WithHi, SheetFill, SheetCursor,
         ColumnsFit, UsedAcross;
    var r, h := FrameBounds(f), f.transposed;
    t := SheetBuilding(f, columns, minRect, g);
    SheetCursorIs(f, columns);
    SheetGeometry(f, UsedAcross(f, columns), 0);
    FinishBuilding(t, r, h, Lo(r, h) + UsedAcross(f, columns), SheetFill(f, columns, minRect),
                   SheetTail(f, SheetCursor(f, columns), minRect), f.unit, g);
  }
}
