/**
The layout of exact3.py: columns of strips of pieces. A column of strips is the
two-stage layout of exact.py laid on its side, so it is modelled as just that: the
sheet of a frame turned by a quarter, with the column's width as its length.
*/
module TowerLayout {
  import opened Geometry
  import opened Guillotine
  import opened Plans
  import opened Sequences
  import opened Sheets
  import opened Constructors
  import opened Strips
  import opened ExactModel
  import opened ExactBinding
  import opened ExactLayout
  import opened Exact

  /** A column and its strips, each strip's pieces side by side. */
  datatype Tower = Tower(width: int, strips: seq<BoundColumn>)

  /** The frame of one column, turned: strips advance along what was its length. */
  function Turned(f: Frame, across: int, width: int): Frame {
    Frame(f.left + (if f.transposed then 0 else across), f.bottom + (if f.transposed then across else 0),
          f.along, width, f.kerf, f.unit, !f.transposed, f.truncates)
  }

  function AsWidths(towers: seq<Tower>): (r: seq<BoundColumn>)
    ensures |r| == |towers| && forall i :: 0 <= i < |r| ==> r[i] == BoundColumn(towers[i].width, [])
  {
    seq(|towers|, i requires 0 <= i < |towers| => BoundColumn(towers[i].width, []))
  }

  function WholeTower(f: Frame, across: int, t: Tower, minRect: int): BinFill {
    WholeSheet(Turned(f, across, t.width), t.strips, minRect)
  }

  function TowersFill(f: Frame, towers: seq<Tower>, minRect: int): BinFill {
    if towers == [] then NOFILL
    else
      var init, t := towers[..|towers|-1], towers[|towers|-1];
      var across := SheetCursor(f, AsWidths(init));
      Append(Append(TowersFill(f, init, minRect), WholeTower(f, across, t, minRect)),
             BinFill([], [], RipCut(f, across + t.width)))
  }

  function WholeTowers(f: Frame, towers: seq<Tower>, minRect: int): BinFill {
    Append(TowersFill(f, towers, minRect), BinFill([], SheetTail(f, SheetCursor(f, AsWidths(towers)), minRect), []))
  }

  /** Strips fit their column and columns the sheet, with their blades. */
  ghost predicate TowerFits(f: Frame, t: Tower)
    requires f.unit > 0
  {
    Least(f) <= t.width && forall across: int :: ColumnsFit(Turned(f, across, t.width), t.strips)
  }

  ghost predicate TowersFit(f: Frame, towers: seq<Tower>)
    requires f.unit > 0
  {
    (forall t :: t in towers ==> TowerFits(f, t)) && UsedAcross(f, AsWidths(towers)) <= f.across + f.kerf
  }

  lemma TowersFitPrefix(f: Frame, towers: seq<Tower>)
    requires f.unit > 0 && !f.truncates && TowersFit(f, towers) && towers != []
    ensures var init, t := towers[..|towers|-1], towers[|towers|-1];
            && TowersFit(f, init) && UsedAcross(f, AsWidths(init)) < f.across && TowerFits(f, t) && 0 < t.width
            && UsedAcross(f, AsWidths(init)) + t.width <= f.across
            && UsedAcross(f, AsWidths(towers)) == UsedAcross(f, AsWidths(init)) + t.width + f.kerf
  {
    hide ColumnsFit;
    var columns := AsWidths(towers);
    assert columns[..|columns|-1] == AsWidths(towers[..|towers|-1]);
    assert towers[|towers|-1] in towers;
    assert forall t :: t in towers[..|towers|-1] ==> t in towers;
  }

  lemma {:induction false} TowersCursorIs(f: Frame, towers: seq<Tower>)
    requires RoundsUp(f) && TowersFit(f, towers)
    ensures 0 <= UsedAcross(f, AsWidths(towers)) <= f.across + f.kerf
    ensures SheetCursor(f, AsWidths(towers)) ==
            if UsedAcross(f, AsWidths(towers)) - f.kerf < f.across then UsedAcross(f, AsWidths(towers))
            else UsedAcross(f, AsWidths(towers)) - f.kerf
  {
    hide TowersFit, TowerFits;
    if towers != [] {
      TowersFitPrefix(f, towers);
      TowersCursorIs(f, towers[..|towers|-1]);
      var columns := AsWidths(towers);
      assert columns[..|columns|-1] == AsWidths(towers[..|towers|-1]);
    } else {
      WithinNothing(f);
    }
  }

  lemma WithinNothing(f: Frame)
    requires RoundsUp(f)
    ensures UsedAcross(f, AsWidths([])) == 0 && SheetCursor(f, AsWidths([])) == 0
  {
  }

  lemma TurnedBounds(f: Frame, across: int, width: int)
    ensures FrameBounds(Turned(f, across, width)) == Slot(f, 0, across, f.along, width)
  {
  }

  lemma TowerRealizes(f: Frame, across: int, t: Tower, minRect: int, g: Config) returns (u: GTree)
    requires RoundsUp(f) && TowerFits(f, t) && g.kerf == f.kerf
    ensures Realizes(u, Slot(f, 0, across, f.along, t.width), InSlots(WholeTower(f, across, t, minRect), f.unit), g)
  {
    hide Realizes, ColumnsFit, Slot, FrameBounds, WholeSheet;
    u := SheetRealizes(Turned(f, across, t.width), t.strips, minRect, g);
    TurnedBounds(f, across, t.width);
  }

  lemma {:induction false} TowersBuilding(f: Frame, towers: seq<Tower>, minRect: int, g: Config) returns (t: GTree)
    requires RoundsUp(f) && TowersFit(f, towers) && g.kerf == f.kerf
    ensures var r, h := FrameBounds(f), f.transposed;
            Building(t, r, h, Lo(r, h) + UsedAcross(f, AsWidths(towers)),
                     InSlots(TowersFill(f, towers, minRect), f.unit), g)
  {
    hide Realizes, Building, FrameBounds, Slot, CutAt, CutOf, InSlots, Lo, Hi, WithLo, WithHi, WholeTower, TowersFit,
         TowerFits, AsWidths, UsedAcross, SheetCursor;
    var r, h := FrameBounds(f), f.transposed;
    if towers == [] {
      WithinNothing(f);
      assert AsWidths(towers) == AsWidths([]);
      StartSlots(r, h, f.unit, g);
      t := Empty;
    } else {
      var init, c := towers[..|towers|-1], towers[|towers|-1];
      TowersFitPrefix(f, towers);
      t := TowersBuilding(f, init, minRect, g);
      TowersCursorIs(f, init);
      var across := UsedAcross(f, AsWidths(init));
      var u := TowerRealizes(f, across, c, minRect, g);
      SheetGeometry(f, across, c.width);
      t := CommitNext(t, r, h, Lo(r, h) + across, TowersFill(f, init, minRect), f.unit, g,
                      u, Lo(r, h) + across + c.width, WholeTower(f, across, c, minRect), RipCut(f, across + c.width));
    }
  }

  /** In rounded units the three-stage layout is a tree of cuts. */
  lemma TowersRealize(f: Frame, towers: seq<Tower>, minRect: int, g: Config) returns (t: GTree)
    requires RoundsUp(f) && TowersFit(f, towers) && g.kerf == f.kerf
    ensures Realizes(t, FrameBounds(f), InSlots(WholeTowers(f, towers, minRect), f.unit), g)
  {
    hide Realizes, Building, FrameBounds, Slot, CutOf, InSlots, Lo, Hi, WithLo, WithHi, TowersFill, SheetCursor,
         TowersFit, UsedAcross, AsWidths;
    var r, h := FrameBounds(f), f.transposed;
    t := TowersBuilding(f, towers, minRect, g);
    TowersCursorIs(f, towers);
    SheetGeometry(f, UsedAcross(f, AsWidths(towers)), 0);
    FinishBuilding(t, r, h, Lo(r, h) + UsedAcross(f, AsWidths(towers)), TowersFill(f, towers, minRect),
                   SheetTail(f, SheetCursor(f, AsWidths(towers)), minRect), f.unit, g);
  }

  // ---- the pieces on it ---------------------------------------------------------------------

  function StripsOf(towers: seq<Tower>): seq<BoundColumn> {
    if towers == [] then [] else StripsOf(towers[..|towers|-1]) + towers[|towers|-1].strips
  }

  lemma NoPiecesIn()
    ensures PiecesIn([]) == []
  {
  }

  lemma PiecesInLast(a: seq<BoundColumn>, c: BoundColumn)
    ensures PiecesIn(a + [c]) == PiecesIn(a) + PiecesOn(c.rows)
  {
    assert (a + [c])[..|a|] == a;
  }

  lemma {:induction false} PiecesInConcat(a: seq<BoundColumn>, b: seq<BoundColumn>)
    ensures PiecesIn(a + b) == PiecesIn(a) + PiecesIn(b)
  {
    hide PiecesOn, PiecesIn;
    if b == [] {
      NoPiecesIn();
      assert a + b == a;
    } else {
      var init, last := b[..|b|-1], b[|b|-1];
      PiecesInConcat(a, init);
      PiecesInLast(a + init, last);
      PiecesInLast(init, last);
      assert b == init + [last];
      assert a + b == a + init + [last];
    }
  }

  lemma PlacedOnTowers(f: Frame, towers: seq<Tower>, minRect: int)
    requires towers != []
    ensures var init, t := towers[..|towers|-1], towers[|towers|-1];
            TowersFill(f, towers, minRect).placed ==
            TowersFill(f, init, minRect).placed
                + SheetFill(Turned(f, SheetCursor(f, AsWidths(init)), t.width), t.strips, minRect).placed
  {
    hide SheetFill, SheetCursor, SheetTail, Turned;
    var init, t := towers[..|towers|-1], towers[|towers|-1];
    var across := SheetCursor(f, AsWidths(init));
    var s := SheetFill(Turned(f, across, t.width), t.strips, minRect);
    assert WholeTower(f, across, t, minRect).placed == s.placed + [];
    assert TowersFill(f, towers, minRect).placed ==
        TowersFill(f, init, minRect).placed + WholeTower(f, across, t, minRect).placed + [];
  }

  lemma {:induction false} TowerPieces(f: Frame, towers: seq<Tower>, minRect: int)
    requires f.unit > 0 && forall t :: t in towers ==> TowerFits(f, t)
    ensures Carries(TowersFill(f, towers, minRect).placed, PiecesIn(StripsOf(towers)))
  {
    hide Carries, SheetFill, TowersFill, PiecesIn, ColumnsFit, SheetCursor, AsWidths, RowsFit;
    if towers == [] {
      NoTowers(f, minRect);
    } else {
      var init, t := towers[..|towers|-1], towers[|towers|-1];
      assert t in towers && forall u :: u in init ==> u in towers;
      TowerPieces(f, init, minRect);
      var turned := Turned(f, SheetCursor(f, AsWidths(init)), t.width);
      FitRows(turned, t.strips);
      SheetPieces(turned, t.strips, minRect);
      PlacedOnTowers(f, towers, minRect);
      PiecesInConcat(StripsOf(init), t.strips);
      CarriesConcat(TowersFill(f, init, minRect).placed, PiecesIn(StripsOf(init)),
                    SheetFill(turned, t.strips, minRect).placed, PiecesIn(t.strips));
    }
  }

  lemma NoTowers(f: Frame, minRect: int)
    ensures Carries(TowersFill(f, [], minRect).placed, PiecesIn(StripsOf([])))
  {
  }
}
