/**
Which emitted sheets list all their cuts.

`_emit` of lanes.py leaves out the crosscut above a lane that is shorter than the band,
and the cut above the band when no strip is packed there. Such a list is not the report
of any cut tree: a tree that frees a piece below the far edge of its region has a cut
along the top of that piece.
*/
module LaneListing {
  import opened Geometry
  import opened Guillotine
  import opened Plans
  import opened Sheets
  import opened Constructors
  import opened Strips
  import opened ExactModel
  import opened ExactBinding
  import opened ExactLayout
  import opened Exact
  import opened LaneSheets
  import opened LaneEmission

  // ---- the top of a piece ------------------------------------------------------------------

  /** The cut runs along the whole top of the piece. */
  predicate Tops(c: SawCut, b: Box) {
    c.horizontal && c.y == b.y1 && c.x <= b.x0 && b.x1 <= c.x + c.length
  }

  ghost predicate Topped(cuts: seq<SawCut>, b: Box) {
    exists c :: c in cuts && Tops(c, b)
  }

  lemma ToppedIn(cuts: seq<SawCut>, more: seq<SawCut>, b: Box)
    requires Topped(cuts, b) && forall c :: c in cuts ==> c in more
    ensures Topped(more, b)
  {
  }

  lemma CutTops(r: Box, at: int, b: Box)
    requires Inside(b, r) && b.y1 == at
    ensures Tops(CutOf(r, true, at), b)
  {
  }

  /** Whatever the tree, a piece that ends inside its region has its top cut. */
  lemma {:induction false} TopIsCut(t: GTree, r: Box, S: seq<Box>, g: Config, b: Box)
    requires Frees(t, r, S, g.kerf) && b in S && Solid(b) && b.y1 < r.y1
    ensures Topped(PlanOf(t, r, g).cuts, b)
    decreases t
  {
    hide Frees, Side, Topped, Tops;
    if !t.Cut? {
      FreesLeaf(t, r, S, g.kerf);
      assert false;
    } else {
      var h, at := t.horizontal, t.at;
      FreesCut(h, at, t.near, t.far, r, S, g.kerf);
      var near, far := NearRegion(r, h, at), FarRegion(r, h, at, g.kerf);
      var cuts := PlanOf(t, r, g).cuts;
      if OnSide(b, h, at, false) {
        if h && b.y1 == at {
          FreesInside(t, r, S, g.kerf, b);
          CutTops(r, at, b);
          assert cuts[0] == CutOf(r, true, at);
          assert Topped(cuts, b) by { ToppedBy(cuts, CutOf(r, true, at), b); }
        } else {
          TopIsCut(t.near, near, Near(S, h, at), g, b);
          ToppedIn(PlanOf(t.near, near, g).cuts, cuts, b);
        }
      } else {
        assert b in Far(S, h, at, g.kerf);
        NotEmpty(t.far, far, Far(S, h, at, g.kerf), g.kerf, b);
        TopIsCut(t.far, far, Far(S, h, at, g.kerf), g, b);
        ToppedIn(PlanOf(t.far, far, g).cuts, cuts, b);
      }
    }
  }

  lemma NotEmpty(t: GTree, r: Box, S: seq<Box>, kerf: nat, b: Box)
    requires Frees(t, r, S, kerf) && b in S
    ensures t != Empty
  {
  }

  lemma ToppedBy(cuts: seq<SawCut>, c: SawCut, b: Box)
    requires c in cuts && Tops(c, b)
    ensures Topped(cuts, b)
  {
  }

  lemma ReportTops(t: GTree, r: Box, fill: BinFill, g: Config, b: Box)
    requires Realizes(t, r, fill, g) && b in BoxesOf(fill.placed) && Solid(b) && b.y1 < r.y1
    ensures Topped(fill.cuts, b)
  {
    hide Frees, PlanOf, Topped, Offcuts;
    TopIsCut(t, r, BoxesOf(fill.placed), g, b);
    var cuts := PlanOf(t, r, g).cuts;
    forall c | c in cuts ensures c in fill.cuts { assert c in multiset(cuts); }
    ToppedIn(cuts, fill.cuts, b);
  }

  /** Crosscuts run inside their region. */
  lemma {:induction false} CutsInside(t: GTree, r: Box, S: seq<Box>, g: Config, c: SawCut)
    requires Frees(t, r, S, g.kerf) && Solid(r) && c in PlanOf(t, r, g).cuts && c.horizontal
    ensures r.y0 < c.y < r.y1
    decreases t
  {
    hide Frees, Side;
    if t.Cut? {
      var h, at := t.horizontal, t.at;
      FreesCut(h, at, t.near, t.far, r, S, g.kerf);
      var near, far := NearRegion(r, h, at), FarRegion(r, h, at, g.kerf);
      if c == CutOf(r, h, at) {
      } else if c in PlanOf(t.near, near, g).cuts {
        CutsInside(t.near, near, Near(S, h, at), g, c);
      } else {
        CutsInside(t.far, far, Far(S, h, at, g.kerf), g, c);
      }
    }
  }

  // ---- what is listed ------------------------------------------------------------------------

  function LaneStart(f: Frame, lanes: seq<Lane>, i: nat): int
    requires i < |lanes|
  {
    SheetCursor(f, AsColumns(lanes[..i]))
  }

  /** A crosscut of lane `i`, below its top. */
  predicate OfLane(f: Frame, lanes: seq<Lane>, i: nat, c: SawCut)
    requires i < |lanes|
  {
    c.x == f.left + LaneStart(f, lanes, i) && c.length == lanes[i].width && c.y < f.bottom + lanes[i].height
  }

  lemma {:induction false} LaneCutsBelow(f: Frame, across: int, l: Lane, n: nat, limit: int, c: SawCut)
    requires RoundsUp(f) && f.unit == 1 && !f.transposed && LaneOk(l, limit, f.kerf) && l.height <= f.along
    requires n < |l.items| && c in ColumnFill(f, across, l.width, AsBound(l.items)[..n], 0).cuts
    ensures c.x == f.left + across && c.length == l.width && c.y < f.bottom + l.height
  {
    hide ColumnFill, ColumnCursor, LaneOk, Used;
    var rows := AsBound(l.items);
    NoRowsYet(f, across, l.width, 0);
    assert rows[..0] == [];
    if n > 0 {
      CursorNext(f, l, n - 1, limit);
      ColumnNext(f, across, l, n - 1, limit, 0);
      if c in ColumnFill(f, across, l.width, rows[..n-1], 0).cuts {
        LaneCutsBelow(f, across, l, n - 1, limit, c);
      }
    }
  }

  lemma {:induction false} BandCutsBelow(f: Frame, lanes: seq<Lane>, limit: int, c: SawCut) returns (i: nat)
    requires RoundsUp(f) && f.unit == 1 && !f.transposed
    requires forall l :: l in lanes ==> LaneOk(l, limit, f.kerf) && l.height <= f.along
    requires c in BandCuts(f, lanes) && c.horizontal
    ensures i < |lanes| && OfLane(f, lanes, i, c)
  {
    hide ColumnFill, SheetCursor, LaneOk, BandCuts, LaneCuts, AsColumns;
    if lanes == [] { CutsOfNone(f); }
    var n := |lanes| - 1;
    var init, l := lanes[..n], lanes[n];
    assert l in lanes && forall m :: m in init ==> m in lanes;
    CutsOfLast(f, lanes);
    var across := SheetCursor(f, AsColumns(init));
    if c in BandCuts(f, init) {
      i := BandCutsBelow(f, init, limit, c);
      assert init[..i] == lanes[..i];
    } else {
      i := n;
      LaneIsStack(l, limit, f.kerf);
      LaneCutsAre(f, across, l);
      LaneCutsBelow(f, across, l, |l.items| - 1, limit, c);
    }
  }

  lemma CutsOfNone(f: Frame)
    ensures BandCuts(f, []) == []
  {
  }

  lemma LaneCutsAre(f: Frame, across: int, l: Lane)
    requires l.items != []
    ensures LaneCuts(f, across, l) == ColumnFill(f, across, l.width, AsBound(l.items)[..|l.items|-1], 0).cuts
  {
    hide ColumnFill;
    assert AsBound(l.items)[..|l.items|-1] == AsBound(l.items[..|l.items|-1]);
  }

  /** Lanes start past the end of those before them. */
  lemma {:induction false} StartsPast(f: Frame, lanes: seq<Lane>, i: nat, j: nat)
    requires i < j < |lanes| && forall l :: l in lanes ==> 0 < l.width
    ensures LaneStart(f, lanes, i) + lanes[i].width <= LaneStart(f, lanes, j)
    decreases j
  {
    hide AsColumns;
    assert lanes[j-1] in lanes && lanes[..j][..j-1] == lanes[..j-1];
    CursorAfter(f, lanes[..j]);
    if i < j - 1 { StartsPast(f, lanes, i, j - 1); }
  }

  lemma CursorAfter(f: Frame, lanes: seq<Lane>)
    requires lanes != []
    ensures SheetCursor(f, AsColumns(lanes)) >= SheetCursor(f, AsColumns(lanes[..|lanes|-1])) + lanes[|lanes|-1].width
  {
    assert AsColumns(lanes)[..|lanes|-1] == AsColumns(lanes[..|lanes|-1]);
  }

  /** The topmost piece of a lane. */
  function TopPiece(f: Frame, lanes: seq<Lane>, i: nat): Box
    requires i < |lanes| && lanes[i].items != []
  {
    var l := lanes[i];
    var x, y := f.left + LaneStart(f, lanes, i), f.bottom + l.height;
    Box(x, y - l.items[|l.items|-1].height, x + l.width, y)
  }

  lemma {:induction false} TopIsPlaced(f: Frame, lanes: seq<Lane>, i: nat, limit: int, minRect: int)
    requires RoundsUp(f) && f.unit == 1 && !f.transposed && i < |lanes|
    requires forall l :: l in lanes ==> LaneOk(l, limit, f.kerf) && l.height <= f.along
    ensures lanes[i].items != [] && Solid(TopPiece(f, lanes, i))
    ensures TopPiece(f, lanes, i) in BoxesOf(SheetFill(f, AsColumns(lanes), minRect).placed)
  {
    hide SheetFill, LaneOk, WholeColumn, BoxesOf, TopPiece, AsColumns, RoundsUp, LaneStart;
    var n := |lanes| - 1;
    assert lanes[i] in lanes && forall l :: l in lanes[..n] ==> l in lanes;
    LaneTopPlaced(f, lanes, i, limit, minRect);
    BoxesOfNext(f, lanes, minRect);
    if i < n {
      TopIsPlaced(f, lanes[..n], i, limit, minRect);
      TopOfPrefix(f, lanes, n, i);
    }
  }

  lemma TopOfPrefix(f: Frame, lanes: seq<Lane>, n: nat, i: nat)
    requires i < n <= |lanes| && lanes[i].items != []
    ensures TopPiece(f, lanes[..n], i) == TopPiece(f, lanes, i)
  {
    hide SheetCursor, AsColumns;
    assert lanes[..n][..i] == lanes[..i];
  }

  lemma BoxesOfNext(f: Frame, lanes: seq<Lane>, minRect: int)
    requires lanes != []
    ensures var n := |lanes| - 1;
            var last := WholeColumn(f, LaneStart(f, lanes, n), AsColumn(lanes[n]), minRect);
            var before, after := SheetFill(f, AsColumns(lanes[..n]), minRect), SheetFill(f, AsColumns(lanes), minRect);
            BoxesOf(after.placed) == BoxesOf(before.placed) + BoxesOf(last.placed)
  {
    hide SheetFill, SheetCursor, WholeColumn, BoxOf, BandCuts, LaneCuts;
    var n, columns := |lanes| - 1, AsColumns(lanes);
    SheetNext(f, lanes, n, minRect);
    assert columns[..n+1] == columns && columns[..n] == AsColumns(lanes[..n]);
    var before, last := SheetFill(f, columns[..n], minRect), WholeColumn(f, SheetCursor(f, columns[..n]), columns[n],
        minRect);
    assert BoxesOf(before.placed + last.placed) == BoxesOf(before.placed) + BoxesOf(last.placed);
  }

  lemma LaneTopPlaced(f: Frame, lanes: seq<Lane>, i: nat, limit: int, minRect: int)
    requires RoundsUp(f) && f.unit == 1 && !f.transposed && i < |lanes|
    requires LaneOk(lanes[i], limit, f.kerf) && lanes[i].height <= f.along
    ensures lanes[i].items != [] && Solid(TopPiece(f, lanes, i))
    ensures TopPiece(f, lanes, i) in BoxesOf(WholeColumn(f, LaneStart(f, lanes, i), AsColumn(lanes[i]), minRect).placed)
  {
    hide ColumnFill, ColumnCursor, LaneOk, SheetCursor, BoxesOf, WholeColumn, AsColumn, LaneStart, RoundsUp, Crosscut,
         Kept, Slot;
    var l, x := lanes[i], LaneStart(f, lanes, i);
    LaneIsStack(l, limit, f.kerf);
    var n, rows := |l.items| - 1, AsBound(l.items);
    LaneColumn(f, x, l, limit, minRect);
    CursorNext(f, l, n, limit);
    ColumnNext(f, x, l, n, limit, minRect);
    LaneItem(l, n, limit, f.kerf);
    ItemIsWide(l, n, limit, f.kerf);
    assert rows[..n+1] == rows && l.items[..n+1] == l.items;
    var placed := ColumnFill(f, x, l.width, rows, minRect).placed;
    var it := l.items[n];
    assert BoxOf(placed[|placed|-1]) == TopPiece(f, lanes, i);
    assert BoxesOf(placed)[|placed|-1] == TopPiece(f, lanes, i);
  }

  lemma ItemIsWide(l: Lane, i: nat, limit: int, kerf: nat)
    requires LaneOk(l, limit, kerf) && i < |l.items|
    ensures 0 < l.items[i].height && 0 < l.width == l.items[i].width
  {
    assert l.items[i] in l.items;
  }

  // ---- which lists are complete ----------------------------------------------------------------

  lemma StripCutsAbove(strip: BinFill, r: Box, dx: int, dy: int, g: Config, u: GTree, c: SawCut)
    requires Solid(r) && r.y0 == 0 && Realizes(u, r, strip, g) && c in Translate(strip, dx, dy).cuts && c.horizontal
    ensures c.y > dy
  {
    hide Frees, PlanOf, Offcuts, BoxesOf;
    var cuts := Translate(strip, dx, dy).cuts;
    var i :| 0 <= i < |cuts| && cuts[i] == c;
    var d := strip.cuts[i];
    assert d in multiset(PlanOf(u, r, g).cuts);
    CutsInside(u, r, BoxesOf(strip.placed), g, d);
  }

  /** Where the listed crosscuts of a sheet are. */
  lemma ListedCut(lanes: seq<Lane>, strip: BinFill, r: Box, minRect: int, g: Config, c: SawCut) returns (i: nat)
    requires Solid(r) && LanesOk(lanes, r, g.kerf) && StripOk(lanes, strip, r, g)
    requires c in Emitted(lanes, strip, r, g.kerf, minRect).cuts && c.horizontal
    ensures var f := BandFrame(r, BandHeight(lanes), g.kerf);
            || (i < |lanes| && OfLane(f, lanes, i, c))
            || (StripUsed(strip) && c.y >= r.y0 + BandHeight(lanes))
  {
    hide SheetFill, SheetCursor, LaneOk, BandCuts, BandHeight, Realizes, AsColumns, OfLane, Translate, WholeSheet,
         UsedAcross, RowsFit, LanesWidth;
    var band := BandHeight(lanes);
    var f := BandFrame(r, band, g.kerf);
    BandFits(lanes, r, g.kerf);
    i := 0;
    if c in BandCuts(f, lanes) {
      i := BandCutsBelow(f, lanes, Height(r), c);
    } else if c !in BandTop(lanes, r) {
      var above := Box(0, 0, Width(r), FreeAbove(lanes, r, g.kerf));
      var u :| Realizes(u, above, strip, g);
      StripCutsAbove(strip, above, r.x0, r.y0 + band + g.kerf, g, u, c);
    }
  }

  /** No listed cut runs along the top of a lane that is shorter than the band, nor, without
      a strip, along the top of any lane. */
  lemma TopUnlisted(lanes: seq<Lane>, strip: BinFill, r: Box, minRect: int, g: Config, i: nat)
    requires Solid(r) && LanesOk(lanes, r, g.kerf) && StripOk(lanes, strip, r, g) && i < |lanes|
    requires lanes[i].height < BandHeight(lanes) || !StripUsed(strip)
    ensures lanes[i].items != []
    ensures var f := BandFrame(r, BandHeight(lanes), g.kerf);
            !Topped(Emitted(lanes, strip, r, g.kerf, minRect).cuts, TopPiece(f, lanes, i))
  {
    hide SheetFill, BandCuts, BandHeight, Realizes, AsColumns, WholeSheet, UsedAcross, RowsFit, LanesWidth, Emitted,
         LaneStart, StripOk, LaneOk;
    var f := BandFrame(r, BandHeight(lanes), g.kerf);
    assert lanes[i] in lanes;
    LaneIsStack(lanes[i], Height(r), g.kerf);
    var b, cuts := TopPiece(f, lanes, i), Emitted(lanes, strip, r, g.kerf, minRect).cuts;
    forall c | c in cuts ensures !Tops(c, b) {
      if Tops(c, b) {
        var j := ListedCut(lanes, strip, r, minRect, g, c);
        forall l | l in lanes ensures 0 < l.width { LanePositive(l, Height(r), g.kerf); }
        if j < i { StartsPast(f, lanes, j, i); }
        if i < j < |lanes| { StartsPast(f, lanes, i, j); }
        assert false;
      }
    }
  }

  lemma PlacedFirst(lanes: seq<Lane>, strip: BinFill, r: Box, minRect: int, kerf: nat)
    ensures var f := BandFrame(r, BandHeight(lanes), kerf);
            SheetFill(f, AsColumns(lanes), minRect).placed <= Emitted(lanes, strip, r, kerf, minRect).placed
  {
    hide SheetFill, BandCuts, BandHeight, AsColumns, Translate, SheetTail, SheetCursor, KeepAll, Kept, FreeAbove;
    BandEnd(BandFrame(r, BandHeight(lanes), kerf), AsColumns(lanes), minRect);
  }

  lemma BoxesOfPrefix(a: seq<Placed>, b: seq<Placed>, x: Box)
    requires a <= b && x in BoxesOf(a)
    ensures x in BoxesOf(b)
  {
    hide BoxOf;
    assert b == a + b[|a|..];
    BoxesOfConcat(a, b[|a|..]);
  }

  lemma TopPlaced(lanes: seq<Lane>, strip: BinFill, r: Box, minRect: int, kerf: nat, i: nat)
    requires Solid(r) && LanesOk(lanes, r, kerf) && i < |lanes|
    ensures lanes[i].items != []
    ensures var f := BandFrame(r, BandHeight(lanes), kerf);
            && Solid(TopPiece(f, lanes, i))
            && TopPiece(f, lanes, i) in BoxesOf(Emitted(lanes, strip, r, kerf, minRect).placed)
  {
    hide SheetFill, BandHeight, AsColumns, UsedAcross, RowsFit, LanesWidth, TopPiece, LaneOk, Emitted, BoxesOf;
    var f := BandFrame(r, BandHeight(lanes), kerf);
    BandFits(lanes, r, kerf);
    TopIsPlaced(f, lanes, i, Height(r), minRect);
    PlacedFirst(lanes, strip, r, minRect, kerf);
    BoxesOfPrefix(SheetFill(f, AsColumns(lanes), minRect).placed, Emitted(lanes, strip, r, kerf, minRect).placed,
                  TopPiece(f, lanes, i));
  }

  /** Every lane reaches the top of the band, and a listed cut or the edge of the sheet is
      above the band. */
  predicate ListsAll(lanes: seq<Lane>, strip: BinFill, r: Box) {
    && (forall l :: l in lanes ==> l.height == BandHeight(lanes))
    && (StripUsed(strip) || BandHeight(lanes) >= Height(r))
  }

  lemma MissingCut(lanes: seq<Lane>, strip: BinFill, r: Box, minRect: int, g: Config, t: GTree, i: nat)
    requires Solid(r) && LanesOk(lanes, r, g.kerf) && StripOk(lanes, strip, r, g) && i < |lanes|
    requires lanes[i].height < BandHeight(lanes) || (!StripUsed(strip) && lanes[i].height < Height(r))
    ensures !Realizes(t, r, Emitted(lanes, strip, r, g.kerf, minRect), g)
  {
    hide Realizes, Emitted, LanesOk, StripOk, LaneStart, Topped, BandHeight;
    var fill := Emitted(lanes, strip, r, g.kerf, minRect);
    BandFits(lanes, r, g.kerf);
    TopPlaced(lanes, strip, r, minRect, g.kerf, i);
    TopUnlisted(lanes, strip, r, minRect, g, i);
    if Realizes(t, r, fill, g) {
      ReportTops(t, r, fill, g, TopPiece(BandFrame(r, BandHeight(lanes), g.kerf), lanes, i));
    }
  }

  /** An emitted sheet is a cut tree's report exactly when every lane is as tall as the
      band and a strip is packed above the band or there is nothing above it. */
  lemma ReportIff(lanes: seq<Lane>, strip: BinFill, r: Box, minRect: int, g: Config)
    requires Solid(r) && LanesOk(lanes, r, g.kerf) && StripOk(lanes, strip, r, g)
    ensures (exists t :: Realizes(t, r, Emitted(lanes, strip, r, g.kerf, minRect), g)) <==> ListsAll(lanes, strip, r)
  {
    hide Realizes, Emitted, StripOk, BandHeight, LaneOk, LanesWidth, Unlisted;
    var fill := Emitted(lanes, strip, r, g.kerf, minRect);
    if ListsAll(lanes, strip, r) {
      CutsListedIff(lanes, strip, r, g.kerf);
      var t := EmittedIsCuttable(lanes, strip, r, minRect, g);
      assert fill.(cuts := fill.cuts + []) == fill;
    } else {
      var short := if (exists l :: l in lanes && l.height != BandHeight(lanes)) then var l :| l in lanes
          && l.height != BandHeight(lanes); l
                   else lanes[0];
      var i :| 0 <= i < |lanes| && lanes[i] == short;
      assert lanes[0] in lanes;
      forall t ensures !Realizes(t, r, fill, g) { MissingCut(lanes, strip, r, minRect, g, t, i); }
    }
  }

  /** Two lanes of one piece each, one taller than the other. */
  lemma TwoLanesAreNoReport(kerf: nat, minRect: int, minUsable: int)
    ensures var tall, low := Piece("tall", 1, 2, false, 0), Piece("low", 1, 1, false, 0);
            var lanes := [Lane(1, [Item(tall, 1, 2, false)], 2), Lane(1, [Item(low, 1, 1, false)], 1)];
            var r, g := Box(0, 0, 2 + kerf, 2), Config(kerf, minRect, minUsable);
            && LanesOk(lanes, r, kerf)
            && forall t :: !Realizes(t, r, Emitted(lanes, NOFILL, r, kerf, minRect), g)
  {
    hide Realizes, Emitted;
    var tall, low := Item(Piece("tall", 1, 2, false, 0), 1, 2, false), Item(Piece("low", 1, 1, false, 0), 1, 1, false);
    var a, b := Lane(1, [tall], 2), Lane(1, [low], 1);
    var lanes, r, g := [a, b], Box(0, 0, 2 + kerf, 2), Config(kerf, minRect, minUsable);
    assert [tall][..0] == [] && [low][..0] == [] && lanes[..1] == [a] && [a][..0] == [];
    assert StackHeight([], kerf) == 0 && StackHeight([tall], kerf) == 2 && StackHeight([low], kerf) == 1;
    assert LaneOk(a, 2, kerf) && LaneOk(b, 2, kerf);
    assert LanesWidth([a], kerf) == 1 + kerf && LanesWidth(lanes, kerf) == 2 + kerf + kerf;
    assert a in lanes && b in lanes && BandHeight(lanes) >= 2;
    ReportIff(lanes, NOFILL, r, minRect, g);
  }
}
