/**
What truncating lengths that were meant to be rounded up does to the three-stage
layouts of exact3.py.
*/
module Truncation {
  import opened Arithmetic
  import opened Geometry
  import opened Guillotine
  import opened Plans
  import opened Sequences
  import opened Sheets
  import opened Constructors
  import opened Strips
  import opened ExactModel
  import opened ExactColumns
  import opened ExactBinding
  import opened ExactLayout
  import opened Exact
  import opened TowerLayout
  import opened TowerModel
  import opened TowerColumns
  import opened Exact3

  /** Truncation and rounding up agree exactly on whole units. */
  lemma TruncationIsExact(v: nat, unit: int)
    requires unit > 0
    ensures Down(v, unit) == Up(v, unit) <==> v % unit == 0
  {
    assert v == v / unit * unit + v % unit;
    if v % unit == 0 { UpExact(v, unit); }
  }

  /** A bin type, an assignment of squares that meets the constraints, and a layout of it
      the saw cannot make. */
  ghost predicate Misled(v: int, p: Params, unit: int, shapes: seq<BinShape>, bins: seq<seq<Pile>>,
                         groups: seq<seq<Piece>>, minRect: int)
    requires unit > 0
  {
    && Grouped(groups) && groups != [] && (forall q :: q in Flatten(groups) ==> q.width == v && q.height == v)
    && ValidFrames(FramesOf(shapes, p, unit)) && MeetsTowers(bins, FramesOf(shapes, p, unit), groups)
    && !SoundBins(LaidOut(bins, FramesOf(shapes, p, unit), groups, minRect), shapes, p, Flatten(groups))
  }

  // ---- two squares side by side in one strip ----------------------------------------------

  function Square(id: string, v: int): Piece {
    Piece(id, v, v, false, 0)
  }

  function Squares(v: int): seq<seq<Piece>> {
    [[Square("a", v), Square("b", v)]]
  }

  /** A bin with room to spare, its usable part whole units. */
  function Roomy(v: int, p: Params, unit: int): BinShape {
    var side := (2 * v + p.kerf + 1) * unit;
    BinShape(p.left + p.right + side, p.bottom + p.top + side, false)
  }

  function SquareFrame(v: int, p: Params, unit: int): Frame
    requires unit > 0
  {
    TruncatedFrame(Roomy(v, p, unit), p, unit)
  }

  function StripOfTwo(v: int, p: Params, unit: int): Pile
    requires unit > 0
  {
    var s := Down(v, unit);
    Pile(true, 2 * s + SquareFrame(v, p, unit).kerf, [Column(true, s, [[2]])])
  }

  lemma DownBounds(v: nat, unit: int)
    requires unit > 0
    ensures 0 <= Down(v, unit) <= v
  {
    assert v == v / unit * unit + v % unit;
  }

  lemma WholeMultiple(n: nat, unit: int)
    requires unit > 0
    ensures Down(n * unit, unit) == n * unit
  {
    var a := n * unit;
    var q := a / unit;
    assert a == q * unit + a % unit;
    Distribute(q, n, unit);
    NotPositive(q - n, unit);
    NotPositive(n - q, unit);
  }

  lemma SideIsRoomy(v: nat, kerf: nat, unit: int)
    requires unit > 0
    ensures var side := (2 * v + kerf + 1) * unit;
            Down(side, unit) == side && 2 * v + kerf < side
  {
    hide Down;
    var n := 2 * v + kerf + 1;
    AtLeastOnce(n, unit);
    WholeMultiple(n, unit);
  }

  lemma AtLeastOnce(n: nat, unit: int)
    requires unit > 0
    ensures n * unit >= n
  {
    assert n * (unit - 1) >= 0 && n * unit == n * (unit - 1) + n;
  }

  lemma SquareFrameIs(v: nat, p: Params, unit: int)
    requires unit > 0 && v > 0
    ensures var f, side := SquareFrame(v, p, unit), (2 * v + p.kerf + 1) * unit;
            && f == Frame(p.left, p.bottom, side, side, Down(p.kerf, unit), unit, false, true)
            && ValidFrame(f) && 0 <= Down(v, unit) <= v && 0 <= f.kerf <= p.kerf && 2 * v + p.kerf < side
  {
    hide Down;
    SideIsRoomy(v, p.kerf, unit);
    DownBounds(v, unit);
    DownBounds(p.kerf, unit);
  }

  function SquareRow(v: int, unit: int): Row
    requires unit > 0
  {
    Row(Down(v, unit), Down(v, unit), false, 0)
  }

  lemma OneOption(v: nat, p: Params, unit: int)
    requires unit > 0 && v > 0
    ensures var f, s := SquareFrame(v, p, unit), Down(v, unit);
            Grouped(Squares(v)) && Options(StripFrame(f), Squares(v)) == [[Orientation(s, s, false)]]
  {
    hide Down;
    SquareFrameIs(v, p, unit);
    assert Squares(v)[0][0] == Square("a", v);
  }

  /** What the strip holds: the same row twice. */
  lemma TwoRows(v: nat, p: Params, unit: int)
    requires unit > 0 && v > 0
    ensures var s, r := Down(v, unit), SquareRow(v, unit);
            var options := [[Orientation(s, s, false)]];
            && Shaped([[2]], options) && RowsOf([[2]], options) == [r, r]
            && forall kerf: nat :: Stacked([[2]], options, kerf) == 2 * (s + kerf)
    ensures SumCounts([2]) == 2
  {
    hide Down;
    var s, r := Down(v, unit), SquareRow(v, unit);
    var options := [[Orientation(s, s, false)]];
    assert Copies(r, 2) == [r, r] by { assert Copies(r, 1) == [r]; }
    assert [[2]][..0] == [] && options[..0] == [] && [2][..0] == [] && options[0][..0] == [];
    assert RowsOfKind([2], options[0], 0) == [r, r];
    forall kerf: nat ensures Stacked([[2]], options, kerf) == 2 * (s + kerf) {
      assert StackedKind([2], options[0], kerf) == 2 * (s + kerf);
    }
  }

  lemma StripMeets(v: nat, p: Params, unit: int)
    requires unit > 0 && v > 0
    ensures var f := SquareFrame(v, p, unit);
            && ValidFrames([f]) && Grouped(Squares(v))
            && MeetsTowers([[StripOfTwo(v, p, unit)]], [f], Squares(v))
  {
    hide Down, Stacked, RowsOf, SumCounts;
    var f, s := SquareFrame(v, p, unit), Down(v, unit);
    var pile := StripOfTwo(v, p, unit);
    var c := pile.rows[0];
    SquareFrameIs(v, p, unit);
    OneOption(v, p, unit);
    TwoRows(v, p, unit);
    var options := Options(StripFrame(f), Squares(v));
    assert pile.rows == [c] && [c][..0] == [] && [pile][..0] == [];
    assert SumBy(Ripped(f.kerf), [c]) == s + f.kerf;
    assert ColumnMeets(c, options, StripFrame(f));
    assert PileMeets(pile, options, f);
    assert SumBy(PileRip(f.kerf), [pile]) == pile.width + f.kerf;
    assert BinMeets([pile], options, f);
    assert OfType(0)(c) == 2;
    assert SumBy(OfType(0), [c]) == 2;
    assert PileType(0)(pile) == 2;
    assert SumBy(PileType(0), [pile]) == 2;
    assert [[pile]][..0] == [];
    assert TypeTotal([[pile]], 0) == 2;
  }

  // ---- what comes out --------------------------------------------------------------------------

  function SquareTemplate(v: int, unit: int): Template
    requires unit > 0
  {
    Template(Down(v, unit), [SquareRow(v, unit), SquareRow(v, unit)])
  }

  lemma SortedPair(r: Row)
    ensures SortBy(RowFirst, [r, r]) == [r, r]
  {
    assert [r, r][..1] == [r] && [r][..0] == [];
    assert SortBy(RowFirst, []) == [] && SortBy(RowFirst, [r]) == [r];
  }

  lemma SortedOne<T>(le: (T, T) -> bool, x: T)
    ensures SortBy(le, [x]) == [x]
  {
    assert [x][..0] == [];
    assert SortBy(le, []) == [];
  }

  lemma PairTemplate(v: nat, unit: int)
    requires unit > 0
    ensures TemplateOf([SquareRow(v, unit), SquareRow(v, unit)]) == SquareTemplate(v, unit)
  {
    hide Down;
    var r := SquareRow(v, unit);
    DownBounds(v, unit);
    SortedPair(r);
    assert [r, r][..1] == [r] && [r][..0] == [];
    assert MaxAcross([r]) == r.across;
  }

  lemma PairContents(v: nat, p: Params, unit: int)
    requires unit > 0 && v > 0
    ensures var f, r := SquareFrame(v, p, unit), SquareRow(v, unit);
            var options := Options(StripFrame(f), Squares(v));
            && BinShaped([StripOfTwo(v, p, unit)], options)
            && PileContents([StripOfTwo(v, p, unit)], options) == [[[r, r]]]
  {
    hide Down, RowsOf, Stacked, SumCounts;
    var f, r := SquareFrame(v, p, unit), SquareRow(v, unit);
    var pile := StripOfTwo(v, p, unit);
    var c := pile.rows[0];
    OneOption(v, p, unit);
    TwoRows(v, p, unit);
    var options := Options(StripFrame(f), Squares(v));
    assert pile.rows == [c] && [c][..0] == [] && [pile][..0] == [];
    assert Contents([], options) == [] && PileContents([], options) == [];
    assert Contents([c], options) == [[r, r]];
    assert PileContents([pile], options) == [[[r, r]]];
  }

  lemma PairTower(v: nat, unit: int, kerf: nat)
    requires unit > 0
    ensures var s, r := Down(v, unit), SquareRow(v, unit);
            TowerOf(kerf)([[r, r]]) == TowerTemplate(Max(0, 2 * s + kerf), [SquareTemplate(v, unit)])
  {
    hide Down, SortBy, TemplateOf, StripFirst;
    var r, t := SquareRow(v, unit), SquareTemplate(v, unit);
    PairTemplate(v, unit);
    assert MapBy(TemplateOf, []) == [] && [[r, r]][..0] == [];
    assert MapBy(TemplateOf, [[r, r]]) == [t];
    SortedOne(StripFirst(kerf), t);
    assert SumBy(Pitch(kerf), t.rows) == 2 * (r.along + kerf) by {
      assert [r, r][..1] == [r] && [r][..0] == [];
      assert SumBy(Pitch(kerf), []) == 0 && SumBy(Pitch(kerf), [r]) == r.along + kerf;
    }
    assert [t][..0] == [] && MaxSpan(kerf, []) == 0;
    assert MaxSpan(kerf, [t]) == Max(0, Span(kerf, t));
  }

  lemma PairRead(v: nat, p: Params, unit: int)
    requires unit > 0 && v > 0
    ensures var f := SquareFrame(v, p, unit);
            var options := Options(StripFrame(f), Squares(v));
            && BinShaped([StripOfTwo(v, p, unit)], options)
            && TowersOf(f.kerf, [StripOfTwo(v, p, unit)], options) ==
               [TowerTemplate(2 * Down(v, unit) + f.kerf, [SquareTemplate(v, unit)])]
  {
    hide Down, SortBy, TowerFirst, TowerOf, SquareFrame, Options, PileContents, BinShaped, StripOfTwo;
    var f, r := SquareFrame(v, p, unit), SquareRow(v, unit);
    DownBounds(v, unit);
    PairContents(v, p, unit);
    PairTower(v, unit, f.kerf);
    var tower := TowerTemplate(2 * Down(v, unit) + f.kerf, [SquareTemplate(v, unit)]);
    assert MapBy(TowerOf(f.kerf), []) == [] && [[[r, r]]][..0] == [];
    assert MapBy(TowerOf(f.kerf), [[[r, r]]]) == [tower];
    SortedOne(TowerFirst(f.kerf), tower);
  }

  /** The two squares as bound to the strip's rows. */
  function SquareStrip(v: int, unit: int): BoundColumn
    requires unit > 0
  {
    BoundColumn(Down(v, unit), [Bound(SquareRow(v, unit), Square("a", v)), Bound(SquareRow(v, unit), Square("b", v))])
  }

  lemma PairCounts(v: nat, unit: int)
    requires unit > 0
    ensures var r := SquareRow(v, unit);
            CountKind([], 0) == 0 && CountKind([r], 0) == 1 && CountKind([r, r], 0) == 2 && Enough([r, r], Squares(v))
  {
    hide Down;
    var r := SquareRow(v, unit);
    SumByLast(OfKind(0), [], r);
    SumByLast(OfKind(0), [r], r);
    assert [] + [r] == [r] && [r] + [r] == [r, r];
  }

  lemma PairRows(v: nat, unit: int)
    requires unit > 0
    ensures Enough([SquareRow(v, unit), SquareRow(v, unit)], Squares(v))
    ensures var r := SquareRow(v, unit);
            && Enough([] + [r, r], Squares(v))
            && BindRows([], [r, r], Squares(v)) == [Bound(r, Square("a", v)), Bound(r, Square("b", v))]
  {
    hide Down, CountKind, Enough;
    var r, none: seq<Row> := SquareRow(v, unit), [];
    PairCounts(v, unit);
    assert [r, r][..1] == [r] && [r][..0] == none && none + [r] == [r] && [r] + [r] == [r, r]
        && none + [r, r] == [r, r];
    EnoughForPrefix([r], [r], Squares(v));
    assert none + none == none && Enough(none, Squares(v)) by { EnoughForPrefix(none, [r], Squares(v)); }
    assert BindRows(none, none, Squares(v)) == [];
    assert BindRows(none, [r], Squares(v)) == [Bound(r, PieceFor(none, r, Squares(v)))];
    assert BindRows(none, [r, r], Squares(v)) ==
        BindRows(none, [r], Squares(v)) + [Bound(r, PieceFor([r], r, Squares(v)))];
  }

  lemma PairBound(v: nat, unit: int)
    requires unit > 0
    ensures AllRows([SquareTemplate(v, unit)]) == [SquareRow(v, unit), SquareRow(v, unit)]
    ensures Enough(AllRows([SquareTemplate(v, unit)]), Squares(v))
    ensures BindColumns([SquareTemplate(v, unit)], Squares(v)) == [SquareStrip(v, unit)]
  {
    hide Down, CountKind, Enough, BindRows;
    var t, r, none: seq<Template> := SquareTemplate(v, unit), SquareRow(v, unit), [];
    PairRows(v, unit);
    assert [t][..0] == none && AllRows(none) == [] && [] + [r, r] == [r, r];
    EnoughForPrefix(AllRows(none), [r, r], Squares(v));
    assert BindColumns(none, Squares(v)) == [];
  }

  lemma PairDealt(v: nat, p: Params, unit: int)
    requires unit > 0 && v > 0
    ensures var f := SquareFrame(v, p, unit);
            var towers := [TowerTemplate(2 * Down(v, unit) + f.kerf, [SquareTemplate(v, unit)])];
            && BinStrips([towers]) == [SquareTemplate(v, unit)]
            && Deal([towers], [SquareStrip(v, unit)]) == [[Tower(2 * Down(v, unit) + f.kerf, [SquareStrip(v, unit)])]]
  {
    hide Down;
    var f, t := SquareFrame(v, p, unit), SquareTemplate(v, unit);
    var tower := TowerTemplate(2 * Down(v, unit) + f.kerf, [t]);
    assert [[tower]][..0] == [] && [tower][..0] == [];
    assert AllStrips([]) == [] && BinStrips([]) == [];
    assert AllStrips([tower]) == [t];
    assert BinStrips([[tower]]) == [t];
    var bound := [SquareStrip(v, unit)];
    assert bound[..0] == [] && bound[0..] == bound;
    assert Regroup([], []) == [] && Deal([], []) == [];
    assert Regroup([tower], bound) == [Tower(tower.width, bound)];
  }

  lemma PairInColumn(g: Frame, a: Bound, b: Bound, width: int, minRect: int)
    ensures ColumnFill(g, 0, width, [a, b], minRect).placed ==
            [PlacedAt(g, 0, 0, a), PlacedAt(g, PastBlade(a.row.along, g.along, g.kerf), 0, b)]
  {
    hide RowFill, PlacedAt, PastBlade, ColumnFill;
    assert [a, b][..1] == [a] && [a][..0] == [];
    NothingInColumn(g, width, minRect);
    PlacedInColumn(g, 0, width, [a, b], minRect);
    PlacedInColumn(g, 0, width, [a], minRect);
    assert ColumnCursor(g, [a]) == PastBlade(ColumnCursor(g, []) + a.row.along, g.along, g.kerf);
  }

  lemma NothingInColumn(g: Frame, width: int, minRect: int)
    ensures ColumnFill(g, 0, width, [], minRect).placed == [] && ColumnCursor(g, []) == 0
  {
  }

  /** One strip in one column: what lies in it. */
  lemma OneStrip(f: Frame, width: int, strip: BoundColumn, minRect: int)
    ensures WholeTowers(f, [Tower(width, [strip])], minRect).placed ==
            ColumnFill(Turned(f, 0, width), 0, strip.width, strip.rows, minRect).placed
  {
    hide ColumnFill, SheetTail, RipCut, WholeTower, WholeColumn, SheetFill, TowersFill, Turned;
    var tower, turned := Tower(width, [strip]), Turned(f, 0, width);
    assert [strip][..0] == [] && [tower][..0] == [] && AsWidths([]) == [];
    assert SheetCursor(f, []) == 0 && SheetCursor(turned, []) == 0;
    NothingOnTowers(f, turned, minRect);
    PlacedOnTowers(f, [tower], minRect);
    PlacedOnSheet(turned, [strip], minRect);
    assert WholeTowers(f, [tower], minRect).placed == TowersFill(f, [tower], minRect).placed + [];
  }

  lemma NothingOnTowers(f: Frame, turned: Frame, minRect: int)
    ensures TowersFill(f, [], minRect).placed == [] && SheetFill(turned, [], minRect).placed == []
  {
  }

  /** Where the two squares lie: next to each other, one slot and one blade apart. */
  lemma PairPlaced(v: nat, p: Params, unit: int, minRect: int)
    requires unit > 0 && v > 0
    ensures var f, s := SquareFrame(v, p, unit), Down(v, unit);
            var placed := WholeTowers(f, [Tower(2 * s + f.kerf, [SquareStrip(v, unit)])], minRect).placed;
            && |placed| == 2
            && BoxOf(placed[0]) == Box(p.left, p.bottom, p.left + v, p.bottom + v)
            && BoxOf(placed[1]) == Box(p.left + s + f.kerf, p.bottom, p.left + s + f.kerf + v, p.bottom + v)
  {
    hide Down, WholeTowers, ColumnFill, SquareFrame;
    var f, s := SquareFrame(v, p, unit), Down(v, unit);
    SquareFrameIs(v, p, unit);
    var strip := SquareStrip(v, unit);
    OneStrip(f, 2 * s + f.kerf, strip, minRect);
    PairInColumn(Turned(f, 0, 2 * s + f.kerf), strip.rows[0], strip.rows[1], s, minRect);
  }

  // ---- exactly when ----------------------------------------------------------------------------

  lemma PairLaidOut(v: nat, p: Params, unit: int, minRect: int)
    requires unit > 0 && v > 0
    ensures var f := SquareFrame(v, p, unit);
            && ValidFrames([f]) && Grouped(Squares(v)) && MeetsTowers([[StripOfTwo(v, p, unit)]], [f], Squares(v))
            && LaidOut([[StripOfTwo(v, p, unit)]], [f], Squares(v), minRect) ==
               [WholeTowers(f, [Tower(2 * Down(v, unit) + f.kerf, [SquareStrip(v, unit)])], minRect)]
  {
    hide Down, SquareFrame, Squares, StripOfTwo, MeetsTowers, TowersOf, Deal, BindColumns, BinStrips, AllRows, Enough,
         WholeTowers;
    var f, bins, groups := SquareFrame(v, p, unit), [[StripOfTwo(v, p, unit)]], Squares(v);
    SquareFrameIs(v, p, unit);
    StripMeets(v, p, unit);
    TowersAreRead(bins, [f], groups) by { SquaresThere(v); }
    PairRead(v, p, unit);
    var read := ReadBins(bins, [f], groups);
    assert [f][0] in [f];
    assert read == [[TowerTemplate(2 * Down(v, unit) + f.kerf, [SquareTemplate(v, unit)])]];
    PairBound(v, unit);
    PairDealt(v, p, unit);
  }

  lemma SquaresThere(v: int)
    ensures Squares(v) != [] && Flatten(Squares(v)) == [Square("a", v), Square("b", v)]
  {
    assert Squares(v)[..0] == [];
  }

  /** Two squares closer than the blade cannot both be cut out. */
  lemma TooClose(r: Box, S: seq<Box>, a: Box, b: Box, kerf: nat)
    requires |S| >= 2 && S[0] == a && S[1] == b && Solid(a) && Solid(b) && Separation(a, b) < kerf
    ensures !Cuttable(r, S, kerf)
  {
    hide Frees, Separation;
    if Cuttable(r, S, kerf) {
      assert S == [a, b] + S[2..];
      CuttableHereditary(r, S, [a, b], kerf);
      var t :| Frees(t, r, [a, b], kerf);
      FreedPiecesAreApart(t, r, [a, b], kerf);
    }
  }

  lemma SquaresAreMisled(v: nat, p: Params, unit: int, minRect: int)
    requires unit > 0 && v > 0 && (v % unit != 0 || p.kerf % unit != 0)
    ensures Misled(v, p, unit, [Roomy(v, p, unit)], [[StripOfTwo(v, p, unit)]], Squares(v), minRect)
  {
    hide Down, SquareFrame, StripOfTwo, WholeTowers, MeetsTowers, UsableBounds, Cuttable, Flatten, LaidOut,
         TruncatedFrame, Roomy;
    var f, s, shapes := SquareFrame(v, p, unit), Down(v, unit), [Roomy(v, p, unit)];
    SquareFrameIs(v, p, unit);
    SquaresThere(v);
    PairLaidOut(v, p, unit, minRect);
    PairPlaced(v, p, unit, minRect);
    TruncationLoses(v, unit);
    TruncationLoses(p.kerf, unit);
    assert FramesOf(shapes, p, unit) == [f] by { FrameIs(v, p, unit); }
    var fill := WholeTowers(f, [Tower(2 * s + f.kerf, [SquareStrip(v, unit)])], minRect);
    var boxes := BoxesOf(fill.placed) + fill.remainders;
    var a, b := BoxOf(fill.placed[0]), BoxOf(fill.placed[1]);
    TooClose(UsableBounds(shapes[0].width, shapes[0].height, p), boxes, a, b, p.kerf);
    assert LaidOut([[StripOfTwo(v, p, unit)]], [f], Squares(v), minRect)[0] == fill;
  }

  lemma FrameIs(v: int, p: Params, unit: int)
    requires unit > 0
    ensures SquareFrame(v, p, unit) == TruncatedFrame(Roomy(v, p, unit), p, unit)
  {
  }

  lemma TruncationLoses(v: nat, unit: int)
    requires unit > 0
    ensures Down(v, unit) < v <==> v % unit != 0
  {
    assert v == v / unit * unit + v % unit;
  }

  lemma WholeIsNotMisled(v: nat, p: Params, unit: int, shapes: seq<BinShape>, bins: seq<seq<Pile>>,
                         groups: seq<seq<Piece>>, minRect: int)
    requires unit > 0 && v % unit == 0 && p.kerf % unit == 0
    ensures !Misled(v, p, unit, shapes, bins, groups, minRect)
  {
    hide MeetsTowers, SoundBins, ReadBins, Flatten, Deal, BindColumns, BinStrips, AllRows, Enough, CountKind, Laid,
         BinTowers, TruncatedFrame;
    if Misled(v, p, unit, shapes, bins, groups, minRect) {
      var frames := FramesOf(shapes, p, unit);
      TowersAreRead(bins, frames, groups);
      ThreeStagesAreSound(ReadBins(bins, frames, groups), shapes, groups, p, unit, minRect);
    }
  }

  /** For squares of any size the constraints admit a layout the saw cannot make exactly
      when the size or the blade is not whole units. */
  lemma MisledIff(v: nat, p: Params, unit: int, minRect: int)
    requires unit > 0 && v > 0
    ensures (exists shapes, bins, groups :: Misled(v, p, unit, shapes, bins, groups, minRect))
            <==> v % unit != 0 || p.kerf % unit != 0
  {
    hide Misled;
    if v % unit != 0 || p.kerf % unit != 0 {
      SquaresAreMisled(v, p, unit, minRect);
    } else {
      forall shapes, bins, groups ensures !Misled(v, p, unit, shapes, bins, groups, minRect) {
        WholeIsNotMisled(v, p, unit, shapes, bins, groups, minRect);
      }
    }
  }
}
