/**
The reconstruction of exact.py as a whole: from any assignment the solver may
return to placements, cuts and leftovers a saw can make.
*/
module Exact {
  import opened Arithmetic
  import opened Geometry
  import opened Guillotine
  import opened Plans
  import opened Sequences
  import opened Sheets
  import opened Constructors
  import opened Strips
  import opened Rounding
  import opened ExactModel
  import opened ExactColumns
  import opened ExactPatterns
  import opened ExactBinding
  import opened ExactLayout

  // ---- bound columns fit the frame ---------------------------------------------------

  lemma BoundRowMeets(b: Bound, f: Frame, groups: seq<seq<Piece>>)
    requires f.unit > 0 && Grouped(groups) && RowMeets(b.row, f, groups) && b.piece in groups[b.row.kind]
    ensures BoundMeets(b, f) && Least(f) <= b.row.across && Least(f) <= b.row.along
  {
    assert TypeOf(b.piece) == TypeOf(groups[b.row.kind][0]);
  }

  lemma {:induction false} UsedIsPitch(f: Frame, rows: seq<Bound>, plain: seq<Row>)
    requires |plain| == |rows| && forall i :: 0 <= i < |rows| ==> rows[i].row == plain[i]
    ensures Used(f, rows) == SumBy(Pitch(f.kerf), plain)
  {
    if rows != [] { UsedIsPitch(f, rows[..|rows|-1], plain[..|plain|-1]); }
  }

  lemma BoundRowsFit(t: Template, earlier: seq<Row>, f: Frame, groups: seq<seq<Piece>>)
    requires f.unit > 0 && Grouped(groups) && TemplateMeets(t, f, groups) && Enough(earlier + t.rows, groups)
    ensures RowsFit(f, t.width, BindRows(earlier, t.rows, groups))
  {
    hide Enough, RowMeets, BoundMeets;
    var rows := BindRows(earlier, t.rows, groups);
    UsedIsPitch(f, rows, t.rows);
    forall b | b in rows ensures BoundMeets(b, f) && Least(f) <= b.row.across <= t.width && Least(f) <= b.row.along {
      var i :| 0 <= i < |rows| && rows[i] == b;
      assert t.rows[i] in t.rows;
      BoundRowMeets(b, f, groups);
    }
  }

  lemma LastColumnBound(ts: seq<Template>, groups: seq<seq<Piece>>)
    requires Enough(AllRows(ts), groups) && ts != []
    ensures var init, last := ts[..|ts|-1], ts[|ts|-1];
            && Enough(AllRows(init), groups) && Enough(AllRows(init) + last.rows, groups)
            && BindColumns(ts, groups) ==
               BindColumns(init, groups) + [BoundColumn(last.width, BindRows(AllRows(init), last.rows, groups))]
  {
    hide Enough, BindRows;
    EnoughForPrefix(AllRows(ts[..|ts|-1]), ts[|ts|-1].rows, groups);
  }

  lemma UsedAcrossLast(f: Frame, columns: seq<BoundColumn>, c: BoundColumn)
    ensures UsedAcross(f, columns + [c]) == UsedAcross(f, columns) + c.width + f.kerf
  {
    assert (columns + [c])[..|columns|] == columns;
  }

  lemma {:induction false} BoundColumnsFit(ts: seq<Template>, f: Frame, groups: seq<seq<Piece>>)
    requires f.unit > 0 && Grouped(groups) && Enough(AllRows(ts), groups)
    requires forall t :: t in ts ==> TemplateMeets(t, f, groups)
    ensures UsedAcross(f, BindColumns(ts, groups)) == SumBy(Rip(f.kerf), ts)
    ensures forall c :: c in BindColumns(ts, groups) ==> Least(f) <= c.width && RowsFit(f, c.width, c.rows)
  {
    hide Enough, RowsFit, BindRows, BindColumns, TemplateMeets, AllRows;
    if ts == [] {
      assert BindColumns(ts, groups) == [];
    } else {
      var init, last := ts[..|ts|-1], ts[|ts|-1];
      assert last in ts && forall t :: t in init ==> t in ts;
      LastColumnBound(ts, groups);
      BoundColumnsFit(init, f, groups);
      BoundRowsFit(last, AllRows(init), f, groups);
      assert Least(f) <= last.width by { WidthPositive(last, f, groups); }
      var c := BoundColumn(last.width, BindRows(AllRows(init), last.rows, groups));
      UsedAcrossLast(f, BindColumns(init, groups), c);
    }
  }

  lemma WidthPositive(t: Template, f: Frame, groups: seq<seq<Piece>>)
    requires f.unit > 0 && Grouped(groups) && TemplateMeets(t, f, groups)
    ensures Least(f) <= t.width
  {
  }

  // ---- what lies where -----------------------------------------------------------------

  /** These placements are of these pieces, each as it may lie. */
  predicate Carries(placed: seq<Placed>, pieces: seq<Piece>) {
    PiecesOf(placed) == pieces && forall p :: p in placed ==> Legal(p) && ValidPiece(p.piece)
  }

  lemma CarriesConcat(a: seq<Placed>, A: seq<Piece>, b: seq<Placed>, B: seq<Piece>)
    requires Carries(a, A) && Carries(b, B)
    ensures Carries(a + b, A + B)
  {
    hide Legal, ValidPiece;
    assert PiecesOf(a + b) == PiecesOf(a) + PiecesOf(b);
  }

  lemma CarriesOne(f: Frame, along: int, across: int, b: Bound)
    requires f.unit > 0 && BoundMeets(b, f)
    ensures Carries([PlacedAt(f, along, across, b)], [b.piece])
  {
    var p := PlacedAt(f, along, across, b);
    assert Legal(p) && PiecesOf([p]) == [b.piece];
  }

  lemma PlacedInColumn(f: Frame, across: int, width: int, rows: seq<Bound>, minRect: int)
    requires rows != []
    ensures var init, b := rows[..|rows|-1], rows[|rows|-1];
            ColumnFill(f, across, width, rows, minRect).placed ==
            ColumnFill(f, across, width, init, minRect).placed + [PlacedAt(f, ColumnCursor(f, init), across, b)]
  {
    hide PlacedAt, ColumnCursor;
    var init, b := rows[..|rows|-1], rows[|rows|-1];
    var along := ColumnCursor(f, init);
    var before, row := ColumnFill(f, across, width, init, minRect), RowFill(f, along, across, width, b, minRect);
    assert ColumnFill(f, across, width, rows, minRect).placed == before.placed + row.placed + [];
  }

  lemma {:induction false} ColumnPieces(f: Frame, across: int, width: int, rows: seq<Bound>, minRect: int)
    requires f.unit > 0 && forall b :: b in rows ==> BoundMeets(b, f)
    ensures Carries(ColumnFill(f, across, width, rows, minRect).placed, PiecesOn(rows))
  {
    hide Carries, ColumnFill, BoundMeets;
    if rows == [] {
      NoRowsNoPieces(f, across, width, minRect);
    } else {
      var init, b := rows[..|rows|-1], rows[|rows|-1];
      assert b in rows && forall c :: c in init ==> c in rows;
      ColumnPieces(f, across, width, init, minRect);
      PlacedInColumn(f, across, width, rows, minRect);
      CarriesOne(f, ColumnCursor(f, init), across, b);
      CarriesConcat(ColumnFill(f, across, width, init, minRect).placed, PiecesOn(init),
                    [PlacedAt(f, ColumnCursor(f, init), across, b)], [b.piece]);
      assert PiecesOn(rows) == PiecesOn(init) + [b.piece];
    }
  }

  lemma NoRowsNoPieces(f: Frame, across: int, width: int, minRect: int)
    ensures Carries(ColumnFill(f, across, width, [], minRect).placed, PiecesOn([]))
    ensures Carries(SheetFill(f, [], minRect).placed, PiecesIn([]))
  {
  }

  lemma PlacedOnSheet(f: Frame, columns: seq<BoundColumn>, minRect: int)
    requires columns != []
    ensures var init, c := columns[..|columns|-1], columns[|columns|-1];
            SheetFill(f, columns, minRect).placed ==
            SheetFill(f, init, minRect).placed + ColumnFill(f, SheetCursor(f, init), c.width, c.rows, minRect).placed
  {
    hide ColumnFill, SheetCursor;
    var init, c := columns[..|columns|-1], columns[|columns|-1];
    var across := SheetCursor(f, init);
    var column := ColumnFill(f, across, c.width, c.rows, minRect);
    assert WholeColumn(f, across, c, minRect).placed == column.placed + [];
    assert SheetFill(f, columns, minRect).placed ==
        SheetFill(f, init, minRect).placed + WholeColumn(f, across, c, minRect).placed + [];
  }

  /** The layout places exactly the bound pieces, in order, as they may lie. */
  lemma {:induction false} SheetPieces(f: Frame, columns: seq<BoundColumn>, minRect: int)
    requires f.unit > 0 && forall c :: c in columns ==> RowsFit(f, c.width, c.rows)
    ensures Carries(SheetFill(f, columns, minRect).placed, PiecesIn(columns))
  {
    hide Carries, SheetFill, ColumnFill, BoundMeets;
    if columns == [] {
      NoRowsNoPieces(f, 0, 0, minRect);
    } else {
      var init, c := columns[..|columns|-1], columns[|columns|-1];
      assert c in columns && forall d :: d in init ==> d in columns;
      SheetPieces(f, init, minRect);
      var across := SheetCursor(f, init);
      ColumnPieces(f, across, c.width, c.rows, minRect);
      PlacedOnSheet(f, columns, minRect);
      CarriesConcat(SheetFill(f, init, minRect).placed, PiecesIn(init),
                    ColumnFill(f, across, c.width, c.rows, minRect).placed, PiecesOn(c.rows));
    }
  }

  // ---- back to real units ----------------------------------------------------------------

  lemma SlotsShrink(ps: seq<Placed>, unit: int)
    requires unit > 0
    ensures Shrunk(BoxesOf(ps), BoxesOf(Rounded(ps, unit)))
  {
  }

  /** Whatever the rounding, the pieces and the leftovers reported with them can all be
      cut from the usable part of the sheet with the real blade. */
  lemma LayoutIsSound(columns: seq<BoundColumn>, width: int, height: int, p: Params, unit: int, transposed: bool,
                      minRect: int)
    requires unit > 0
    requires var f := FrameOf(width, height, p, unit, transposed); ValidFrame(f) && ColumnsFit(f, columns)
    ensures var fill := WholeSheet(FrameOf(width, height, p, unit, transposed), columns, minRect);
            Cuttable(UsableBounds(width, height, p), BoxesOf(fill.placed) + fill.remainders, p.kerf)
  {
    hide Frees, Offcuts, PlanOf, SheetFill, SheetCursor, ColumnsFit, Shrunk;
    var f := FrameOf(width, height, p, unit, transposed);
    var fill := WholeSheet(f, columns, minRect);
    var g := Config(f.kerf, 0, 0);
    SheetPieces(f, columns, minRect) by { FitRows(f, columns); }
    assert fill.placed == SheetFill(f, columns, minRect).placed;
    var t := SheetRealizes(f, columns, minRect, g);
    SlotsShrink(fill.placed, unit);
    LegalSolid(fill.placed);
    RoundedLayoutIsSound(t, FrameBounds(f), BoxesOf(Rounded(fill.placed, unit)), f.kerf, UsableBounds(width, height, p),
                         BoxesOf(fill.placed), fill.remainders, p.kerf);
  }

  lemma FitRows(f: Frame, columns: seq<BoundColumn>)
    requires f.unit > 0 && ColumnsFit(f, columns)
    ensures forall c :: c in columns ==> RowsFit(f, c.width, c.rows)
  {
  }

  lemma UpExact(v: int, unit: int)
    requires unit > 0 && v % unit == 0
    ensures Up(v, unit) == v && Down(v, unit) == v
  {
    SameMultiple(CeilDiv(v, unit), v / unit, v, unit);
  }

  lemma SameMultiple(q: int, k: int, v: int, unit: int)
    requires unit > 0 && v == k * unit && v <= q * unit < v + unit
    ensures q == k
  {
    Distribute(q, k, unit);
    NotPositive(q - k, unit);
    NotPositive(k - q, unit);
  }

  lemma Distribute(a: int, b: int, u: int)
    ensures (a - b) * u == a * u - b * u && (b - a) * u == b * u - a * u
  {
  }

  /** Every length of the job is a whole number of units. */
  predicate WholeUnits(placed: seq<Placed>, width: int, height: int, p: Params, unit: int)
    requires unit > 0
  {
    && (width - p.left - p.right) % unit == 0 && (height - p.bottom - p.top) % unit == 0 && p.kerf % unit == 0
    && forall q :: q in placed ==> q.piece.width % unit == 0 && q.piece.height % unit == 0
  }

  /** Without rounding the reported layout itself is the tree's, cut for cut. */
  lemma LayoutIsExact(columns: seq<BoundColumn>, width: int, height: int, p: Params, unit: int, transposed: bool,
                      minRect: int)
    returns (t: GTree)
    requires unit > 0
    requires var f := FrameOf(width, height, p, unit, transposed); ValidFrame(f) && ColumnsFit(f, columns)
    requires WholeUnits(WholeSheet(FrameOf(width, height, p, unit, transposed), columns, minRect).placed, width, height,
                        p, unit)
    ensures Realizes(t, UsableBounds(width, height, p),
                     WholeSheet(FrameOf(width, height, p, unit, transposed), columns, minRect), Config(p.kerf, 0, 0))
  {
    hide Realizes, SheetFill, SheetCursor, ColumnsFit, Up, Down;
    var f := FrameOf(width, height, p, unit, transposed);
    var fill := WholeSheet(f, columns, minRect);
    UpExact(width - p.left - p.right, unit);
    UpExact(height - p.bottom - p.top, unit);
    UpExact(p.kerf, unit);
    SheetPieces(f, columns, minRect) by { FitRows(f, columns); }
    assert fill.placed == SheetFill(f, columns, minRect).placed;
    forall q | q in fill.placed ensures RoundedPlaced(q, unit) == q {
      assert Legal(q);
      UpExact(q.piece.width, unit);
      UpExact(q.piece.height, unit);
    }
    assert Rounded(fill.placed, unit) == fill.placed;
    t := SheetRealizes(f, columns, minRect, Config(f.kerf, 0, 0));
  }

  // ---- reading the solver's columns -------------------------------------------------------

  method ReadRows(counts: seq<seq<nat>>, options: seq<seq<Orientation>>) returns (rows: seq<Row>)
    requires Shaped(counts, options)
    ensures rows == RowsOf(counts, options)
  {
    rows := [];
    for t := 0 to |counts|
      invariant rows == RowsOf(counts[..t], options[..t])
    {
      assert counts[..t+1][..t] == counts[..t] && options[..t+1][..t] == options[..t];
      var kind := [];
      for o := 0 to |options[t]|
        invariant kind == RowsOfKind(counts[t][..o], options[t][..o], t)
      {
        assert counts[t][..o+1][..o] == counts[t][..o] && options[t][..o+1][..o] == options[t][..o];
        kind := kind + Copies(RowOf(options[t][o], t), counts[t][o]);
      }
      assert counts[t][..|options[t]|] == counts[t] && options[t][..|options[t]|] == options[t];
      rows := rows + kind;
    }
    assert counts[..|counts|] == counts && options[..|counts|] == options;
  }

  /** Column after column, the ones that hold nothing left out. */
  method ReadContents(a: seq<Column>, options: seq<seq<Orientation>>) returns (ts: seq<Template>)
    requires AllShaped(a, options)
    ensures ts == MapBy(TemplateOf, Contents(a, options))
  {
    hide TemplateOf, RowsOf;
    ts := [];
    for k := 0 to |a|
      invariant AllShaped(a[..k], options)
      invariant ts == MapBy(TemplateOf, Contents(a[..k], options))
    {
      assert a[..k+1][..k] == a[..k] && a[k] in a;
      var before := Contents(a[..k], options);
      if a[k].inUse {
        var rows := ReadRows(a[k].counts, options);
        if rows != [] {
          assert MapBy(TemplateOf, before + [rows]) == MapBy(TemplateOf, before) + [TemplateOf(rows)];
          ts := ts + [TemplateOf(rows)];
        }
      }
    }
    assert a[..|a|] == a;
  }

  method ReadColumnsInOrder(a: seq<Column>, options: seq<seq<Orientation>>) returns (ts: seq<Template>)
    requires AllShaped(a, options)
    ensures ts == Templates(a, options)
  {
    ts := ReadContents(a, options);
    ts := SortBy(TemplateFirst, ts);
  }

  // ---- laying out --------------------------------------------------------------------------

  /** One column, from the near end on. */
  method LayColumn(f: Frame, across: int, c: BoundColumn, minRect: int) returns (fill: BinFill)
    ensures fill == WholeColumn(f, across, c, minRect)
  {
    hide RowFill, Crosscut, ColumnTail;
    var along := 0;
    fill := NOFILL;
    for i := 0 to |c.rows|
      invariant along == ColumnCursor(f, c.rows[..i])
      invariant fill == ColumnFill(f, across, c.width, c.rows[..i], minRect)
    {
      assert c.rows[..i+1][..i] == c.rows[..i];
      var b := c.rows[i];
      fill := Append(fill, RowFill(f, along, across, c.width, b, minRect));
      along := along + b.row.along;
      fill := Append(fill, BinFill([], [], Crosscut(f, along, across, c.width)));
      if along < f.along {
        along := along + f.kerf;
      }
    }
    assert c.rows[..|c.rows|] == c.rows;
    fill := Append(fill, BinFill([], ColumnTail(f, along, across, c.width, minRect), []));
  }

  method LaySheet(f: Frame, columns: seq<BoundColumn>, minRect: int) returns (fill: BinFill)
    ensures fill == WholeSheet(f, columns, minRect)
  {
    hide WholeColumn, RipCut, SheetTail;
    var across := 0;
    fill := NOFILL;
    for j := 0 to |columns|
      invariant across == SheetCursor(f, columns[..j])
      invariant fill == SheetFill(f, columns[..j], minRect)
    {
      assert columns[..j+1][..j] == columns[..j];
      var column := LayColumn(f, across, columns[j], minRect);
      across := across + columns[j].width;
      fill := Append(Append(fill, column), BinFill([], [], RipCut(f, across)));
      if across < f.across {
        across := across + f.kerf;
      }
    }
    assert columns[..|columns|] == columns;
    fill := Append(fill, BinFill([], SheetTail(f, across, minRect), []));
  }

  // ---- the reconstruction --------------------------------------------------------------------

  /** Turns a solved assignment into placements, cuts and leftovers; no fill when no
      column holds anything. */
  method BuildFill(a: seq<Column>, options: seq<seq<Orientation>>, groups: seq<seq<Piece>>, f: Frame, minRect: int,
                   ghost requireAll: bool)
    returns (fill: Option<BinFill>)
    requires ValidFrame(f) && Grouped(groups) && options == Options(f, groups)
    requires MeetsModel(a, options, groups, f, requireAll)
    ensures TemplatesMeet(Templates(a, options), f, groups)
    ensures fill.None? <==> Templates(a, options) == []
    ensures fill.Some? ==> fill.value == WholeSheet(f, BindColumns(Templates(a, options), groups), minRect)
  {
    hide TemplatesMeet, Templates, WholeSheet, TemplateMeets;
    ModelTemplates(a, options, groups, f, requireAll);
    var templates := ReadColumnsInOrder(a, options);
    assert Enough(AllRows(templates), groups) by { MeetIsEnough(templates, f, groups); }
    var columns := BindInstances(templates, groups);
    if columns == [] {
      return None;
    }
    var laid := LaySheet(f, columns, minRect);
    return Some(laid);
  }

  lemma MeetIsEnough(ts: seq<Template>, f: Frame, groups: seq<seq<Piece>>)
    requires f.unit > 0 && Grouped(groups) && TemplatesMeet(ts, f, groups)
    ensures Enough(AllRows(ts), groups)
  {
  }

  /** Equally good answers of different solver builds come out as one layout: the
      reconstruction of two assignments with the same non-empty contents is the same. */
  lemma ReconstructionIsCanonical(a: seq<Column>, b: seq<Column>, options: seq<seq<Orientation>>,
                                  groups: seq<seq<Piece>>, f: Frame, minRect: int, requireAll: bool)
    requires ValidFrame(f) && Grouped(groups) && options == Options(f, groups)
    requires MeetsModel(a, options, groups, f, requireAll) && MeetsModel(b, options, groups, f, requireAll)
    requires multiset(MapBy(RowMultiset, Contents(a, options))) == multiset(MapBy(RowMultiset, Contents(b, options)))
    ensures Enough(AllRows(Templates(a, options)), groups) && Enough(AllRows(Templates(b, options)), groups)
    ensures WholeSheet(f, BindColumns(Templates(a, options), groups), minRect) ==
            WholeSheet(f, BindColumns(Templates(b, options), groups), minRect)
  {
    hide Templates, TemplateMeets, Options;
    ModelTemplates(a, options, groups, f, requireAll);
    ReadingIsCanonical(a, b, options);
  }

  /** A sheet the saw can make of these pieces, each used at most once. */
  ghost predicate Sound(fill: BinFill, width: int, height: int, p: Params, pool: seq<Piece>, all: bool) {
    && Cuttable(UsableBounds(width, height, p), BoxesOf(fill.placed) + fill.remainders, p.kerf)
    && (forall q :: q in fill.placed ==> Legal(q) && ValidPiece(q.piece))
    && multiset(PiecesOf(fill.placed)) <= multiset(pool)
    && (all ==> multiset(PiecesOf(fill.placed)) == multiset(pool))
  }

  lemma ReconstructionIsSound(ts: seq<Template>, groups: seq<seq<Piece>>, width: int, height: int, p: Params, unit: int,
                              transposed: bool, minRect: int)
    requires unit > 0 && Grouped(groups)
    requires var f := FrameOf(width, height, p, unit, transposed); ValidFrame(f) && TemplatesMeet(ts, f, groups)
    ensures var fill := WholeSheet(FrameOf(width, height, p, unit, transposed), BindColumns(ts, groups), minRect);
            Sound(fill, width, height, p, Flatten(groups),
                  forall t: nat :: t < |groups| ==> CountKind(AllRows(ts), t) == |groups[t]|)
  {
    hide TemplateMeets, RowsFit, SheetFill, SheetCursor, Enough, BindColumns, CountKind, Legal, ValidPiece, Cuttable,
         UsableBounds;
    var f := FrameOf(width, height, p, unit, transposed);
    var columns := BindColumns(ts, groups);
    var fill := WholeSheet(f, columns, minRect);
    BoundColumnsFit(ts, f, groups);
    LayoutIsSound(columns, width, height, p, unit, transposed, minRect);
    SheetPieces(f, columns, minRect);
    assert fill.placed == SheetFill(f, columns, minRect).placed;
    BindingConserves(ts, groups);
  }

  // ---- asking the solver -----------------------------------------------------------------------

  /** Any source of answers. */
  type Solver = (seq<seq<Piece>>, Frame) -> Option<seq<Column>>

  /** Whatever it answers meets the constraints it was given. */
  ghost predicate Honest(solve: Solver, requireAll: bool) {
    forall groups: seq<seq<Piece>>, f: Frame :: ValidFrame(f) && Grouped(groups) && solve(groups, f).Some? ==>
      MeetsModel(solve(groups, f).value, Options(f, groups), groups, f, requireAll)
  }

  /** Whole millimetres when every length is one, otherwise tenths. */
  function UnitFor(usableWidth: int, usableHeight: int, kerf: int, pool: seq<Piece>): (unit: int)
    ensures unit > 0
  {
    if usableWidth % 100 == 0 && usableHeight % 100 == 0 && kerf % 100 == 0
       && (forall q :: q in pool ==> q.width % 100 == 0 && q.height % 100 == 0) then 100
    else 10
  }

  /** The types that may lie in the frame in some way, and no others. */
  function KeepFitting(groups: seq<seq<Piece>>, f: Frame): (r: seq<seq<Piece>>)
    requires f.unit > 0 && Grouped(groups)
    ensures Grouped(r) && |r| <= |groups| && (|r| == |groups| ==> r == groups)
  {
    if groups == [] then []
    else
      var init, last := groups[..|groups|-1], groups[|groups|-1];
      var kept := KeepFitting(init, f);
      if Orientations(f, last[0]) == [] then kept else kept + [last]
  }

  /** A type is dropped only if no allowed way of it fits. */
  lemma {:induction false} KeptAre(groups: seq<seq<Piece>>, f: Frame)
    requires f.unit > 0 && Grouped(groups)
    ensures forall g :: g in KeepFitting(groups, f) <==> g in groups && g != [] && MayLie(f, g[0])
    ensures |KeepFitting(groups, f)| == |groups| <==> forall t :: 0 <= t < |groups| ==> MayLie(f, groups[t][0])
  {
    hide MayLie, KeepFitting;
    KeptNext(groups, f);
    if groups != [] {
      var init, last := groups[..|groups|-1], groups[|groups|-1];
      KeptAre(init, f);
      assert groups == init + [last];
      assert forall t :: 0 <= t < |init| ==> groups[t] == init[t];
    }
  }

  lemma KeptNext(groups: seq<seq<Piece>>, f: Frame)
    requires f.unit > 0 && Grouped(groups)
    ensures groups == [] ==> KeepFitting(groups, f) == []
    ensures groups != [] ==>
              var init, last := groups[..|groups|-1], groups[|groups|-1];
              && last != []
              && KeepFitting(groups, f) == KeepFitting(init, f) + if MayLie(f, last[0]) then [last] else []
  {
    hide Orientations, MayLie;
  }

  lemma {:induction false} KeptPieces(groups: seq<seq<Piece>>, f: Frame)
    requires f.unit > 0 && Grouped(groups)
    ensures multiset(Flatten(KeepFitting(groups, f))) <= multiset(Flatten(groups))
  {
    hide Orientations;
    if groups != [] {
      var init, last := groups[..|groups|-1], groups[|groups|-1];
      KeptPieces(init, f);
      var kept := KeepFitting(init, f);
      assert (kept + [last])[..|kept|] == kept;
    }
  }

  /** The model is not asked for these pieces, or has no answer. */
  ghost predicate Unsolved(groups: seq<seq<Piece>>, width: int, height: int, p: Params, transposed: bool, solve: Solver)
    requires Grouped(groups)
  {
    var f := FrameOf(width, height, p, UnitFor(width - p.left - p.right, height - p.bottom - p.top, p.kerf,
                                               Flatten(groups)), transposed);
    || groups == [] || !ValidFrame(f) || (exists t :: 0 <= t < |groups| && !MayLie(f, groups[t][0]))
    || solve(groups, f).None?
  }

  /** The model is not asked for any of these pieces, has no answer, or one with nothing on
      the sheet. */
  ghost predicate Unfilled(groups: seq<seq<Piece>>, width: int, height: int, p: Params, transposed: bool, solve: Solver)
    requires Grouped(groups) && Honest(solve, false)
  {
    var f := FrameOf(width, height, p, UnitFor(width - p.left - p.right, height - p.bottom - p.top, p.kerf,
                                               Flatten(groups)), transposed);
    || !ValidFrame(f) || (forall t :: 0 <= t < |groups| ==> !MayLie(f, groups[t][0]))
    || var fitting := KeepFitting(groups, f);
       || solve(fitting, f).None?
       || (MeetsShaped(solve(fitting, f).value, fitting, f, false);
           Templates(solve(fitting, f).value, Options(f, fitting)) == [])
  }

  /** A solver that finds an answer whenever there is one. */
  ghost predicate CompleteSolver(solve: Solver, requireAll: bool) {
    forall groups: seq<seq<Piece>>, f: Frame :: RoundsUp(f) && Grouped(groups) && solve(groups, f).None? ==>
      forall a :: !MeetsModel(a, Options(f, groups), groups, f, requireAll)
  }

  /** No layout in columns of rows holds all the pieces. */
  ghost predicate NoPattern(f: Frame, groups: seq<seq<Piece>>)
    requires f.unit > 0 && Grouped(groups)
  {
    forall ts :: !IsPattern(ts, f, groups, true)
  }

  lemma AnsweredIff(groups: seq<seq<Piece>>, f: Frame, solve: Solver)
    requires Grouped(groups) && Honest(solve, true) && CompleteSolver(solve, true) && ValidFrame(f) && !f.truncates
    ensures solve(groups, f).None? <==> NoPattern(f, groups)
  {
    hide IsPattern, MeetsModel, Options, Grouped;
    ModelIsExact(f, groups, true);
    if solve(groups, f).Some? {
      assert MeetsModel(solve(groups, f).value, Options(f, groups), groups, f, true);
    }
  }

  /** With such a solver the question is left unsolved exactly when no layout in columns of
      rows holds all the pieces. */
  lemma UnsolvedIff(groups: seq<seq<Piece>>, width: int, height: int, p: Params, transposed: bool, solve: Solver)
    requires Grouped(groups) && Honest(solve, true) && CompleteSolver(solve, true)
    ensures var f := FrameOf(width, height, p, UnitFor(width - p.left - p.right, height - p.bottom - p.top, p.kerf,
                                                       Flatten(groups)), transposed);
            Unsolved(groups, width, height, p, transposed, solve) <==>
            groups == [] || !ValidFrame(f) || NoPattern(f, groups)
  {
    hide NoPattern, UnitFor, MayLie, ValidFrame, Honest, CompleteSolver;
    var f := FrameOf(width, height, p, UnitFor(width - p.left - p.right, height - p.bottom - p.top, p.kerf,
                                               Flatten(groups)), transposed);
    if groups != [] && ValidFrame(f) {
      AnsweredIff(groups, f, solve);
      if t :| 0 <= t < |groups| && !MayLie(f, groups[t][0]) {
        NoneLies(f, groups, t);
      }
    }
  }

  lemma NoneLies(f: Frame, groups: seq<seq<Piece>>, t: nat)
    requires ValidFrame(f) && Grouped(groups) && t < |groups| && !MayLie(f, groups[t][0])
    ensures NoPattern(f, groups)
  {
    hide IsPattern, MayLie, Grouped;
    forall ts ensures !IsPattern(ts, f, groups, true) {
      if IsPattern(ts, f, groups, true) { AllMayLie(ts, f, groups, t); }
    }
  }

  lemma SomethingRead(ts: seq<Template>, groups: seq<seq<Piece>>)
    requires Grouped(groups) && groups != []
    requires forall t: nat :: t < |groups| ==> CountKind(AllRows(ts), t) == |groups[t]|
    ensures ts != []
  {
    assert groups[0] in groups;
    assert CountKind([], 0) == 0;
  }

  /** One bin packed by the column model: a fill whenever the model has an answer with
      something on the sheet. */
  method SolveBin(groups: seq<seq<Piece>>, width: int, height: int, p: Params, requireAll: bool, transposed: bool,
                  minRect: int, solve: Solver) returns (fill: Option<BinFill>)
    requires Grouped(groups) && Honest(solve, requireAll)
    ensures fill.Some? ==> Sound(fill.value, width, height, p, Flatten(groups), requireAll)
    ensures requireAll ==> (fill.None? <==> Unsolved(groups, width, height, p, transposed, solve))
    ensures !requireAll ==> (fill.None? <==> Unfilled(groups, width, height, p, transposed, solve))
  {
    hide Sound, TemplatesMeet, Templates, WholeSheet, MeetsModel, Orientations, UnitFor, CountKind, AllRows,
         KeepFitting, MayLie, SlotFor;
    if groups == [] { return None; }
    var unit := UnitFor(width - p.left - p.right, height - p.bottom - p.top, p.kerf, Flatten(groups));
    var f := FrameOf(width, height, p, unit, transposed);
    if !ValidFrame(f) { return None; }
    var fitting := KeepFitting(groups, f);
    KeptPieces(groups, f);
    KeptAre(groups, f);
    if |fitting| < |groups| && (requireAll || fitting == []) { return None; }
    var answer := solve(fitting, f);
    if answer.None? { return None; }
    fill := BuildFill(answer.value, Options(f, fitting), fitting, f, minRect, requireAll);
    MeetsShaped(answer.value, fitting, f, requireAll);
    if requireAll { AllIsRead(answer.value, fitting, f); }
    if fill.Some? {
      BuiltIsSound(answer.value, fitting, groups, width, height, p, unit, transposed, minRect, requireAll);
    }
  }

  lemma AllIsRead(a: seq<Column>, groups: seq<seq<Piece>>, f: Frame)
    requires ValidFrame(f) && Grouped(groups) && groups != [] && MeetsModel(a, Options(f, groups), groups, f, true)
    ensures AllShaped(a, Options(f, groups)) && Templates(a, Options(f, groups)) != []
  {
    hide TemplatesMeet, Templates, MeetsModel, CountKind, AllRows;
    MeetsShaped(a, groups, f, true);
    ModelTemplates(a, Options(f, groups), groups, f, true);
    SomethingRead(Templates(a, Options(f, groups)), groups);
  }

  lemma BuiltIsSound(a: seq<Column>, kept: seq<seq<Piece>>, groups: seq<seq<Piece>>, width: int, height: int, p: Params,
                     unit: int, transposed: bool, minRect: int, all: bool)
    requires unit > 0 && ValidFrame(FrameOf(width, height, p, unit, transposed)) && Grouped(kept) && Grouped(groups)
    requires var f := FrameOf(width, height, p, unit, transposed); MeetsModel(a, Options(f, kept), kept, f, all)
    requires multiset(Flatten(kept)) <= multiset(Flatten(groups)) && (all ==> kept == groups)
    ensures var f := FrameOf(width, height, p, unit, transposed);
            && AllShaped(a, Options(f, kept)) && Enough(AllRows(Templates(a, Options(f, kept))), kept)
            && Sound(WholeSheet(f, BindColumns(Templates(a, Options(f, kept)), kept), minRect), width, height, p,
                     Flatten(groups), all)
  {
    hide Sound, Templates, WholeSheet, MeetsModel, CountKind, AllRows, TemplateMeets, Options, ValidFrame;
    var f := FrameOf(width, height, p, unit, transposed);
    MeetsShaped(a, kept, f, all);
    ModelTemplates(a, Options(f, kept), kept, f, all);
    var ts := Templates(a, Options(f, kept));
    ReconstructionIsSound(ts, kept, width, height, p, unit, transposed, minRect);
    StillSound(WholeSheet(f, BindColumns(ts, kept), minRect), width, height, p, Flatten(kept), Flatten(groups), all);
  }

  lemma MeetsShaped(a: seq<Column>, groups: seq<seq<Piece>>, f: Frame, requireAll: bool)
    requires f.unit > 0 && Grouped(groups) && MeetsModel(a, Options(f, groups), groups, f, requireAll)
    ensures AllShaped(a, Options(f, groups))
  {
  }

  lemma StillSound(fill: BinFill, width: int, height: int, p: Params, pool: seq<Piece>, pool': seq<Piece>, all: bool)
    requires Sound(fill, width, height, p, pool, all) || (!all && Sound(fill, width, height, p, pool, true))
    requires multiset(pool) <= multiset(pool') && (all ==> pool == pool')
    ensures Sound(fill, width, height, p, pool', all)
  {
    hide Cuttable;
  }

  lemma AllPlaced(fill: BinFill, width: int, height: int, p: Params, pool: seq<Piece>)
    requires Sound(fill, width, height, p, pool, true)
    ensures |fill.placed| == |pool|
  {
    hide Cuttable;
    NothingElse(PiecesOf(fill.placed), pool);
  }

  /** Does the whole pool close in one sheet? Both first-stage directions are tried; it
      is given up only when neither has an answer. */
  method FitsOneBin(groups: seq<seq<Piece>>, width: int, height: int, p: Params, minRect: int, solve: Solver)
    returns (fill: Option<BinFill>)
    requires Grouped(groups) && Honest(solve, true)
    ensures fill.Some? ==> Sound(fill.value, width, height, p, Flatten(groups), true)
    ensures fill.None? <==>
            Unsolved(groups, width, height, p, false, solve) && Unsolved(groups, width, height, p, true, solve)
  {
    hide Sound, Unsolved;
    fill := SolveBin(groups, width, height, p, true, false, minRect, solve);
    if fill.Some? { AllPlaced(fill.value, width, height, p, Flatten(groups)); }
    if fill.Some? && |fill.value.placed| == |Flatten(groups)| { return; }
    fill := SolveBin(groups, width, height, p, true, true, minRect, solve);
    if fill.Some? { AllPlaced(fill.value, width, height, p, Flatten(groups)); }
    if fill.Some? && |fill.value.placed| == |Flatten(groups)| { return; }
    return None;
  }
}
