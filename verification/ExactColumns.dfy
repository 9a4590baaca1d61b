/**
What the constraints of exact.py say of the columns as they are read back: rows of
allowed orientations, within the length and the width, and no piece type overdrawn.
*/
module ExactColumns {
  import opened Geometry
  import opened Sequences
  import opened Sheets
  import opened Strips
  import opened ExactModel

  // ---- what the constraints say of the templates ------------------------------------

  /** A row holds a piece of its type in one of the type's orientations. */
  predicate RowMeets(r: Row, f: Frame, groups: seq<seq<Piece>>)
    requires f.unit > 0 && Grouped(groups)
  {
    && r.kind < |groups|
    && r == RowOf(SlotFor(f, groups[r.kind][0], r.rotated), r.kind)
    && (r.rotated ==> groups[r.kind][0].canRotate)
  }

  predicate TemplateMeets(t: Template, f: Frame, groups: seq<seq<Piece>>)
    requires f.unit > 0 && Grouped(groups)
  {
    && t.rows != [] && Least(f) <= t.width
    && (forall r :: r in t.rows ==> RowMeets(r, f, groups) && r.across <= t.width)
    && SumBy(Pitch(f.kerf), t.rows) <= f.along + f.kerf
  }

  function AllRows(ts: seq<Template>): seq<Row> {
    if ts == [] then [] else AllRows(ts[..|ts|-1]) + ts[|ts|-1].rows
  }

  function Rip(kerf: nat): Template -> int {
    (t: Template) => t.width + kerf
  }

  function KindIn(kind: nat): Template -> int {
    (t: Template) => CountKind(t.rows, kind)
  }

  lemma {:induction false} AllRowsCount(ts: seq<Template>, kind: nat)
    ensures CountKind(AllRows(ts), kind) == SumBy(KindIn(kind), ts)
  {
    if ts != [] {
      AllRowsCount(ts[..|ts|-1], kind);
      SumByConcat(OfKind(kind), AllRows(ts[..|ts|-1]), ts[|ts|-1].rows);
    }
  }

  lemma ClosedIsEmpty(c: Column, options: seq<seq<Orientation>>, f: Frame)
    requires ColumnMeets(c, options, f) && !c.inUse
    ensures RowsOf(c.counts, options) == []
  {
    var rows := RowsOf(c.counts, options);
    if rows != [] {
      var o := RowFrom(c.counts, options, rows[0]);
    }
  }

  lemma TemplateOfColumn(c: Column, options: seq<seq<Orientation>>, f: Frame, groups: seq<seq<Piece>>)
    requires ColumnMeets(c, options, f) && f.unit > 0 && Grouped(groups) && options == Options(f, groups)
    requires RowsOf(c.counts, options) != []
    ensures var t := TemplateOf(RowsOf(c.counts, options));
            TemplateMeets(t, f, groups) && t.width <= c.width
  {
    hide RowMeets, Stacked, ColumnMeets, SumBy, RowsOf, SortBy, MaxAcross, Options;
    ColumnLength(c, options, f);
    var rows := RowsOf(c.counts, options);
    var t := TemplateOf(rows);
    forall r | r in rows
      ensures RowMeets(r, f, groups) && Least(f) <= r.across <= c.width { RowOfColumn(c, options, f, groups, r); }
    forall r | r in t.rows ensures r in rows { assert r in multiset(rows); }
    SumByPermuted(Pitch(f.kerf), t.rows, rows);
    MaxAcrossAttained(rows);
    assert rows[0] in rows;
    NothingElse(t.rows, rows);
  }

  lemma RowOfColumn(c: Column, options: seq<seq<Orientation>>, f: Frame, groups: seq<seq<Piece>>, r: Row)
    requires ColumnMeets(c, options, f) && f.unit > 0 && Grouped(groups) && options == Options(f, groups)
    requires r in RowsOf(c.counts, options)
    ensures RowMeets(r, f, groups) && Least(f) <= r.across <= c.width
  {
    hide Stacked, RowsOf;
    var o := RowFrom(c.counts, options, r);
    assert options[r.kind][o] in options[r.kind];
    assert groups[r.kind][0] in groups[r.kind];
  }

  lemma ColumnLength(c: Column, options: seq<seq<Orientation>>, f: Frame)
    requires ColumnMeets(c, options, f)
    ensures Shaped(c.counts, options) && SumBy(Pitch(f.kerf), RowsOf(c.counts, options)) <= f.along + f.kerf
  {
    RowSums(c.counts, options, f.kerf, 0);
  }

  lemma {:induction false} ContentsMeet(a: seq<Column>, options: seq<seq<Orientation>>, f: Frame,
                                        groups: seq<seq<Piece>>, kind: nat)
    requires AllMeet(a, options, f)
    requires f.unit > 0 && Grouped(groups) && options == Options(f, groups) && kind < |groups|
    ensures var ts := MapBy(TemplateOf, Contents(a, options));
            && (forall t :: t in ts ==> TemplateMeets(t, f, groups))
            && SumBy(Rip(f.kerf), ts) <= SumBy(Ripped(f.kerf), a)
            && SumBy(KindIn(kind), ts) == SumBy(OfType(kind), a)
  {
    hide TemplateMeets, TemplateOf, ColumnMeets, Options, MapBy, Contents, RowsOf, Ripped, Rip, KindIn, OfType,
         RowMeets;
    if a == [] {
      NoContents(options);
    } else {
      var init, c := a[..|a|-1], a[|a|-1];
      assert c in a && forall d :: d in init ==> d in a;
      assert AllMeet(init, options, f);
      ContentsMeet(init, options, f, groups, kind);
      ColumnCounts(c, options, f, kind);
      OneMoreColumn(a, options, f, groups);
      var ts := MapBy(TemplateOf, Contents(init, options));
      var rows := RowsOf(c.counts, options);
      if c.inUse && rows != [] {
        SumByLast(Rip(f.kerf), ts, TemplateOf(rows));
        SumByLast(KindIn(kind), ts, TemplateOf(rows));
        assert Rip(f.kerf)(TemplateOf(rows)) <= Ripped(f.kerf)(c) by { WiderThan(c, TemplateOf(rows), f.kerf); }
        KindInIs(TemplateOf(rows), kind);
      }
    }
  }

  lemma NoContents(options: seq<seq<Orientation>>)
    ensures MapBy(TemplateOf, Contents([], options)) == []
  {
  }

  lemma KindInIs(t: Template, kind: nat)
    ensures KindIn(kind)(t) == CountKind(t.rows, kind)
  {
  }

  lemma WiderThan(c: Column, t: Template, kerf: nat)
    requires t.width <= c.width && c.inUse
    ensures Rip(kerf)(t) <= Ripped(kerf)(c)
  {
  }

  lemma ColumnWide(c: Column, options: seq<seq<Orientation>>, f: Frame)
    requires ColumnMeets(c, options, f)
    ensures Shaped(c.counts, options) && c.width >= 0
  {
  }

  lemma ContentsLast(a: seq<Column>, options: seq<seq<Orientation>>)
    requires a != [] && AllShaped(a, options) && AllShaped(a[..|a|-1], options)
    ensures var c, X := a[|a|-1], Contents(a[..|a|-1], options);
            && Shaped(c.counts, options)
            && var rows := RowsOf(c.counts, options);
               Contents(a, options) == if c.inUse && rows != [] then X + [rows] else X
  {
    hide RowsOf, Shaped;
    assert a[|a|-1] in a;
  }

  lemma OneMoreColumn(a: seq<Column>, options: seq<seq<Orientation>>, f: Frame, groups: seq<seq<Piece>>)
    requires a != [] && AllMeet(a, options, f) && AllShaped(a[..|a|-1], options)
    requires f.unit > 0 && Grouped(groups) && options == Options(f, groups)
    ensures var c, ts := a[|a|-1], MapBy(TemplateOf, Contents(a[..|a|-1], options));
            var rows := RowsOf(c.counts, options);
            if c.inUse && rows != [] then
              && MapBy(TemplateOf, Contents(a, options)) == ts + [TemplateOf(rows)]
              && TemplateMeets(TemplateOf(rows), f, groups) && TemplateOf(rows).width <= c.width
            else MapBy(TemplateOf, Contents(a, options)) == ts && Ripped(f.kerf)(c) >= 0
  {
    hide TemplateMeets, TemplateOf, Options, MapBy, ColumnMeets, RowsOf, Contents;
    var c := a[|a|-1];
    assert ColumnMeets(c, options, f);
    ContentsLast(a, options);
    ColumnWide(c, options, f);
    var rows := RowsOf(c.counts, options);
    if c.inUse && rows != [] {
      TemplateOfColumn(c, options, f, groups);
      var X := Contents(a[..|a|-1], options);
      MapByConcat(TemplateOf, X, [rows]);
      assert MapBy(TemplateOf, [rows]) == [TemplateOf(rows)];
    }
  }

  lemma ColumnCounts(c: Column, options: seq<seq<Orientation>>, f: Frame, kind: nat)
    requires ColumnMeets(c, options, f) && kind < |options|
    ensures c.width >= 0
    ensures var rows := RowsOf(c.counts, options);
            && OfType(kind)(c) == CountKind(TemplateOf(rows).rows, kind)
            && (!c.inUse || rows == [] ==> OfType(kind)(c) == 0)
  {
    var rows := RowsOf(c.counts, options);
    RowSums(c.counts, options, f.kerf, kind);
    SumByPermuted(OfKind(kind), TemplateOf(rows).rows, rows);
    if !c.inUse { ClosedIsEmpty(c, options, f); }
  }

  /** Enough pieces of every type for the rows, and types for all of them. */
  ghost predicate Enough(rows: seq<Row>, groups: seq<seq<Piece>>) {
    && (forall r :: r in rows ==> r.kind < |groups|)
    && (forall t: nat :: t < |groups| ==> CountKind(rows, t) <= |groups[t]|)
  }

  /** What the constraints say, in terms of the columns as read back. */
  ghost predicate TemplatesMeet(ts: seq<Template>, f: Frame, groups: seq<seq<Piece>>)
    requires f.unit > 0 && Grouped(groups)
  {
    && (forall t :: t in ts ==> TemplateMeets(t, f, groups))
    && SumBy(Rip(f.kerf), ts) <= f.across + f.kerf
    && Enough(AllRows(ts), groups)
  }

  lemma {:induction false} AllRowsFrom(ts: seq<Template>, f: Frame, groups: seq<seq<Piece>>, r: Row)
    requires f.unit > 0 && Grouped(groups)
    requires r in AllRows(ts) && forall t :: t in ts ==> TemplateMeets(t, f, groups)
    ensures r.kind < |groups|
  {
    var init, last := ts[..|ts|-1], ts[|ts|-1];
    assert last in ts && forall t :: t in init ==> t in ts;
    if r in AllRows(init) { AllRowsFrom(init, f, groups, r); }
  }

  lemma ReadCounts(a: seq<Column>, options: seq<seq<Orientation>>, groups: seq<seq<Piece>>, f: Frame, kind: nat)
    requires f.unit > 0 && Grouped(groups) && options == Options(f, groups) && AllMeet(a, options, f) && kind < |groups|
    ensures CountKind(AllRows(Templates(a, options)), kind) == SumBy(OfType(kind), a)
  {
    hide TemplateMeets, AllMeet, TemplateFirst, Options, TemplateOf, Contents, CountKind, SortBy, AllRows, MapBy, SumBy;
    var ts, sorted := MapBy(TemplateOf, Contents(a, options)), Templates(a, options);
    ContentsMeet(a, options, f, groups, kind);
    AllRowsCount(sorted, kind);
    SumByPermuted(KindIn(kind), sorted, ts);
  }

  lemma ReadColumns(a: seq<Column>, options: seq<seq<Orientation>>, groups: seq<seq<Piece>>, f: Frame)
    requires f.unit > 0 && Grouped(groups) && options == Options(f, groups) && AllMeet(a, options, f)
    ensures SumBy(Rip(f.kerf), Templates(a, options)) <= SumBy(Ripped(f.kerf), a) || groups == []
    ensures forall t :: t in Templates(a, options) ==> TemplateMeets(t, f, groups)
    ensures groups == [] ==> Templates(a, options) == []
  {
    hide TemplateMeets, AllMeet, TemplateFirst, TemplateOf, Contents, SortBy, MapBy, SumBy;
    var ts, sorted := MapBy(TemplateOf, Contents(a, options)), Templates(a, options);
    if groups == [] { NothingToRead(a, options, f); } else { ContentsMeet(a, options, f, groups, 0); }
    SumByPermuted(Rip(f.kerf), sorted, ts);
    forall t | t in sorted ensures TemplateMeets(t, f, groups) { assert t in multiset(ts); }
  }

  lemma ModelTemplates(a: seq<Column>, options: seq<seq<Orientation>>, groups: seq<seq<Piece>>, f: Frame,
                       requireAll: bool)
    requires ValidFrame(f) && Grouped(groups) && options == Options(f, groups)
    requires MeetsModel(a, options, groups, f, requireAll)
    ensures TemplatesMeet(Templates(a, options), f, groups)
    ensures requireAll ==> forall t: nat :: t < |groups| ==> CountKind(AllRows(Templates(a, options)), t) == |groups[t]|
  {
    hide TemplateMeets, AllMeet, Options, Templates, CountKind, AllRows, Slots;
    var ts := Templates(a, options);
    forall t: nat | t < |groups| ensures CountKind(AllRows(ts), t) == SumBy(OfType(t), a) {
      ReadCounts(a, options, groups, f, t);
    }
    ReadColumns(a, options, groups, f);
    forall r | r in AllRows(ts) ensures r.kind < |groups| { AllRowsFrom(ts, f, groups, r); }
  }

  lemma {:induction false} NothingToRead(a: seq<Column>, options: seq<seq<Orientation>>, f: Frame)
    requires AllMeet(a, options, f) && options == []
    ensures MapBy(TemplateOf, Contents(a, options)) == []
  {
    if a != [] {
      assert a[|a|-1] in a;
      NothingToRead(a[..|a|-1], options, f);
    }
  }
}
