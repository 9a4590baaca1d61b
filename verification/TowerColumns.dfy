/**
What the constraints of exact3.py say of the columns as they are read back.
*/
module TowerColumns {
  import opened Geometry
  import opened Sequences
  import opened Sheets
  import opened Strips
  import opened ExactModel
  import opened ExactColumns
  import opened TowerLayout
  import opened TowerModel

  function AllStrips(ts: seq<TowerTemplate>): seq<Template> {
    if ts == [] then [] else AllStrips(ts[..|ts|-1]) + ts[|ts|-1].strips
  }

  /** A column's strips hold allowed rows, reach no further than its width, and stack
      up to its length. */
  ghost predicate TowerMeets(t: TowerTemplate, f: Frame, groups: seq<seq<Piece>>)
    requires f.unit > 0 && Grouped(groups)
  {
    && Least(f) <= t.width && t.strips != []
    && (forall s :: s in t.strips ==> TemplateMeets(s, StripFrame(f), groups) && Span(f.kerf, s) <= t.width)
    && SumBy(Rip(f.kerf), t.strips) <= f.along + f.kerf
  }

  function TowerRip(kerf: nat): TowerTemplate -> int {
    (t: TowerTemplate) => t.width + kerf
  }

  function KindInTower(kind: nat): TowerTemplate -> int {
    (t: TowerTemplate) => SumBy(KindIn(kind), t.strips)
  }

  lemma {:induction false} ContentsFrom(a: seq<Column>, options: seq<seq<Orientation>>, rows: seq<Row>)
    returns (c: Column)
    requires AllShaped(a, options) && rows in Contents(a, options)
    ensures c in a && c.inUse && rows == RowsOf(c.counts, options)
  {
    var init, last := a[..|a|-1], a[|a|-1];
    assert last in a && forall d :: d in init ==> d in a;
    if rows in Contents(init, options) { c := ContentsFrom(init, options, rows); } else { c := last; }
  }

  lemma SpanIsStacked(rows: seq<Row>, counts: seq<seq<nat>>, options: seq<seq<Orientation>>, kerf: nat)
    requires Shaped(counts, options) && rows == RowsOf(counts, options)
    ensures Span(kerf, TemplateOf(rows)) == Stacked(counts, options, kerf) - kerf
  {
    RowSums(counts, options, kerf, 0);
    SumByPermuted(Pitch(kerf), TemplateOf(rows).rows, rows);
  }

  /** The strips of one column reach no further than the width it declares. */
  lemma SpansWithin(p: Pile, options: seq<seq<Orientation>>, f: Frame)
    requires PileMeets(p, options, f)
    ensures var ts := MapBy(TemplateOf, Contents(p.rows, options));
            MaxSpan(f.kerf, ts) <= p.width
  {
    hide Span, TemplateOf, Stacked, Contents, RowsOf, SumBy, AllMeet;
    var contents := Contents(p.rows, options);
    var ts := MapBy(TemplateOf, contents);
    MaxSpanAttained(f.kerf, ts);
    if MaxSpan(f.kerf, ts) > 0 {
      var t :| t in ts && Span(f.kerf, t) == MaxSpan(f.kerf, ts);
      var i :| 0 <= i < |ts| && ts[i] == t;
      assert contents[i] in contents;
      var c := ContentsFrom(p.rows, options, contents[i]);
      SpanIsStacked(contents[i], c.counts, options, f.kerf);
    }
  }

  lemma {:induction false} PitchPositive(rows: seq<Row>, kerf: nat)
    requires forall r :: r in rows ==> r.along > 0
    ensures SumBy(Pitch(kerf), rows) >= |rows| * kerf && (rows != [] ==> SumBy(Pitch(kerf), rows) > kerf)
  {
    if rows != [] {
      var n := |rows| - 1;
      PitchPositive(rows[..n], kerf);
      assert rows[n] in rows;
      MoreBlades(n, kerf);
    }
  }

  lemma MoreBlades(n: nat, kerf: nat)
    ensures (n + 1) * kerf == n * kerf + kerf && n * kerf >= 0
  {
  }

  lemma RowsPositive(t: Template, f: Frame, groups: seq<seq<Piece>>)
    requires f.unit > 0 && !f.truncates && Grouped(groups) && TemplateMeets(t, f, groups)
    ensures t.rows != [] && forall r :: r in t.rows ==> r.along > 0
  {
    forall r | r in t.rows ensures r.along > 0 {
      assert RowMeets(r, f, groups);
      assert groups[r.kind][0] in groups[r.kind];
    }
  }

  lemma SpanPositive(t: Template, f: Frame, groups: seq<seq<Piece>>, kerf: nat)
    requires f.unit > 0 && !f.truncates && Grouped(groups) && TemplateMeets(t, f, groups)
    ensures Span(kerf, t) > 0
  {
    RowsPositive(t, f, groups);
    PitchPositive(t.rows, kerf);
  }

  lemma TowerSums(kerf: nat, contents: seq<seq<Row>>, kind: nat)
    ensures var t, ts := TowerOf(kerf)(contents), MapBy(TemplateOf, contents);
            && t.width == MaxSpan(kerf, ts) && (forall s :: s in t.strips <==> s in ts) && |ts| == |contents|
            && SumBy(Rip(kerf), t.strips) == SumBy(Rip(kerf), ts)
            && KindInTower(kind)(t) == SumBy(KindIn(kind), ts)
  {
    hide StripFirst, TemplateOf, Span, SumBy, MapBy;
    var t, ts := TowerOf(kerf)(contents), MapBy(TemplateOf, contents);
    assert multiset(t.strips) == multiset(ts);
    SumByPermuted(Rip(kerf), t.strips, ts);
    SumByPermuted(KindIn(kind), t.strips, ts);
    forall s ensures s in t.strips <==> s in ts { assert s in multiset(ts) <==> s in multiset(t.strips); }
  }

  /** One column of the assignment, read back. */
  lemma PileTower(p: Pile, options: seq<seq<Orientation>>, f: Frame, groups: seq<seq<Piece>>, kind: nat)
    requires f.unit > 0 && Grouped(groups) && options == Options(StripFrame(f), groups) && kind < |groups|
    requires PileMeets(p, options, f)
    ensures var contents := Contents(p.rows, options);
            var t := TowerOf(f.kerf)(contents);
            && (contents != [] ==> TowerMeets(t, f, groups) && t.width <= p.width && p.inUse)
            && (contents == [] ==> KindInTower(kind)(t) == 0)
            && KindInTower(kind)(t) == PileType(kind)(p)
  {
    hide TowerOf, TemplateMeets, TemplateOf, Span, Contents, RowsOf, AllMeet, Options, Rip, Ripped, KindIn, OfType,
         Stacked, KindInTower, SumBy;
    var contents := Contents(p.rows, options);
    var ts := MapBy(TemplateOf, contents);
    ContentsMeet(p.rows, options, StripFrame(f), groups, kind);
    TowerSums(f.kerf, contents, kind);
    SpansWithin(p, options, f);
    MaxSpanAttained(f.kerf, ts);
    if contents != [] {
      assert ts[0] in ts;
      if !f.truncates { SpanPositive(ts[0], StripFrame(f), groups, f.kerf); }
      var c := ContentsFrom(p.rows, options, contents[0]);
    } else {
      NoStrips(kind);
    }
  }

  lemma NoStrips(kind: nat)
    ensures SumBy(KindIn(kind), MapBy(TemplateOf, [])) == 0
  {
  }

  lemma OneMorePile(piles: seq<Pile>, options: seq<seq<Orientation>>, kerf: nat)
    requires piles != [] && forall p :: p in piles ==> AllShaped(p.rows, options)
    ensures forall p :: p in piles[..|piles|-1] ==> AllShaped(p.rows, options)
    ensures AllShaped(piles[|piles|-1].rows, options)
    ensures var p, ts := piles[|piles|-1], MapBy(TowerOf(kerf), PileContents(piles[..|piles|-1], options));
            MapBy(TowerOf(kerf), PileContents(piles, options)) ==
            if p.inUse && Contents(p.rows, options) != [] then ts + [TowerOf(kerf)(Contents(p.rows, options))] else ts
  {
    hide TowerOf, Contents, AllShaped, MapBy;
    var p := piles[|piles|-1];
    assert p in piles && forall q :: q in piles[..|piles|-1] ==> q in piles;
    var before := PileContents(piles[..|piles|-1], options);
    if p.inUse && Contents(p.rows, options) != [] {
      assert PileContents(piles, options) == before + [Contents(p.rows, options)];
      MapByConcat(TowerOf(kerf), before, [Contents(p.rows, options)]);
      assert MapBy(TowerOf(kerf), [Contents(p.rows, options)]) == [TowerOf(kerf)(Contents(p.rows, options))];
    } else {
      assert PileContents(piles, options) == before;
    }
  }

  lemma PilesShaped(piles: seq<Pile>, options: seq<seq<Orientation>>, f: Frame)
    requires forall p :: p in piles ==> PileMeets(p, options, f)
    ensures forall p :: p in piles ==> AllShaped(p.rows, options)
  {
  }

  lemma {:induction false} PilesMeet(piles: seq<Pile>, options: seq<seq<Orientation>>, f: Frame,
                                     groups: seq<seq<Piece>>, kind: nat)
    requires f.unit > 0 && Grouped(groups) && options == Options(StripFrame(f), groups) && kind < |groups|
    requires forall p :: p in piles ==> PileMeets(p, options, f)
    ensures forall p :: p in piles ==> AllShaped(p.rows, options)
    ensures var ts := MapBy(TowerOf(f.kerf), PileContents(piles, options));
            && (forall t :: t in ts ==> TowerMeets(t, f, groups))
            && SumBy(TowerRip(f.kerf), ts) <= SumBy(PileRip(f.kerf), piles)
            && SumBy(KindInTower(kind), ts) == SumBy(PileType(kind), piles)
  {
    hide TowerOf, PileContents, TowerMeets, PileMeets, MapBy, Contents, Options, AllShaped, KindInTower, PileType;
    PilesShaped(piles, options, f);
    if piles == [] {
      NoPiles(options, f.kerf);
    } else {
      var init, p := piles[..|piles|-1], piles[|piles|-1];
      assert p in piles && forall q :: q in init ==> q in piles;
      PilesMeet(init, options, f, groups, kind);
      OneMorePile(piles, options, f.kerf);
      PileTower(p, options, f, groups, kind);
      var ts, t := MapBy(TowerOf(f.kerf), PileContents(init, options)), TowerOf(f.kerf)(Contents(p.rows, options));
      SumByLast(TowerRip(f.kerf), ts, t);
      SumByLast(KindInTower(kind), ts, t);
      assert PileRip(f.kerf)(p) >= 0 by { PileWide(p, options, f); }
    }
  }

  lemma PileWide(p: Pile, options: seq<seq<Orientation>>, f: Frame)
    requires PileMeets(p, options, f)
    ensures PileRip(f.kerf)(p) >= 0
  {
  }

  lemma NoPiles(options: seq<seq<Orientation>>, kerf: nat)
    ensures MapBy(TowerOf(kerf), PileContents([], options)) == []
  {
  }

  /** The columns of one bin, read back. */
  ghost predicate BinTowers(ts: seq<TowerTemplate>, f: Frame, groups: seq<seq<Piece>>)
    requires f.unit > 0 && Grouped(groups)
  {
    (forall t :: t in ts ==> TowerMeets(t, f, groups)) && SumBy(TowerRip(f.kerf), ts) <= f.across + f.kerf
  }

  lemma BinIsRead(piles: seq<Pile>, options: seq<seq<Orientation>>, f: Frame, groups: seq<seq<Piece>>, kind: nat)
    requires f.unit > 0 && Grouped(groups) && options == Options(StripFrame(f), groups) && kind < |groups|
    requires BinMeets(piles, options, f)
    ensures forall p :: p in piles ==> AllShaped(p.rows, options)
    ensures BinTowers(TowersOf(f.kerf, piles, options), f, groups)
    ensures SumBy(KindInTower(kind), TowersOf(f.kerf, piles, options)) == SumBy(PileType(kind), piles)
  {
    hide TowerOf, PileContents, TowerMeets, PileMeets, MapBy, Options, AllShaped, KindInTower, PileType, TowerFirst,
         SumBy;
    PilesMeet(piles, options, f, groups, kind);
    var ts, sorted := MapBy(TowerOf(f.kerf), PileContents(piles, options)), TowersOf(f.kerf, piles, options);
    SumByPermuted(TowerRip(f.kerf), sorted, ts);
    SumByPermuted(KindInTower(kind), sorted, ts);
    forall t | t in sorted ensures TowerMeets(t, f, groups) { assert t in multiset(ts); }
  }
}
