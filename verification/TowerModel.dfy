/**
The three-stage model of exact3.py: columns of strips, over several bins at once, and
the canonical reading of a solved assignment.

Along a column the model is the two-stage one in the turned frame: a strip is a column
there, its height the width.
*/
module TowerModel {
  import opened Geometry
  import opened Sequences
  import opened Sheets
  import opened Strips
  import opened ExactModel
  import opened ExactColumns
  import opened TowerLayout

  /** A column slot and its strips. */
  datatype Pile = Pile(inUse: bool, width: int, rows: seq<Column>)

  /** The frame strips are described in: turned, as wide as a column may be. */
  function StripFrame(f: Frame): Frame {
    Turned(f, 0, f.across)
  }

  predicate PileMeets(p: Pile, options: seq<seq<Orientation>>, f: Frame) {
    && 0 <= p.width <= f.across && (!p.inUse ==> p.width == 0)
    && AllMeet(p.rows, options, StripFrame(f))
    && (forall r :: r in p.rows ==> Stacked(r.counts, options, f.kerf) <= p.width + f.kerf && (r.inUse ==> p.inUse))
    && (forall r :: r in p.rows && r.inUse ==> RowsOf(r.counts, options) != [])
    && SumBy(Ripped(f.kerf), p.rows) <= f.along + f.kerf
    && forall k :: 0 < k < |p.rows| ==> p.rows[k].inUse ==> p.rows[k-1].inUse
  }

  function PileRip(kerf: nat): Pile -> int {
    (p: Pile) => p.width + if p.inUse then kerf else 0
  }

  function PileType(t: nat): Pile -> int {
    (p: Pile) => SumBy(OfType(t), p.rows)
  }

  predicate BinMeets(piles: seq<Pile>, options: seq<seq<Orientation>>, f: Frame) {
    && (forall p :: p in piles ==> PileMeets(p, options, f))
    && SumBy(PileRip(f.kerf), piles) <= f.across + f.kerf
    && forall k :: 0 < k < |piles| ==> piles[k-1].width >= piles[k].width && (piles[k].inUse ==> piles[k-1].inUse)
  }

  // ---- the canonical reading ------------------------------------------------------------

  datatype TowerTemplate = TowerTemplate(width: int, strips: seq<Template>)

  /** What the pieces of a strip take across, blades between them. */
  function Span(kerf: nat, t: Template): int {
    SumBy(Pitch(kerf), t.rows) - kerf
  }

  function MaxSpan(kerf: nat, ts: seq<Template>): (w: int)
    ensures forall t :: t in ts ==> Span(kerf, t) <= w
  {
    if ts == [] then 0
    else
      assert ts == ts[..|ts|-1] + [ts[|ts|-1]];
      Max(MaxSpan(kerf, ts[..|ts|-1]), Span(kerf, ts[|ts|-1]))
  }

  /** Longest strip first, then the widest filled, then by content. */
  function StripFirst(kerf: nat): (Template, Template) -> bool {
    (a: Template, b: Template) =>
      a.width > b.width
      || (a.width == b.width
          && (Span(kerf, a) > Span(kerf, b)
              || (Span(kerf, a) == Span(kerf, b) && LexAtMost(RowAtMost, a.rows, b.rows))))
  }

  /** The order of strips as tuples. */
  function StripAtMost(kerf: nat): (Template, Template) -> bool {
    (a: Template, b: Template) =>
      a.width < b.width
      || (a.width == b.width
          && (Span(kerf, a) < Span(kerf, b)
              || (Span(kerf, a) == Span(kerf, b) && LexAtMost(RowAtMost, a.rows, b.rows))))
  }

  function TowerFirst(kerf: nat): (TowerTemplate, TowerTemplate) -> bool {
    (a: TowerTemplate, b: TowerTemplate) =>
      a.width > b.width || (a.width == b.width && LexAtMost(StripAtMost(kerf), a.strips, b.strips))
  }

  lemma StripOrders(kerf: nat)
    ensures TotalOrder(StripFirst(kerf)) && TotalOrder(StripAtMost(kerf))
  {
    hide SumBy;
    RowOrder();
    forall a: Template, b: Template
      ensures LexAtMost(RowAtMost, a.rows, b.rows) || LexAtMost(RowAtMost, b.rows, a.rows)
      ensures LexAtMost(RowAtMost, a.rows, b.rows) && LexAtMost(RowAtMost, b.rows, a.rows) ==> a.rows == b.rows
    {
      LexTotal(RowAtMost, a.rows, b.rows);
    }
    forall a: Template, b: Template, c: Template | LexAtMost(RowAtMost, a.rows, b.rows)
        && LexAtMost(RowAtMost, b.rows, c.rows)
      ensures LexAtMost(RowAtMost, a.rows, c.rows)
    {
      LexTransitive(RowAtMost, a.rows, b.rows, c.rows);
    }
  }

  lemma TowerOrder(kerf: nat)
    ensures TotalOrder(TowerFirst(kerf))
  {
    hide StripAtMost;
    StripOrders(kerf);
    forall a: TowerTemplate, b: TowerTemplate
      ensures LexAtMost(StripAtMost(kerf), a.strips, b.strips) || LexAtMost(StripAtMost(kerf), b.strips, a.strips)
      ensures LexAtMost(StripAtMost(kerf), a.strips, b.strips) && LexAtMost(StripAtMost(kerf), b.strips, a.strips) ==>
              a.strips == b.strips
    {
      LexTotal(StripAtMost(kerf), a.strips, b.strips);
    }
    forall a: TowerTemplate, b: TowerTemplate, c: TowerTemplate
      | LexAtMost(StripAtMost(kerf), a.strips, b.strips) && LexAtMost(StripAtMost(kerf), b.strips, c.strips)
      ensures LexAtMost(StripAtMost(kerf), a.strips, c.strips)
    {
      LexTransitive(StripAtMost(kerf), a.strips, b.strips, c.strips);
    }
  }

  /** A column with its strips in canonical order and its width re-derived. */
  function TowerOf(kerf: nat): seq<seq<Row>> -> TowerTemplate {
    (contents: seq<seq<Row>>) =>
      TowerTemplate(MaxSpan(kerf, MapBy(TemplateOf, contents)), SortBy(StripFirst(kerf), MapBy(TemplateOf, contents)))
  }

  /** The strips of the columns that hold something. */
  function PileContents(piles: seq<Pile>, options: seq<seq<Orientation>>): seq<seq<seq<Row>>>
    requires forall p :: p in piles ==> AllShaped(p.rows, options)
  {
    if piles == [] then []
    else
      var p := piles[|piles|-1];
      PileContents(piles[..|piles|-1], options) + if p.inUse
          && Contents(p.rows, options) != [] then [Contents(p.rows, options)] else []
  }

  function TowersOf(kerf: nat, piles: seq<Pile>, options: seq<seq<Orientation>>): seq<TowerTemplate>
    requires forall p :: p in piles ==> AllShaped(p.rows, options)
  {
    SortBy(TowerFirst(kerf), MapBy(TowerOf(kerf), PileContents(piles, options)))
  }

  // ---- what it forgets -----------------------------------------------------------------------

  lemma {:induction false} MaxSpanAttained(kerf: nat, ts: seq<Template>)
    ensures MaxSpan(kerf, ts) >= 0
    ensures MaxSpan(kerf, ts) > 0 ==> exists t :: t in ts && Span(kerf, t) == MaxSpan(kerf, ts)
  {
    hide Span;
    if ts != [] {
      var init, last := ts[..|ts|-1], ts[|ts|-1];
      MaxSpanAttained(kerf, init);
      assert last in ts && forall t :: t in init ==> t in ts;
    }
  }

  lemma MaxSpanIs(kerf: nat, ts: seq<Template>, us: seq<Template>)
    requires multiset(ts) == multiset(us)
    ensures MaxSpan(kerf, ts) <= MaxSpan(kerf, us)
  {
    hide Span;
    MaxSpanAttained(kerf, ts);
    MaxSpanAttained(kerf, us);
    if MaxSpan(kerf, ts) > 0 {
      var t :| t in ts && Span(kerf, t) == MaxSpan(kerf, ts);
      assert t in multiset(us);
    }
  }

  /** What a column holds: which strips, and which rows each. */
  function PileKey(contents: seq<seq<Row>>): multiset<multiset<Row>> {
    multiset(MapBy(RowMultiset, contents))
  }

  lemma TowerCanonical(kerf: nat, a: seq<seq<Row>>, b: seq<seq<Row>>)
    requires PileKey(a) == PileKey(b)
    ensures TowerOf(kerf)(a) == TowerOf(kerf)(b)
  {
    hide StripFirst, TemplateOf, Span;
    SameTemplates(a, b);
    StripOrders(kerf);
    SortCanonical(StripFirst(kerf), MapBy(TemplateOf, a), MapBy(TemplateOf, b));
    MaxSpanIs(kerf, MapBy(TemplateOf, a), MapBy(TemplateOf, b));
    MaxSpanIs(kerf, MapBy(TemplateOf, b), MapBy(TemplateOf, a));
  }

  /** Two assignments of a bin with the same contents, up to reordering pieces in strips,
      strips in columns and columns, are read back the same, whatever widths and heights
      they declare. */
  lemma TowersCanonical(kerf: nat, a: seq<Pile>, b: seq<Pile>, options: seq<seq<Orientation>>)
    requires (forall p :: p in a ==> AllShaped(p.rows, options)) && (forall p :: p in b ==> AllShaped(p.rows, options))
    requires multiset(MapBy(PileKey, PileContents(a, options))) == multiset(MapBy(PileKey, PileContents(b, options)))
    ensures TowersOf(kerf, a, options) == TowersOf(kerf, b, options)
  {
    hide TowerFirst, TowerOf, PileKey;
    TowerOrder(kerf);
    var x, y := PileContents(a, options), PileContents(b, options);
    forall p, q | p in x && q in y && PileKey(p) == PileKey(q) ensures TowerOf(kerf)(p) == TowerOf(kerf)(q) {
      TowerCanonical(kerf, p, q);
    }
    MapByKey(PileKey, TowerOf(kerf), x, y);
    SortCanonical(TowerFirst(kerf), MapBy(TowerOf(kerf), x), MapBy(TowerOf(kerf), y));
  }
}
