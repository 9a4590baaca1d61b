/**
The two-stage column model of exact.py: what any assignment the solver may return
satisfies, and how its columns are read back without trusting their form.

The solver itself is not modelled; it is any source of assignments that meet the
constraints. Scaled integers are represented by the length they stand for, always
a whole number of `unit`s.
*/
module ExactModel {
  import opened Arithmetic
  import opened Geometry
  import opened Sequences
  import opened Sheets
  import opened Strips

  // ---- the frame -----------------------------------------------------------------

  function Up(v: int, unit: int): (r: int)
    requires unit > 0
    ensures v <= r < v + unit
  {
    CeilDivCovers(v, unit);
    CeilDiv(v, unit) * unit
  }

  function Down(v: int, unit: int): (r: int)
    requires unit > 0
    ensures v - unit < r <= v
  {
    v / unit * unit
  }

  /** One bin seen along its columns: `across` and `along` are what columns and rows
      may use, columns running along the height unless `transposed`. The slots of pieces
      are rounded up, unless the frame `truncates`. */
  datatype Frame = Frame(left: int, bottom: int, across: int, along: int, kerf: nat, unit: int, transposed: bool,
                         truncates: bool)

  /** Pieces and blade round up, the bin down. */
  function FrameOf(width: int, height: int, p: Params, unit: int, transposed: bool): Frame
    requires unit > 0
  {
    var w, h := Down(width - p.left - p.right, unit), Down(height - p.bottom - p.top, unit);
    Frame(p.left, p.bottom, if transposed then h else w, if transposed then w else h, Up(p.kerf, unit), unit,
          transposed, false)
  }

  predicate ValidFrame(f: Frame) {
    f.unit > 0 && f.across > 0 && f.along > 0
  }

  predicate RoundsUp(f: Frame) {
    ValidFrame(f) && !f.truncates
  }

  /** A length as the frame scales it. */
  function Scaled(f: Frame, v: int): int
    requires f.unit > 0
  {
    if f.truncates then Down(v, f.unit) else Up(v, f.unit)
  }

  /** The least a piece takes up: nothing at all when truncation loses it. */
  function Least(f: Frame): int {
    if f.truncates then 0 else 1
  }

  lemma ScaledIsLeast(f: Frame, v: int)
    requires f.unit > 0 && v > 0
    ensures Scaled(f, v) >= Least(f)
  {
    if f.truncates {
      assert v / f.unit >= 0;
    }
  }

  /** A box given in the frame's own directions. */
  function Slot(f: Frame, along: int, across: int, alongLen: int, acrossLen: int): Box {
    var x, y := f.left + (if f.transposed then along else across), f.bottom + (if f.transposed then across else along);
    Box(x, y, x + (if f.transposed then alongLen else acrossLen), y + if f.transposed then acrossLen else alongLen)
  }

  datatype Orientation = Orientation(across: int, along: int, rotated: bool)

  /** The slot a piece needs, as drawn or turned. */
  function SlotFor(f: Frame, p: Piece, rotated: bool): (o: Orientation)
    requires f.unit > 0
    ensures ValidPiece(p) ==> o.across >= Least(f) && o.along >= Least(f)
  {
    var w := Scaled(f, if rotated then p.height else p.width);
    var h := Scaled(f, if rotated then p.width else p.height);
    assert ValidPiece(p) ==> w >= Least(f) && h >= Least(f) by {
      if ValidPiece(p) {
        ScaledIsLeast(f, if rotated then p.height else p.width);
        ScaledIsLeast(f, if rotated then p.width else p.height);
      }
    }
    if f.transposed then Orientation(h, w, rotated) else Orientation(w, h, rotated)
  }

  predicate FitsFrame(f: Frame, o: Orientation) {
    o.across <= f.across && o.along <= f.along
  }

  /** The piece may lie this way in the frame: as drawn, or turned if it may be, wherever
      its rounded lengths fit. */
  predicate MayLieAs(f: Frame, p: Piece, rotated: bool)
    requires f.unit > 0
  {
    FitsFrame(f, SlotFor(f, p, rotated)) && (rotated ==> p.canRotate)
  }

  predicate MayLie(f: Frame, p: Piece)
    requires f.unit > 0
  {
    MayLieAs(f, p, false) || MayLieAs(f, p, true)
  }

  /** A slot of that size is among them. */
  predicate Listed(r: seq<Orientation>, o: Orientation) {
    exists i :: 0 <= i < |r| && r[i].across == o.across && r[i].along == o.along
  }

  /** The ways a piece may lie, without repetition: each of them, and no others. */
  function Orientations(f: Frame, p: Piece): (r: seq<Orientation>)
    requires f.unit > 0
    ensures forall o :: o in r ==> o == SlotFor(f, p, o.rotated) && MayLieAs(f, p, o.rotated)
    ensures forall rotated: bool :: MayLieAs(f, p, rotated) ==> Listed(r, SlotFor(f, p, rotated))
    ensures forall i, j :: 0 <= i < j < |r| ==> r[i].across != r[j].across || r[i].along != r[j].along
    ensures r == [] <==> !MayLie(f, p)
  {
    var a, b := SlotFor(f, p, false), SlotFor(f, p, true);
    var first := if FitsFrame(f, a) then [a] else [];
    var again := a.across == b.across && a.along == b.along;
    var r := if p.canRotate && p.width != p.height && FitsFrame(f, b) && !again then first + [b] else first;
    assert MayLieAs(f, p, false) ==> r[0] == a;
    assert MayLieAs(f, p, true) && !again ==> r[|r|-1] == b;
    r
  }

  /** Pieces of one type, type by type. */
  predicate Grouped(groups: seq<seq<Piece>>) {
    forall t :: 0 <= t < |groups| ==>
      && groups[t] != []
      && forall p :: p in groups[t] ==> TypeOf(p) == TypeOf(groups[t][0]) && ValidPiece(p)
  }

  function Options(f: Frame, groups: seq<seq<Piece>>): (r: seq<seq<Orientation>>)
    requires f.unit > 0 && Grouped(groups)
    ensures |r| == |groups| && forall t :: 0 <= t < |groups| ==> r[t] == Orientations(f, groups[t][0])
  {
    seq(|groups|, t requires 0 <= t < |groups| => Orientations(f, groups[t][0]))
  }

  // ---- assignments -----------------------------------------------------------------

  /** One column slot: `counts[t][o]` pieces of type `t` in its `o`-th orientation. */
  datatype Column = Column(inUse: bool, width: int, counts: seq<seq<nat>>)

  predicate Shaped(counts: seq<seq<nat>>, options: seq<seq<Orientation>>) {
    |counts| == |options| && forall t :: 0 <= t < |counts| ==> |counts[t]| == |options[t]|
  }

  function SumCounts(counts: seq<nat>): nat {
    if counts == [] then 0 else SumCounts(counts[..|counts|-1]) + counts[|counts|-1]
  }

  function StackedKind(counts: seq<nat>, options: seq<Orientation>, kerf: nat): int
    requires |counts| == |options|
  {
    if counts == [] then 0
    else
      StackedKind(counts[..|counts|-1], options[..|counts|-1], kerf)
      + counts[|counts|-1] * (options[|counts|-1].along + kerf)
  }

  /** What the rows of a column use of its length, a blade each. */
  function Stacked(counts: seq<seq<nat>>, options: seq<seq<Orientation>>, kerf: nat): int
    requires Shaped(counts, options)
  {
    if counts == [] then 0
    else
      Stacked(counts[..|counts|-1], options[..|counts|-1], kerf)
      + StackedKind(counts[|counts|-1], options[|counts|-1], kerf)
  }

  function Ripped(kerf: nat): Column -> int {
    (c: Column) => c.width + if c.inUse then kerf else 0
  }

  /** A column is opened and wide enough for everything in it, its rows fit its
      length, and a closed one is 0 wide. */
  predicate ColumnMeets(c: Column, options: seq<seq<Orientation>>, f: Frame) {
    && Shaped(c.counts, options)
    && 0 <= c.width <= f.across && (!c.inUse ==> c.width == 0)
    && Stacked(c.counts, options, f.kerf) <= f.along + f.kerf
    && forall t, o :: 0 <= t < |options| && 0 <= o < |options[t]| && c.counts[t][o] > 0 ==>
         c.inUse && options[t][o].across <= c.width
  }

  predicate AllShaped(a: seq<Column>, options: seq<seq<Orientation>>) {
    forall c :: c in a ==> Shaped(c.counts, options)
  }

  predicate AllMeet(a: seq<Column>, options: seq<seq<Orientation>>, f: Frame): (ok: bool)
    ensures ok ==> AllShaped(a, options)
  {
    forall c :: c in a ==> ColumnMeets(c, options, f)
  }

  function OfType(t: nat): Column -> int {
    (c: Column) => if t < |c.counts| then SumCounts(c.counts[t]) else 0
  }

  /** The least any of these slots takes across, or `most`. */
  function NarrowestOf(slots: seq<Orientation>, most: int): (w: int)
    ensures w <= most && forall i :: 0 <= i < |slots| ==> w <= slots[i].across
    ensures w == most || exists i :: 0 <= i < |slots| && w == slots[i].across
  {
    if slots == [] then most else Min(NarrowestOf(slots[..|slots|-1], most), slots[|slots|-1].across)
  }

  function Narrowest(options: seq<seq<Orientation>>, most: int): (w: int)
    ensures w <= most && forall t, o :: 0 <= t < |options| && 0 <= o < |options[t]| ==> w <= options[t][o].across
    ensures w == most || exists t, o :: 0 <= t < |options| && 0 <= o < |options[t]| && w == options[t][o].across
  {
    if options == [] then most
    else NarrowestOf(options[|options|-1], Narrowest(options[..|options|-1], most))
  }

  const MAX_COLUMNS: nat := 40

  /** How many column slots the model has: as many of the narrowest slot as go side by side. */
  function Slots(options: seq<seq<Orientation>>, f: Frame): (n: nat)
    ensures 1 <= n <= MAX_COLUMNS
  {
    Max(1, Min(MAX_COLUMNS, (f.across + f.kerf) / Max(1, Narrowest(options, f.across) + f.kerf)))
  }

  /** The constraints any solution meets. */
  predicate MeetsModel(a: seq<Column>, options: seq<seq<Orientation>>, groups: seq<seq<Piece>>, f: Frame,
                       requireAll: bool) {
    && |a| == Slots(options, f) && AllMeet(a, options, f)
    && (forall t ::
        0 <= t < |groups| ==> SumBy(OfType(t), a) <= |groups[t]| && (requireAll ==> SumBy(OfType(t), a) == |groups[t]|))
    && SumBy(Ripped(f.kerf), a) <= f.across + f.kerf
    && (forall k :: 0 < k < |a| ==> a[k-1].width >= a[k].width && (a[k].inUse ==> a[k-1].inUse))
  }

  // ---- rows --------------------------------------------------------------------------

  datatype Row = Row(along: int, across: int, rotated: bool, kind: nat)

  function Copies(r: Row, n: nat): seq<Row> {
    if n == 0 then [] else Copies(r, n - 1) + [r]
  }

  function RowOf(o: Orientation, kind: nat): Row {
    Row(o.along, o.across, o.rotated, kind)
  }

  function RowsOfKind(counts: seq<nat>, options: seq<Orientation>, kind: nat): seq<Row>
    requires |counts| == |options|
  {
    if counts == [] then []
    else
      var n := |counts| - 1;
      RowsOfKind(counts[..n], options[..n], kind) + Copies(RowOf(options[n], kind), counts[n])
  }

  function RowsOf(counts: seq<seq<nat>>, options: seq<seq<Orientation>>): seq<Row>
    requires Shaped(counts, options)
  {
    if counts == [] then []
    else
      var n := |counts| - 1;
      RowsOf(counts[..n], options[..n]) + RowsOfKind(counts[n], options[n], n)
  }

  function Pitch(kerf: nat): Row -> int {
    (r: Row) => r.along + kerf
  }

  function OfKind(kind: nat): Row -> int {
    (r: Row) => if r.kind == kind then 1 else 0
  }

  function CountKind(rows: seq<Row>, kind: nat): int {
    SumBy(OfKind(kind), rows)
  }

  lemma {:induction false} SumCopies(f: Row -> int, r: Row, n: nat)
    ensures SumBy(f, Copies(r, n)) == n * f(r)
  {
    if n > 0 {
      SumCopies(f, r, n - 1);
      SumByLast(f, Copies(r, n - 1), r);
    }
  }

  lemma {:induction false} CopiesAre(r: Row, n: nat, q: Row)
    requires q in Copies(r, n)
    ensures q == r && n > 0
  {
    if n > 0 && q in Copies(r, n - 1) { CopiesAre(r, n - 1, q); }
  }

  lemma {:induction false} KindSums(counts: seq<nat>, options: seq<Orientation>, kind: nat, kerf: nat, other: nat)
    requires |counts| == |options|
    ensures var rows := RowsOfKind(counts, options, kind);
            && SumBy(Pitch(kerf), rows) == StackedKind(counts, options, kerf)
            && CountKind(rows, other) == if kind == other then SumCounts(counts) else 0
  {
    if counts != [] {
      var n := |counts| - 1;
      KindSums(counts[..n], options[..n], kind, kerf, other);
      var before, copies := RowsOfKind(counts[..n], options[..n], kind), Copies(RowOf(options[n], kind), counts[n]);
      SumByConcat(Pitch(kerf), before, copies);
      SumByConcat(OfKind(other), before, copies);
      SumCopies(Pitch(kerf), RowOf(options[n], kind), counts[n]);
      SumCopies(OfKind(other), RowOf(options[n], kind), counts[n]);
    }
  }

  /** The rows of a column use what the model counted, and hold as many of each type. */
  lemma {:induction false} RowSums(counts: seq<seq<nat>>, options: seq<seq<Orientation>>, kerf: nat, kind: nat)
    requires Shaped(counts, options)
    ensures SumBy(Pitch(kerf), RowsOf(counts, options)) == Stacked(counts, options, kerf)
    ensures CountKind(RowsOf(counts, options), kind) == if kind < |counts| then SumCounts(counts[kind]) else 0
  {
    if counts != [] {
      var n := |counts| - 1;
      RowSums(counts[..n], options[..n], kerf, kind);
      KindSums(counts[n], options[n], n, kerf, kind);
      var before, rows := RowsOf(counts[..n], options[..n]), RowsOfKind(counts[n], options[n], n);
      SumByConcat(Pitch(kerf), before, rows);
      SumByConcat(OfKind(kind), before, rows);
    }
  }

  lemma {:induction false} RowOfKindFrom(counts: seq<nat>, options: seq<Orientation>, kind: nat, r: Row)
    returns (o: nat)
    requires |counts| == |options| && r in RowsOfKind(counts, options, kind)
    ensures o < |counts| && counts[o] > 0 && r == RowOf(options[o], kind)
  {
    var n := |counts| - 1;
    if r in RowsOfKind(counts[..n], options[..n], kind) {
      o := RowOfKindFrom(counts[..n], options[..n], kind, r);
    } else {
      CopiesAre(RowOf(options[n], kind), counts[n], r);
      o := n;
    }
  }

  lemma {:induction false} RowFrom(counts: seq<seq<nat>>, options: seq<seq<Orientation>>, r: Row) returns (o: nat)
    requires Shaped(counts, options) && r in RowsOf(counts, options)
    ensures r.kind < |counts| && o < |counts[r.kind]| && counts[r.kind][o] > 0 && r == RowOf(options[r.kind][o], r.kind)
  {
    var n := |counts| - 1;
    if r in RowsOf(counts[..n], options[..n]) {
      o := RowFrom(counts[..n], options[..n], r);
    } else {
      o := RowOfKindFrom(counts[n], options[n], n, r);
    }
  }

  // ---- templates ---------------------------------------------------------------------

  /** Longest row first, then widest, then by type and orientation. */
  predicate RowFirst(a: Row, b: Row) {
    || a.along > b.along
    || (a.along == b.along && a.across > b.across)
    || (a.along == b.along && a.across == b.across && a.kind < b.kind)
    || (a.along == b.along && a.across == b.across && a.kind == b.kind && (a.rotated ==> b.rotated))
  }

  /** The order of rows as tuples. */
  predicate RowAtMost(a: Row, b: Row) {
    || a.along < b.along
    || (a.along == b.along && a.across < b.across)
    || (a.along == b.along && a.across == b.across && !a.rotated && b.rotated)
    || (a.along == b.along && a.across == b.across && a.rotated == b.rotated && a.kind <= b.kind)
  }

  /** What a column holds, free of the solver's width and index. */
  datatype Template = Template(width: int, rows: seq<Row>)

  /** Widest column first, then by content. */
  predicate TemplateFirst(a: Template, b: Template) {
    a.width > b.width || (a.width == b.width && LexAtMost(RowAtMost, a.rows, b.rows))
  }

  lemma RowOrder()
    ensures TotalOrder(RowFirst) && TotalOrder(RowAtMost)
  {
  }

  lemma TemplateOrder()
    ensures TotalOrder(TemplateFirst)
  {
    RowOrder();
    forall a: Template, b: Template
      ensures (TemplateFirst(a, b) || TemplateFirst(b, a)) && (TemplateFirst(a, b) && TemplateFirst(b, a) ==> a == b)
    {
      LexTotal(RowAtMost, a.rows, b.rows);
    }
    forall a: Template, b: Template, c: Template | TemplateFirst(a, b) && TemplateFirst(b, c)
      ensures TemplateFirst(a, c)
    {
      if a.width == b.width == c.width { LexTransitive(RowAtMost, a.rows, b.rows, c.rows); }
    }
  }

  function MaxAcross(rows: seq<Row>): (w: int)
    ensures forall r :: r in rows ==> r.across <= w
  {
    if rows == [] then 0
    else
      assert rows == rows[..|rows|-1] + [rows[|rows|-1]];
      Max(MaxAcross(rows[..|rows|-1]), rows[|rows|-1].across)
  }

  function TemplateOf(rows: seq<Row>): Template {
    Template(MaxAcross(rows), SortBy(RowFirst, rows))
  }

  /** The contents of the columns that are opened and hold something. */
  function Contents(a: seq<Column>, options: seq<seq<Orientation>>): (r: seq<seq<Row>>)
    requires AllShaped(a, options)
  {
    if a == [] then []
    else
      var c := a[|a|-1];
      Contents(a[..|a|-1], options) + if c.inUse
          && RowsOf(c.counts, options) != [] then [RowsOf(c.counts, options)] else []
  }

  /** The columns in canonical order, each with its rows in canonical order. */
  function Templates(a: seq<Column>, options: seq<seq<Orientation>>): seq<Template>
    requires AllShaped(a, options)
  {
    SortBy(TemplateFirst, MapBy(TemplateOf, Contents(a, options)))
  }

  // ---- what the canonical reading forgets ----------------------------------------------

  function RowMultiset(rows: seq<Row>): multiset<Row> {
    multiset(rows)
  }

  lemma {:induction false} MaxAcrossIs(rows: seq<Row>, q: seq<Row>)
    requires multiset(rows) == multiset(q)
    ensures MaxAcross(rows) <= MaxAcross(q)
  {
    MaxAcrossAttained(rows);
    if MaxAcross(rows) > 0 {
      var r :| r in rows && r.across == MaxAcross(rows);
      assert r in multiset(q);
    } else {
      MaxAcrossAttained(q);
    }
  }

  lemma {:induction false} MaxAcrossAttained(rows: seq<Row>)
    ensures MaxAcross(rows) >= 0
    ensures MaxAcross(rows) > 0 ==> exists r :: r in rows && r.across == MaxAcross(rows)
  {
    if rows != [] {
      var init, last := rows[..|rows|-1], rows[|rows|-1];
      MaxAcrossAttained(init);
      assert last in rows && forall r :: r in init ==> r in rows;
    }
  }

  /** A template depends on what a column holds, not on how its rows were listed. */
  lemma TemplateCanonical(rows: seq<Row>, q: seq<Row>)
    requires multiset(rows) == multiset(q)
    ensures TemplateOf(rows) == TemplateOf(q)
  {
    RowOrder();
    SortCanonical(RowFirst, rows, q);
    MaxAcrossIs(rows, q);
    MaxAcrossIs(q, rows);
  }

  lemma SameTemplates(a: seq<seq<Row>>, b: seq<seq<Row>>)
    requires multiset(MapBy(RowMultiset, a)) == multiset(MapBy(RowMultiset, b))
    ensures multiset(MapBy(TemplateOf, a)) == multiset(MapBy(TemplateOf, b))
  {
    forall x, y | x in a && y in b && RowMultiset(x) == RowMultiset(y) ensures TemplateOf(x) == TemplateOf(y) {
      TemplateCanonical(x, y);
    }
    MapByKey(RowMultiset, TemplateOf, a, b);
  }

  /** Two assignments whose non-empty columns hold the same rows, up to reordering
      rows and columns, are read back the same, whatever widths they declare. */
  lemma ReadingIsCanonical(a: seq<Column>, b: seq<Column>, options: seq<seq<Orientation>>)
    requires AllShaped(a, options) && AllShaped(b, options)
    requires multiset(MapBy(RowMultiset, Contents(a, options))) == multiset(MapBy(RowMultiset, Contents(b, options)))
    ensures Templates(a, options) == Templates(b, options)
  {
    hide TemplateFirst;
    TemplateOrder();
    SameTemplates(Contents(a, options), Contents(b, options));
    SortCanonical(TemplateFirst, MapBy(TemplateOf, Contents(a, options)), MapBy(TemplateOf, Contents(b, options)));
  }
}
