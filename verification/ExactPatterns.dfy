/**
What the constraints of exact.py allow: an assignment meets them exactly when the pieces
can be laid out in columns of rows, in no more columns than the model has.
*/
module ExactPatterns {
  import opened Arithmetic
  import opened Geometry
  import opened Sequences
  import opened Sheets
  import opened Strips
  import opened ExactModel
  import opened ExactColumns

  // ---- counting the rows of a column -------------------------------------------------------

  function NoCounts(options: seq<seq<Orientation>>): (r: seq<seq<nat>>)
    ensures Shaped(r, options) && forall t, o :: 0 <= t < |r| && 0 <= o < |r[t]| ==> r[t][o] == 0
  {
    seq(|options|, t requires 0 <= t < |options| => seq(|options[t]|, _ => 0))
  }

  lemma {:induction false} NoSum(counts: seq<nat>)
    requires forall o :: 0 <= o < |counts| ==> counts[o] == 0
    ensures SumCounts(counts) == 0
  {
    if counts != [] { NoSum(counts[..|counts|-1]); }
  }

  lemma {:induction false} NoKind(counts: seq<nat>, options: seq<Orientation>, kerf: nat)
    requires |counts| == |options| && forall o :: 0 <= o < |counts| ==> counts[o] == 0
    ensures StackedKind(counts, options, kerf) == 0
  {
    if counts != [] { NoKind(counts[..|counts|-1], options[..|counts|-1], kerf); }
  }

  lemma {:induction false} NoStack(counts: seq<seq<nat>>, options: seq<seq<Orientation>>, kerf: nat)
    requires Shaped(counts, options)
    requires forall t, o :: 0 <= t < |counts| && 0 <= o < |counts[t]| ==> counts[t][o] == 0
    ensures Stacked(counts, options, kerf) == 0
  {
    if counts != [] {
      var n := |counts| - 1;
      NoStack(counts[..n], options[..n], kerf);
      NoKind(counts[n], options[n], kerf);
    }
  }

  /** One piece more of a type in one of its orientations. */
  function Bump(counts: seq<seq<nat>>, t: nat, o: nat): seq<seq<nat>>
    requires t < |counts| && o < |counts[t]|
  {
    counts[t := counts[t][o := counts[t][o] + 1]]
  }

  lemma {:induction false} BumpSum(counts: seq<nat>, o: nat)
    requires o < |counts|
    ensures SumCounts(counts[o := counts[o] + 1]) == SumCounts(counts) + 1
  {
    var n, more := |counts| - 1, counts[o := counts[o] + 1];
    if o == n {
      assert more[..n] == counts[..n];
    } else {
      BumpSum(counts[..n], o);
      assert more[..n] == counts[..n][o := counts[o] + 1];
    }
  }

  lemma {:induction false} BumpKind(counts: seq<nat>, options: seq<Orientation>, kerf: nat, o: nat)
    requires o < |counts| == |options|
    ensures StackedKind(counts[o := counts[o] + 1], options, kerf) ==
            StackedKind(counts, options, kerf) + options[o].along + kerf
  {
    var n, more := |counts| - 1, counts[o := counts[o] + 1];
    if o == n {
      assert more[..n] == counts[..n];
    } else {
      BumpKind(counts[..n], options[..n], kerf, o);
      assert more[..n] == counts[..n][o := counts[o] + 1];
    }
  }

  lemma {:induction false} BumpStack(counts: seq<seq<nat>>, options: seq<seq<Orientation>>, kerf: nat, t: nat, o: nat)
    requires Shaped(counts, options) && t < |counts| && o < |counts[t]|
    ensures Shaped(Bump(counts, t, o), options)
    ensures Stacked(Bump(counts, t, o), options, kerf) == Stacked(counts, options, kerf) + options[t][o].along + kerf
  {
    var n, more := |counts| - 1, Bump(counts, t, o);
    if t == n {
      assert more[..n] == counts[..n];
      BumpKind(counts[n], options[n], kerf, o);
    } else {
      BumpStack(counts[..n], options[..n], kerf, t, o);
      assert more[..n] == Bump(counts[..n], t, o);
    }
  }

  /** The rows hold pieces of the types, in slots their types have. */
  predicate RowsListed(rows: seq<Row>, options: seq<seq<Orientation>>) {
    forall r :: r in rows ==> r.kind < |options| && Listed(options[r.kind], Orientation(r.across, r.along, r.rotated))
  }

  predicate Counted(counts: seq<seq<nat>>, rows: seq<Row>, options: seq<seq<Orientation>>, kerf: nat) {
    && Shaped(counts, options) && Stacked(counts, options, kerf) == SumBy(Pitch(kerf), rows)
    && (forall t: nat :: t < |counts| ==> SumCounts(counts[t]) == CountKind(rows, t))
    && forall t, o :: 0 <= t < |counts| && 0 <= o < |counts[t]| && counts[t][o] > 0 ==>
         exists r :: r in rows && r.across == options[t][o].across
  }

  lemma NothingCounted(options: seq<seq<Orientation>>, kerf: nat)
    ensures Counted(NoCounts(options), [], options, kerf)
  {
    var counts := NoCounts(options);
    NoStack(counts, options, kerf);
    forall t: nat | t < |counts| ensures SumCounts(counts[t]) == CountKind([], t) { NoSum(counts[t]); }
  }

  lemma CountedNext(counts: seq<seq<nat>>, rows: seq<Row>, r: Row, o: nat, options: seq<seq<Orientation>>, kerf: nat)
    returns (more: seq<seq<nat>>)
    requires Counted(counts, rows, options, kerf) && r.kind < |options| && o < |options[r.kind]|
    requires options[r.kind][o].across == r.across && options[r.kind][o].along == r.along
    ensures Counted(more, rows + [r], options, kerf)
  {
    hide Stacked, SumCounts, SumBy;
    more := Bump(counts, r.kind, o);
    BumpStack(counts, options, kerf, r.kind, o);
    SumByLast(Pitch(kerf), rows, r);
    forall t: nat | t < |more| ensures SumCounts(more[t]) == CountKind(rows + [r], t) {
      SumByLast(OfKind(t), rows, r);
      if t == r.kind { BumpSum(counts[t], o); }
    }
    forall t, s | 0 <= t < |more| && 0 <= s < |more[t]| && more[t][s] > 0
      ensures exists q :: q in rows + [r] && q.across == options[t][s].across
    {
      if t == r.kind && s == o {
        assert r in rows + [r];
      } else {
        var q :| q in rows && q.across == options[t][s].across;
        assert q in rows + [r];
      }
    }
  }

  /** Any rows can be counted. */
  lemma {:induction false} CountRows(rows: seq<Row>, options: seq<seq<Orientation>>, kerf: nat)
    returns (counts: seq<seq<nat>>)
    requires RowsListed(rows, options)
    ensures Counted(counts, rows, options, kerf)
  {
    hide Counted;
    if rows == [] {
      NothingCounted(options, kerf);
      counts := NoCounts(options);
    } else {
      var init, r := rows[..|rows|-1], rows[|rows|-1];
      counts := CountRows(init, options, kerf);
      assert r in rows && rows == init + [r];
      var o :| 0 <= o < |options[r.kind]| && options[r.kind][o].across == r.across
               && options[r.kind][o].along == r.along;
      counts := CountedNext(counts, init, r, o, options, kerf);
    }
  }

  // ---- columns of a pattern -------------------------------------------------------------------

  lemma {:induction false} PartOfSum<T>(f: T -> int, xs: seq<T>, x: T)
    requires x in xs && forall y :: y in xs ==> f(y) >= 0
    ensures f(x) <= SumBy(f, xs)
  {
    var init, last := xs[..|xs|-1], xs[|xs|-1];
    assert xs == init + [last];
    SumByLast(f, init, last);
    SumNotNegative(f, init);
    if x in init { PartOfSum(f, init, x); }
  }

  lemma {:induction false} SumNotNegative<T>(f: T -> int, xs: seq<T>)
    requires forall y :: y in xs ==> f(y) >= 0
    ensures SumBy(f, xs) >= 0
  {
    if xs != [] { SumNotNegative(f, xs[..|xs|-1]); }
  }

  /** A row of a pattern is in a slot its type has. */
  lemma RowIsListed(t: Template, r: Row, f: Frame, groups: seq<seq<Piece>>)
    requires ValidFrame(f) && Grouped(groups) && TemplateMeets(t, f, groups) && r in t.rows && t.width <= f.across
    ensures r.kind < |groups|
    ensures Listed(Orientations(f, groups[r.kind][0]), Orientation(r.across, r.along, r.rotated))
    ensures MayLie(f, groups[r.kind][0])
  {
    hide Orientations, Listed, SumBy, SlotFor;
    RowsTakeRoom(t, f, groups);
    PartOfSum(Pitch(f.kerf), t.rows, r);
    var p := groups[r.kind][0];
    assert SlotFor(f, p, r.rotated) == Orientation(r.across, r.along, r.rotated);
    assert MayLieAs(f, p, r.rotated);
  }

  lemma RowsTakeRoom(t: Template, f: Frame, groups: seq<seq<Piece>>)
    requires f.unit > 0 && Grouped(groups) && TemplateMeets(t, f, groups)
    ensures forall r :: r in t.rows ==> r.along >= Least(f) && r.across >= Least(f) && Pitch(f.kerf)(r) >= 0
  {
    hide SumBy;
    forall r | r in t.rows ensures r.along >= Least(f) && r.across >= Least(f) {
      assert groups[r.kind][0] in groups[r.kind];
    }
  }

  lemma TemplateIsListed(t: Template, f: Frame, groups: seq<seq<Piece>>)
    requires ValidFrame(f) && Grouped(groups) && TemplateMeets(t, f, groups) && t.width <= f.across
    ensures RowsListed(t.rows, Options(f, groups))
  {
    hide Orientations, Listed, TemplateMeets;
    forall r | r in t.rows
      ensures r.kind < |groups| && Listed(Orientations(f, groups[r.kind][0]), Orientation(r.across, r.along, r.rotated))
    {
      RowIsListed(t, r, f, groups);
    }
  }

  lemma NoWider(ts: seq<Template>, f: Frame, groups: seq<seq<Piece>>, t: Template)
    requires ValidFrame(f) && Grouped(groups) && TemplatesMeet(ts, f, groups) && t in ts
    ensures TemplateMeets(t, f, groups) && 0 <= t.width <= f.across
  {
    hide SumBy, RowMeets, AllRows;
    forall u | u in ts ensures Rip(f.kerf)(u) >= 0 {}
    PartOfSum(Rip(f.kerf), ts, t);
  }

  /** The column slot that holds a column of a pattern. */
  predicate Holds(c: Column, t: Template, options: seq<seq<Orientation>>, f: Frame) {
    && c.inUse && c.width == t.width && ColumnMeets(c, options, f)
    && Stacked(c.counts, options, f.kerf) == SumBy(Pitch(f.kerf), t.rows)
    && forall k: nat :: k < |options| ==> OfType(k)(c) == KindIn(k)(t)
  }

  lemma ColumnFor(t: Template, f: Frame, groups: seq<seq<Piece>>) returns (c: Column)
    requires ValidFrame(f) && Grouped(groups) && TemplateMeets(t, f, groups) && 0 <= t.width <= f.across
    ensures Holds(c, t, Options(f, groups), f)
  {
    hide SumBy, Stacked, SumCounts, Orientations, Listed, RowMeets, RowsListed, Options;
    var options: seq<seq<Orientation>> := Options(f, groups);
    TemplateIsListed(t, f, groups);
    var counts := CountRows(t.rows, options, f.kerf);
    c := Column(true, t.width, counts);
  }

  predicate AllHold(a: seq<Column>, ts: seq<Template>, options: seq<seq<Orientation>>, f: Frame) {
    |a| == |ts| && forall i :: 0 <= i < |a| ==> Holds(a[i], ts[i], options, f)
  }

  lemma {:induction false} ColumnsFor(ts: seq<Template>, f: Frame, groups: seq<seq<Piece>>) returns (a: seq<Column>)
    requires ValidFrame(f) && Grouped(groups)
    requires forall t :: t in ts ==> TemplateMeets(t, f, groups) && 0 <= t.width <= f.across
    ensures AllHold(a, ts, Options(f, groups), f)
    ensures SumBy(Ripped(f.kerf), a) == SumBy(Rip(f.kerf), ts)
    ensures forall k: nat :: k < |groups| ==> SumBy(OfType(k), a) == SumBy(KindIn(k), ts)
  {
    hide TemplateMeets, Options, ColumnMeets, OfType, KindIn;
    a := [];
    if ts != [] {
      var init, last := ts[..|ts|-1], ts[|ts|-1];
      var before := ColumnsFor(init, f, groups);
      var c := ColumnFor(last, f, groups);
      a := before + [c];
      SumByLast(Ripped(f.kerf), before, c);
      forall k: nat | k < |groups| ensures SumBy(OfType(k), a) == SumBy(KindIn(k), ts) {
        SumByLast(OfType(k), before, c);
      }
    }
  }

  // ---- as many slots as any pattern needs ---------------------------------------------------------

  function Product(a: int, b: int): int {
    a * b
  }

  lemma ProductAdds(a: int, b: int, c: int)
    ensures Product(a + b, c) == Product(a, c) + Product(b, c)
    ensures Product(c, a + b) == Product(c, a) + Product(c, b)
  {
  }

  lemma ProductOf(c: int)
    ensures Product(0, c) == 0 && Product(c, 0) == 0 && Product(1, c) == c
  {
  }

  lemma ProductGrows(a: int, b: int, c: int)
    requires a <= b && c >= 0
    ensures Product(c, a) <= Product(c, b) && Product(a, c) <= Product(b, c)
  {
  }

  lemma {:induction false} AtLeastEach<T>(f: T -> int, xs: seq<T>, least: int)
    requires forall x :: x in xs ==> f(x) >= least
    ensures SumBy(f, xs) >= Product(|xs|, least)
  {
    hide Product;
    ProductOf(least);
    if xs != [] {
      AtLeastEach(f, xs[..|xs|-1], least);
      ProductAdds(|xs| - 1, 1, least);
    }
  }

  lemma QuotientAtLeast(a: int, b: int, n: nat)
    requires b > 0 && Product(n, b) <= a
    ensures n <= a / b
  {
    var q := a / b;
    assert a == q * b + a % b;
    assert (n - q) * b == n * b - q * b;
    NotPositive(n - q, b);
  }

  lemma NoneIsNarrower(t: Template, f: Frame, groups: seq<seq<Piece>>)
    requires RoundsUp(f) && Grouped(groups) && TemplateMeets(t, f, groups) && t.width <= f.across
    ensures Narrowest(Options(f, groups), f.across) <= t.width
  {
    hide Orientations, SumBy, RowMeets;
    var r := t.rows[0];
    RowIsListed(t, r, f, groups);
    var options: seq<seq<Orientation>> := Options(f, groups);
    var o :| 0 <= o < |options[r.kind]| && options[r.kind][o].across == r.across;
  }

  /** What a column takes across at the least, with its blade. */
  function NarrowestPitch(f: Frame, groups: seq<seq<Piece>>): int
    requires f.unit > 0 && Grouped(groups)
  {
    Narrowest(Options(f, groups), f.across) + f.kerf
  }

  lemma NarrowestIsPositive(f: Frame, groups: seq<seq<Piece>>)
    requires RoundsUp(f) && Grouped(groups)
    ensures NarrowestPitch(f, groups) >= 1 + f.kerf
  {
    var options: seq<seq<Orientation>> := Options(f, groups);
    forall t, o | 0 <= t < |options| && 0 <= o < |options[t]| ensures options[t][o].across >= 1 {
      assert options[t][o] in Orientations(f, groups[t][0]);
      assert groups[t][0] in groups[t];
    }
  }

  lemma RipsFit(ts: seq<Template>, f: Frame, groups: seq<seq<Piece>>)
    requires ValidFrame(f) && Grouped(groups) && TemplatesMeet(ts, f, groups)
    ensures SumBy(Rip(f.kerf), ts) <= f.across + f.kerf
  {
    hide TemplateMeets, SumBy, Enough;
  }

  lemma RipAtLeast(ts: seq<Template>, f: Frame, groups: seq<seq<Piece>>, t: Template)
    requires RoundsUp(f) && Grouped(groups) && TemplatesMeet(ts, f, groups) && t in ts
    ensures Rip(f.kerf)(t) >= NarrowestPitch(f, groups)
  {
    hide Narrowest, Options, TemplateMeets, TemplatesMeet;
    NoWider(ts, f, groups, t);
    NoneIsNarrower(t, f, groups);
  }

  lemma WidthsAddUp(ts: seq<Template>, f: Frame, groups: seq<seq<Piece>>)
    requires RoundsUp(f) && Grouped(groups) && TemplatesMeet(ts, f, groups)
    ensures Product(|ts|, NarrowestPitch(f, groups)) <= f.across + f.kerf
  {
    hide NarrowestPitch, TemplatesMeet, SumBy, Rip, Grouped, Product;
    var least := NarrowestPitch(f, groups);
    forall t | t in ts ensures Rip(f.kerf)(t) >= least { RipAtLeast(ts, f, groups, t); }
    AtLeastEach(Rip(f.kerf), ts, least);
    RipsFit(ts, f, groups);
  }

  /** A pattern never has more columns than the model, but for the limit of the model. */
  lemma SlotsSuffice(ts: seq<Template>, f: Frame, groups: seq<seq<Piece>>)
    requires RoundsUp(f) && Grouped(groups) && TemplatesMeet(ts, f, groups) && |ts| <= MAX_COLUMNS
    ensures |ts| <= Slots(Options(f, groups), f)
  {
    hide NarrowestPitch, TemplatesMeet, Slots, Product, Grouped;
    NarrowestIsPositive(f, groups);
    WidthsAddUp(ts, f, groups);
    QuotientAtLeast(f.across + f.kerf, NarrowestPitch(f, groups), |ts|);
    SlotsFor(f, groups, |ts|);
  }

  lemma SlotsFor(f: Frame, groups: seq<seq<Piece>>, n: nat)
    requires RoundsUp(f) && Grouped(groups) && n <= MAX_COLUMNS && NarrowestPitch(f, groups) >= 1 + f.kerf
    requires n <= (f.across + f.kerf) / NarrowestPitch(f, groups)
    ensures n <= Slots(Options(f, groups), f)
  {
    hide Narrowest, Options;
  }

  /** Slots left closed. */
  lemma {:induction false} Padded(a: seq<Column>, n: nat, options: seq<seq<Orientation>>, f: Frame)
    returns (b: seq<Column>)
    requires |a| <= n && AllMeet(a, options, f) && f.across >= 0 && f.along >= 0
    requires forall k :: 0 < k < |a| ==> a[k-1].width >= a[k].width && (a[k].inUse ==> a[k-1].inUse)
    ensures |b| == n && AllMeet(b, options, f) && SumBy(Ripped(f.kerf), b) == SumBy(Ripped(f.kerf), a)
    ensures forall t: nat :: t < |options| ==> SumBy(OfType(t), b) == SumBy(OfType(t), a)
    ensures forall k :: 0 < k < |b| ==> b[k-1].width >= b[k].width && (b[k].inUse ==> b[k-1].inUse)
    decreases n - |a|
  {
    hide ColumnMeets, NoCounts, SumBy;
    if |a| == n {
      b := a;
    } else {
      var closed := Column(false, 0, NoCounts(options));
      ClosedMeets(options, f);
      var more := a + [closed];
      SumByLast(Ripped(f.kerf), a, closed);
      forall t: nat | t < |options| ensures SumBy(OfType(t), more) == SumBy(OfType(t), a) {
        SumByLast(OfType(t), a, closed);
      }
      forall k | 0 < k < |more| ensures more[k-1].width >= more[k].width {
        if k == |a| { assert a[k-1] in a; ClosedIsThin(a[k-1], options, f); }
      }
      b := Padded(more, n, options, f);
    }
  }

  lemma ClosedMeets(options: seq<seq<Orientation>>, f: Frame)
    requires f.across >= 0 && f.along >= 0
    ensures var c := Column(false, 0, NoCounts(options));
            ColumnMeets(c, options, f) && forall t: nat :: t < |options| ==> OfType(t)(c) == 0
  {
    var counts := NoCounts(options);
    NoStack(counts, options, f.kerf);
    forall t: nat | t < |options| ensures SumCounts(counts[t]) == 0 { NoSum(counts[t]); }
  }

  // ---- the model means patterns ---------------------------------------------------------------------

  /** A layout in columns of rows, of all the pieces if `all`. */
  ghost predicate IsPattern(ts: seq<Template>, f: Frame, groups: seq<seq<Piece>>, all: bool)
    requires f.unit > 0 && Grouped(groups)
  {
    && TemplatesMeet(ts, f, groups) && |ts| <= MAX_COLUMNS
    && (all ==> forall t: nat :: t < |groups| ==> CountKind(AllRows(ts), t) == |groups[t]|)
  }

  lemma PatternPermuted(ts: seq<Template>, us: seq<Template>, f: Frame, groups: seq<seq<Piece>>, all: bool)
    requires f.unit > 0 && Grouped(groups) && IsPattern(ts, f, groups, all) && multiset(us) == multiset(ts)
    ensures IsPattern(us, f, groups, all)
    ensures forall t: nat :: CountKind(AllRows(us), t) == CountKind(AllRows(ts), t)
  {
    hide TemplateMeets, SumBy, AllRows, CountKind;
    NothingElse(us, ts);
    forall t | t in us ensures TemplateMeets(t, f, groups) { assert t in multiset(ts); }
    SumByPermuted(Rip(f.kerf), us, ts);
    forall t: nat ensures CountKind(AllRows(us), t) == CountKind(AllRows(ts), t) {
      AllRowsCount(us, t);
      AllRowsCount(ts, t);
      SumByPermuted(KindIn(t), us, ts);
    }
    forall r | r in AllRows(us) ensures r.kind < |groups| { AllRowsFrom(us, f, groups, r); }
  }

  lemma HoldingMeets(a: seq<Column>, ts: seq<Template>, options: seq<seq<Orientation>>, f: Frame)
    requires AllHold(a, ts, options, f)
    ensures AllMeet(a, options, f) && |a| == |ts|
    ensures forall i :: 0 <= i < |a| ==> a[i].inUse && a[i].width == ts[i].width
  {
    hide ColumnMeets, Stacked, SumBy;
    forall c | c in a ensures ColumnMeets(c, options, f) {}
  }

  /** Every pattern is an assignment. */
  lemma PatternIsAssignment(ts: seq<Template>, f: Frame, groups: seq<seq<Piece>>, all: bool) returns (a: seq<Column>)
    requires RoundsUp(f) && Grouped(groups) && IsPattern(ts, f, groups, all)
    ensures MeetsModel(a, Options(f, groups), groups, f, all)
    ensures forall t: nat :: t < |groups| ==> SumBy(OfType(t), a) == CountKind(AllRows(ts), t)
  {
    hide TemplateMeets, SumBy, AllRows, CountKind, AllHold, Options, Slots, SortBy, ColumnMeets;
    var options, us := Options(f, groups), SortBy(TemplateFirst, ts);
    TemplateOrder();
    SortBySorts(TemplateFirst, ts);
    PatternPermuted(ts, us, f, groups, all);
    SlotsSuffice(us, f, groups);
    forall t | t in us ensures TemplateMeets(t, f, groups) && 0 <= t.width <= f.across { NoWider(us, f, groups, t); }
    var b := ColumnsFor(us, f, groups);
    HoldingMeets(b, us, options, f);
    a := Padded(b, Slots(options, f), options, f);
    forall t: nat | t < |groups| ensures SumBy(OfType(t), a) == CountKind(AllRows(ts), t) { AllRowsCount(us, t); }
  }

  /** Every assignment is a pattern. */
  lemma AssignmentIsPattern(a: seq<Column>, f: Frame, groups: seq<seq<Piece>>, all: bool)
    requires ValidFrame(f) && Grouped(groups) && MeetsModel(a, Options(f, groups), groups, f, all)
    ensures IsPattern(Templates(a, Options(f, groups)), f, groups, all)
  {
    hide TemplatesMeet, AllMeet, Options, Templates, CountKind, AllRows, Slots;
    ModelTemplates(a, Options(f, groups), groups, f, all);
    FewTemplates(a, Options(f, groups));
  }

  lemma FewTemplates(a: seq<Column>, options: seq<seq<Orientation>>)
    requires AllShaped(a, options)
    ensures |Templates(a, options)| <= |a|
  {
    hide RowsOf, SortBy, TemplateOf, Shaped;
    FewContents(a, options);
    NothingElse(Templates(a, options), MapBy(TemplateOf, Contents(a, options)));
  }

  lemma {:induction false} FewContents(a: seq<Column>, options: seq<seq<Orientation>>)
    requires AllShaped(a, options)
    ensures |MapBy(TemplateOf, Contents(a, options))| == |Contents(a, options)| <= |a|
  {
    hide RowsOf, Shaped, TemplateOf;
    if a != [] {
      assert a[|a|-1] in a;
      FewContents(a[..|a|-1], options);
    }
  }

  lemma {:induction false} SomeOfKind(rows: seq<Row>, kind: nat) returns (r: Row)
    requires CountKind(rows, kind) > 0
    ensures r in rows && r.kind == kind
  {
    var init, last := rows[..|rows|-1], rows[|rows|-1];
    assert rows == init + [last];
    if last.kind == kind { r := last; } else { r := SomeOfKind(init, kind); }
  }

  lemma {:induction false} TemplateWith(ts: seq<Template>, r: Row) returns (t: Template)
    requires r in AllRows(ts)
    ensures t in ts && r in t.rows
  {
    var init, last := ts[..|ts|-1], ts[|ts|-1];
    assert ts == init + [last];
    if r in last.rows { t := last; } else { t := TemplateWith(init, r); }
  }

  /** What a pattern holds may lie in the frame. */
  lemma AllMayLie(ts: seq<Template>, f: Frame, groups: seq<seq<Piece>>, kind: nat)
    requires ValidFrame(f) && Grouped(groups) && IsPattern(ts, f, groups, true) && kind < |groups|
    ensures MayLie(f, groups[kind][0])
  {
    hide TemplateMeets, CountKind, AllRows, SumBy, MayLie;
    var r := SomeOfKind(AllRows(ts), kind);
    var t := TemplateWith(ts, r);
    NoWider(ts, f, groups, t);
    RowIsListed(t, r, f, groups);
  }

  /** The constraints can be met exactly when the pieces can be laid out in columns of rows. */
  lemma ModelIsExact(f: Frame, groups: seq<seq<Piece>>, all: bool)
    requires RoundsUp(f) && Grouped(groups)
    ensures (exists a :: MeetsModel(a, Options(f, groups), groups, f, all)) <==>
            (exists ts :: IsPattern(ts, f, groups, all))
  {
    hide IsPattern, MeetsModel, Options;
    if ts :| IsPattern(ts, f, groups, all) {
      var a := PatternIsAssignment(ts, f, groups, all);
    }
    if a :| MeetsModel(a, Options(f, groups), groups, f, all) {
      AssignmentIsPattern(a, f, groups, all);
    }
  }

  // ---- the area constraint ------------------------------------------------------------------------------

  function KindArea(counts: seq<nat>, options: seq<Orientation>): int
    requires |counts| == |options|
  {
    if counts == [] then 0
    else
      var n := |counts| - 1;
      KindArea(counts[..n], options[..n]) + counts[n] * (options[n].across * options[n].along)
  }

  /** The area of the pieces in a column. */
  function CountsArea(counts: seq<seq<nat>>, options: seq<seq<Orientation>>): int
    requires Shaped(counts, options)
  {
    if counts == [] then 0
    else
      var n := |counts| - 1;
      CountsArea(counts[..n], options[..n]) + KindArea(counts[n], options[n])
  }

  /** What the rows of a type use of the length without the blades. */
  function KindLength(counts: seq<nat>, options: seq<Orientation>): int
    requires |counts| == |options|
  {
    if counts == [] then 0
    else
      var n := |counts| - 1;
      KindLength(counts[..n], options[..n]) + counts[n] * options[n].along
  }

  function CountsLength(counts: seq<seq<nat>>, options: seq<seq<Orientation>>): int
    requires Shaped(counts, options)
  {
    if counts == [] then 0
    else
      var n := |counts| - 1;
      CountsLength(counts[..n], options[..n]) + KindLength(counts[n], options[n])
  }

  /** A blade counts for every row: at least one if there is any. */
  lemma {:induction false} KindLengthIs(counts: seq<nat>, options: seq<Orientation>, kerf: nat)
    requires |counts| == |options|
    ensures StackedKind(counts, options, kerf) >= KindLength(counts, options)
            + if exists o :: 0 <= o < |counts| && counts[o] > 0 then kerf else 0
  {
    if counts != [] {
      var n := |counts| - 1;
      KindLengthIs(counts[..n], options[..n], kerf);
      OneRow(counts[n], options[n].along, kerf);
      assert forall o :: 0 <= o < n ==> counts[o] == counts[..n][o];
    }
  }

  lemma OneRow(n: nat, along: int, kerf: nat)
    ensures n * (along + kerf) >= n * along + if n > 0 then kerf else 0
  {
    assert n * (along + kerf) == n * along + n * kerf;
    if n > 0 { assert n * kerf >= 1 * kerf; }
  }

  predicate HoldsSome(counts: seq<nat>) {
    exists o :: 0 <= o < |counts| && counts[o] > 0
  }

  lemma {:induction false} CountsLengthIs(counts: seq<seq<nat>>, options: seq<seq<Orientation>>, kerf: nat)
    requires Shaped(counts, options)
    ensures Stacked(counts, options, kerf) >= CountsLength(counts, options)
            + if exists t :: 0 <= t < |counts| && HoldsSome(counts[t]) then kerf else 0
  {
    hide KindLength, StackedKind;
    if counts != [] {
      var n := |counts| - 1;
      CountsLengthIs(counts[..n], options[..n], kerf);
      KindLengthIs(counts[n], options[n], kerf);
      assert forall t :: 0 <= t < n ==> counts[t] == counts[..n][t];
    }
  }

  lemma Wide(n: nat, across: int, along: int, width: int)
    requires along >= 0 && (n > 0 ==> across <= width)
    ensures n * (across * along) <= Product(width, n * along)
  {
    if n > 0 {
      assert across * along <= width * along;
      assert n * (across * along) <= n * (width * along);
      assert n * (width * along) == width * (n * along);
    }
  }

  lemma {:induction false} KindAreaFits(counts: seq<nat>, options: seq<Orientation>, width: int)
    requires |counts| == |options| && forall o :: 0 <= o < |counts| ==> options[o].along >= 0
    requires forall o :: 0 <= o < |counts| && counts[o] > 0 ==> options[o].across <= width
    ensures KindArea(counts, options) <= Product(width, KindLength(counts, options))
  {
    hide Product;
    ProductOf(width);
    if counts != [] {
      var n := |counts| - 1;
      KindAreaFits(counts[..n], options[..n], width);
      Wide(counts[n], options[n].across, options[n].along, width);
      ProductAdds(KindLength(counts[..n], options[..n]), counts[n] * options[n].along, width);
    }
  }

  lemma {:induction false} CountsAreaFits(counts: seq<seq<nat>>, options: seq<seq<Orientation>>, width: int)
    requires Shaped(counts, options)
    requires forall t, o :: 0 <= t < |counts| && 0 <= o < |counts[t]| ==> options[t][o].along >= 0
    requires forall t, o ::
             0 <= t < |counts| && 0 <= o < |counts[t]| && counts[t][o] > 0 ==> options[t][o].across <= width
    ensures CountsArea(counts, options) <= Product(width, CountsLength(counts, options))
  {
    hide Product, KindArea, KindLength;
    ProductOf(width);
    if counts != [] {
      var n := |counts| - 1;
      CountsAreaFits(counts[..n], options[..n], width);
      KindAreaFits(counts[n], options[n], width);
      ProductAdds(CountsLength(counts[..n], options[..n]), KindLength(counts[n], options[n]), width);
    }
  }

  lemma {:induction false} NothingIn(counts: seq<seq<nat>>, options: seq<seq<Orientation>>)
    requires Shaped(counts, options) && forall t :: 0 <= t < |counts| ==> !HoldsSome(counts[t])
    ensures CountsArea(counts, options) == 0
  {
    if counts != [] {
      var n := |counts| - 1;
      NothingIn(counts[..n], options[..n]);
      NoneOfKind(counts[n], options[n]);
    }
  }

  lemma {:induction false} NoneOfKind(counts: seq<nat>, options: seq<Orientation>)
    requires |counts| == |options| && !HoldsSome(counts)
    ensures KindArea(counts, options) == 0
  {
    if counts != [] { NoneOfKind(counts[..|counts|-1], options[..|counts|-1]); }
  }

  function AreaIn(options: seq<seq<Orientation>>): Column -> int {
    (c: Column) => if Shaped(c.counts, options) then CountsArea(c.counts, options) else 0
  }

  function WidthOf(c: Column): int {
    c.width
  }

  predicate NoneNegative(options: seq<seq<Orientation>>) {
    forall t, o :: 0 <= t < |options| && 0 <= o < |options[t]| ==> options[t][o].along >= 0
  }

  lemma ColumnAreaFits(c: Column, options: seq<seq<Orientation>>, f: Frame)
    requires ColumnMeets(c, options, f) && f.along >= 0 && NoneNegative(options)
    ensures AreaIn(options)(c) <= Product(c.width, f.along)
  {
    hide CountsArea, Stacked, CountsLength, Product, HoldsSome;
    ProductOf(f.along);
    if exists t :: 0 <= t < |c.counts| && HoldsSome(c.counts[t]) {
      CountsAreaFits(c.counts, options, c.width);
      CountsLengthIs(c.counts, options, f.kerf);
      ProductGrows(CountsLength(c.counts, options), f.along, c.width);
    } else {
      NothingIn(c.counts, options);
      ProductGrows(0, c.width, f.along);
    }
  }

  lemma {:induction false} ColumnsAreaFits(a: seq<Column>, options: seq<seq<Orientation>>, f: Frame)
    requires AllMeet(a, options, f) && f.along >= 0 && NoneNegative(options)
    ensures SumBy(AreaIn(options), a) <= Product(SumBy(WidthOf, a), f.along)
  {
    hide ColumnMeets, AreaIn, Product;
    ProductOf(f.along);
    if a != [] {
      var init, c := a[..|a|-1], a[|a|-1];
      assert c in a && forall d :: d in init ==> d in a;
      ColumnsAreaFits(init, options, f);
      ColumnAreaFits(c, options, f);
      ProductAdds(SumBy(WidthOf, init), c.width, f.along);
    }
  }

  /** Every open slot counts a blade, and a closed one has no width. */
  lemma {:induction false} WidthsWithout(a: seq<Column>, options: seq<seq<Orientation>>, f: Frame)
    requires AllMeet(a, options, f)
    ensures SumBy(WidthOf, a) >= 0
    ensures SumBy(WidthOf, a) == SumBy(Ripped(f.kerf), a) == 0 || SumBy(WidthOf, a) + f.kerf <= SumBy(Ripped(f.kerf), a)
  {
    hide ColumnMeets;
    if a != [] {
      var init, c := a[..|a|-1], a[|a|-1];
      assert c in a && forall d :: d in init ==> d in a;
      WidthsWithout(init, options, f);
      ClosedIsThin(c, options, f);
    }
  }

  lemma ClosedIsThin(c: Column, options: seq<seq<Orientation>>, f: Frame)
    requires ColumnMeets(c, options, f)
    ensures c.width >= 0 && (!c.inUse ==> c.width == 0)
  {
  }

  lemma OptionsAreLong(f: Frame, groups: seq<seq<Piece>>)
    requires RoundsUp(f) && Grouped(groups)
    ensures NoneNegative(Options(f, groups))
  {
    var options: seq<seq<Orientation>> := Options(f, groups);
    forall t, o | 0 <= t < |options| && 0 <= o < |options[t]| ensures options[t][o].along >= 0 {
      assert options[t][o] in Orientations(f, groups[t][0]);
      assert groups[t][0] in groups[t];
    }
  }

  /** The constraint that the pieces' area fits the bin follows from the others. */
  lemma AreaIsRedundant(a: seq<Column>, f: Frame, groups: seq<seq<Piece>>, all: bool)
    requires RoundsUp(f) && Grouped(groups) && MeetsModel(a, Options(f, groups), groups, f, all)
    ensures SumBy(AreaIn(Options(f, groups)), a) <= Product(f.across, f.along)
  {
    hide AllMeet, AreaIn, Product, Options, Slots, SumBy;
    OptionsAreLong(f, groups);
    ColumnsAreaFits(a, Options(f, groups), f);
    WidthsWithout(a, Options(f, groups), f);
    ProductGrows(SumBy(WidthOf, a), f.across, f.along);
  }
}
