/**
The reconstruction of exact3.py as a whole: one assignment over several bins, laid
out bin by bin with every piece of the pool placed exactly once.

exact3.py means to round pieces and blade up, but truncates them. Rounded up, every
layout is sound; truncated, every piece is still placed exactly once, and the layout is
sound when pieces and blade are whole units. Truncation.dfy shows that it need not be
sound otherwise.
*/
module Exact3 {
  import opened Arithmetic
  import opened Geometry
  import opened Guillotine
  import opened Plans
  import opened Sequences
  import opened Sheets
  import opened Constructors
  import opened Strips
  import opened Rounding
  import opened ExactModel
  import opened ExactColumns
  import opened ExactBinding
  import opened ExactLayout
  import opened Exact
  import opened TowerLayout
  import opened TowerModel
  import opened TowerColumns

  // ---- bound strips ------------------------------------------------------------------------

  ghost predicate Binds(c: BoundColumn, t: Template, groups: seq<seq<Piece>>) {
    c.width == t.width && exists earlier ::
        Enough(earlier + t.rows, groups) && c.rows == BindRows(earlier, t.rows, groups)
  }

  lemma {:induction false} BindColumnsAt(ts: seq<Template>, groups: seq<seq<Piece>>)
    requires Enough(AllRows(ts), groups)
    ensures AllBind(BindColumns(ts, groups), ts, groups)
  {
    hide Enough, BindRows, BindColumns;
    if ts != [] {
      var init, last := ts[..|ts|-1], ts[|ts|-1];
      LastColumnBound(ts, groups);
      BindColumnsAt(init, groups);
    }
  }

  lemma {:induction false} SameUse(f: Frame, g: Frame, rows: seq<Bound>)
    requires f.kerf == g.kerf
    ensures Used(f, rows) == Used(g, rows)
  {
    if rows != [] { SameUse(f, g, rows[..|rows|-1]); }
  }

  /** A strip bound to pieces fits its column wherever the column stands. */
  lemma BoundStripFits(c: BoundColumn, s: Template, f: Frame, groups: seq<seq<Piece>>, across: int, width: int)
    requires f.unit > 0 && Grouped(groups) && TemplateMeets(s, StripFrame(f), groups)
    requires Binds(c, s, groups) && Span(f.kerf, s) <= width
    ensures Least(f) <= c.width && RowsFit(Turned(f, across, width), c.width, c.rows)
  {
    hide Enough, BindRows;
    var earlier :| Enough(earlier + s.rows, groups) && c.rows == BindRows(earlier, s.rows, groups);
    BoundRowsFit(s, earlier, StripFrame(f), groups);
    SameUse(StripFrame(f), Turned(f, across, width), c.rows);
    UsedIsPitch(Turned(f, across, width), c.rows, s.rows);
  }

  lemma {:induction false} StripsUse(bound: seq<BoundColumn>, ts: seq<Template>, f: Frame, across: int, width: int)
    requires |bound| == |ts| && forall i :: 0 <= i < |ts| ==> bound[i].width == ts[i].width
    ensures UsedAcross(Turned(f, across, width), bound) == SumBy(Rip(f.kerf), ts)
  {
    if ts != [] { StripsUse(bound[..|bound|-1], ts[..|ts|-1], f, across, width); }
  }

  lemma BoundTowerFits(t: TowerTemplate, bound: seq<BoundColumn>, f: Frame, groups: seq<seq<Piece>>)
    requires f.unit > 0 && Grouped(groups) && TowerMeets(t, f, groups)
    requires |bound| == |t.strips| && forall i :: 0 <= i < |bound| ==> Binds(bound[i], t.strips[i], groups)
    ensures TowerFits(f, Tower(t.width, bound))
  {
    hide TemplateMeets, Span, RowsFit, UsedAcross, SumBy;
    forall across: int ensures ColumnsFit(Turned(f, across, t.width), bound) {
      UnitOfTurned(f, across, t.width);
      StripsUse(bound, t.strips, f, across, t.width);
      forall c | c in bound ensures Least(f) <= c.width && RowsFit(Turned(f, across, t.width), c.width, c.rows) {
        var i :| 0 <= i < |bound| && bound[i] == c;
        assert t.strips[i] in t.strips;
        BoundStripFits(c, t.strips[i], f, groups, across, t.width);
      }
    }
  }

  lemma UnitOfTurned(f: Frame, across: int, width: int)
    ensures var g := Turned(f, across, width); g.unit == f.unit && g.kerf == f.kerf && g.across == f.along
  {
  }

  // ---- dealing the bound strips out -------------------------------------------------------------

  /** The columns of one bin with their strips, dealt in order. */
  function Regroup(ts: seq<TowerTemplate>, bound: seq<BoundColumn>): (towers: seq<Tower>)
    requires |bound| == |AllStrips(ts)|
    ensures |towers| == |ts| && StripsOf(towers) == bound
    ensures forall i :: 0 <= i < |ts| ==> towers[i].width == ts[i].width
  {
    if ts == [] then []
    else
      var init, last := ts[..|ts|-1], ts[|ts|-1];
      var m := |AllStrips(init)|;
      var before := Regroup(init, bound[..m]);
      var towers := before + [Tower(last.width, bound[m..])];
      assert towers[..|towers|-1] == before && bound == bound[..m] + bound[m..];
      towers
  }

  /** `bound` are bindings of these strips, one by one. */
  ghost predicate AllBind(bound: seq<BoundColumn>, ts: seq<Template>, groups: seq<seq<Piece>>) {
    |bound| == |ts| && forall i :: 0 <= i < |ts| ==> Binds(bound[i], ts[i], groups)
  }

  lemma BindSplit(bound: seq<BoundColumn>, a: seq<Template>, b: seq<Template>, groups: seq<seq<Piece>>)
    requires AllBind(bound, a + b, groups)
    ensures AllBind(bound[..|a|], a, groups) && AllBind(bound[|a|..], b, groups)
  {
    hide Binds;
    forall i | 0 <= i < |a| ensures Binds(bound[..|a|][i], a[i], groups) { assert (a + b)[i] == a[i]; }
    forall i | 0 <= i < |b| ensures Binds(bound[|a|..][i], b[i], groups) { assert (a + b)[|a| + i] == b[i]; }
  }

  lemma RegroupLast(ts: seq<TowerTemplate>, bound: seq<BoundColumn>)
    requires ts != [] && |bound| == |AllStrips(ts)|
    ensures var init, last := ts[..|ts|-1], ts[|ts|-1];
            && AllStrips(ts) == AllStrips(init) + last.strips && |AllStrips(init)| <= |bound|
            && Regroup(ts, bound) ==
               Regroup(init, bound[..|AllStrips(init)|]) + [Tower(last.width, bound[|AllStrips(init)|..])]
  {
  }

  lemma AsWidthsLast(f: Frame, towers: seq<Tower>, t: Tower)
    ensures UsedAcross(f, AsWidths(towers + [t])) == UsedAcross(f, AsWidths(towers)) + t.width + f.kerf
  {
    var columns := AsWidths(towers + [t]);
    assert columns[..|towers|] == AsWidths(towers);
  }

  lemma {:induction false} RegroupFits(ts: seq<TowerTemplate>, bound: seq<BoundColumn>, f: Frame,
                                       groups: seq<seq<Piece>>)
    requires f.unit > 0 && Grouped(groups) && AllBind(bound, AllStrips(ts), groups)
    requires forall t :: t in ts ==> TowerMeets(t, f, groups)
    ensures forall t :: t in Regroup(ts, bound) ==> TowerFits(f, t)
    ensures UsedAcross(f, AsWidths(Regroup(ts, bound))) == SumBy(TowerRip(f.kerf), ts)
  {
    hide Binds, TowerMeets, TowerFits, AllStrips, Regroup, UsedAcross, AsWidths;
    if ts == [] {
      NothingRegrouped(ts, f, bound);
    } else {
      var init, last := ts[..|ts|-1], ts[|ts|-1];
      assert last in ts && forall t :: t in init ==> t in ts;
      RegroupLast(ts, bound);
      BindSplit(bound, AllStrips(init), last.strips, groups);
      var before, tower := bound[..|AllStrips(init)|], Tower(last.width, bound[|AllStrips(init)|..]);
      RegroupFits(init, before, f, groups);
      BoundTowerFits(last, tower.strips, f, groups);
      AsWidthsLast(f, Regroup(init, before), tower);
    }
  }

  lemma NothingRegrouped(ts: seq<TowerTemplate>, f: Frame, bound: seq<BoundColumn>)
    requires ts == [] && |bound| == |AllStrips(ts)|
    ensures Regroup(ts, bound) == [] && UsedAcross(f, AsWidths([])) == 0
  {
  }

  function BinStrips(bins: seq<seq<TowerTemplate>>): seq<Template> {
    if bins == [] then [] else BinStrips(bins[..|bins|-1]) + AllStrips(bins[|bins|-1])
  }

  function AllTowers(bins: seq<seq<Tower>>): seq<BoundColumn> {
    if bins == [] then [] else AllTowers(bins[..|bins|-1]) + StripsOf(bins[|bins|-1])
  }

  /** Bin by bin. */
  function Deal(bins: seq<seq<TowerTemplate>>, bound: seq<BoundColumn>): (dealt: seq<seq<Tower>>)
    requires |bound| == |BinStrips(bins)|
    ensures |dealt| == |bins| && AllTowers(dealt) == bound
  {
    if bins == [] then []
    else
      var init, last := bins[..|bins|-1], bins[|bins|-1];
      var m := |BinStrips(init)|;
      var before := Deal(init, bound[..m]);
      var dealt := before + [Regroup(last, bound[m..])];
      assert dealt[..|dealt|-1] == before && bound == bound[..m] + bound[m..];
      dealt
  }

  lemma DealLast(bins: seq<seq<TowerTemplate>>, bound: seq<BoundColumn>)
    requires bins != [] && |bound| == |BinStrips(bins)|
    ensures var init, last := bins[..|bins|-1], bins[|bins|-1];
            && BinStrips(bins) == BinStrips(init) + AllStrips(last) && |BinStrips(init)| <= |bound|
            && Deal(bins, bound) == Deal(init, bound[..|BinStrips(init)|]) + [Regroup(last, bound[|BinStrips(init)|..])]
  {
    hide Regroup;
  }

  /** Everything fits after dealing. */
  lemma {:induction false} DealFits(bins: seq<seq<TowerTemplate>>, bound: seq<BoundColumn>, frames: seq<Frame>,
                                    groups: seq<seq<Piece>>)
    requires Grouped(groups) && AllBind(bound, BinStrips(bins), groups) && |frames| == |bins|
    requires forall b :: 0 <= b < |bins| ==> frames[b].unit > 0 && BinTowers(bins[b], frames[b], groups)
    ensures forall b :: 0 <= b < |bins| ==> TowersFit(frames[b], Deal(bins, bound)[b])
  {
    hide Binds, TowerMeets, TowerFits, Regroup, Deal, BinStrips, AllStrips, AllBind, UsedAcross;
    if bins != [] {
      var n := |bins| - 1;
      DealLast(bins, bound) by { BoundLength(bound, BinStrips(bins), groups); }
      BindSplit(bound, BinStrips(bins[..n]), AllStrips(bins[n]), groups);
      DealFits(bins[..n], bound[..|BinStrips(bins[..n])|], frames[..n], groups);
      RegroupFits(bins[n], bound[|BinStrips(bins[..n])|..], frames[n], groups);
    }
  }

  lemma BoundLength(bound: seq<BoundColumn>, ts: seq<Template>, groups: seq<seq<Piece>>)
    requires AllBind(bound, ts, groups)
    ensures |bound| == |ts|
  {
  }

  // ---- several bins at once ------------------------------------------------------------------------

  function TypeTotal(bins: seq<seq<Pile>>, t: nat): int {
    if bins == [] then 0 else TypeTotal(bins[..|bins|-1], t) + SumBy(PileType(t), bins[|bins|-1])
  }

  predicate ValidFrames(frames: seq<Frame>) {
    forall f :: f in frames ==> ValidFrame(f)
  }

  /** What any answer satisfies: every bin its own constraints, and every piece once. */
  predicate MeetsTowers(bins: seq<seq<Pile>>, frames: seq<Frame>, groups: seq<seq<Piece>>)
    requires ValidFrames(frames) && Grouped(groups)
  {
    && |bins| == |frames|
    && (forall b :: 0 <= b < |bins| ==>
          assert frames[b] in frames; BinMeets(bins[b], Options(StripFrame(frames[b]), groups), frames[b]))
    && (forall t :: 0 <= t < |groups| ==> TypeTotal(bins, t) == |groups[t]|)
  }

  /** Every pile's rows have the shape of the options. */
  ghost predicate BinShaped(piles: seq<Pile>, options: seq<seq<Orientation>>) {
    forall p :: p in piles ==> AllShaped(p.rows, options)
  }

  ghost predicate Readable(bins: seq<seq<Pile>>, frames: seq<Frame>, groups: seq<seq<Piece>>) {
    && ValidFrames(frames) && Grouped(groups) && |bins| == |frames|
    && forall b :: 0 <= b < |bins| ==>
         assert frames[b] in frames; BinShaped(bins[b], Options(StripFrame(frames[b]), groups))
  }

  ghost function ReadBins(bins: seq<seq<Pile>>, frames: seq<Frame>,
                          groups: seq<seq<Piece>>): (r: seq<seq<TowerTemplate>>)
    requires Readable(bins, frames, groups)
    ensures |r| == |bins|
    ensures forall b :: 0 <= b < |bins| ==>
      assert frames[b] in frames; r[b] == TowersOf(frames[b].kerf, bins[b], Options(StripFrame(frames[b]), groups))
  {
    seq(|bins|, b requires 0 <= b < |bins| =>
      assert frames[b] in frames; TowersOf(frames[b].kerf, bins[b], Options(StripFrame(frames[b]), groups)))
  }

  lemma {:induction false} TowerKinds(ts: seq<TowerTemplate>, kind: nat)
    ensures SumBy(KindIn(kind), AllStrips(ts)) == SumBy(KindInTower(kind), ts)
  {
    if ts != [] {
      TowerKinds(ts[..|ts|-1], kind);
      SumByConcat(KindIn(kind), AllStrips(ts[..|ts|-1]), ts[|ts|-1].strips);
    }
  }

  lemma {:induction false} BinKinds(read: seq<seq<TowerTemplate>>, bins: seq<seq<Pile>>, kind: nat)
    requires |read| == |bins|
    requires forall b :: 0 <= b < |bins| ==> SumBy(KindInTower(kind), read[b]) == SumBy(PileType(kind), bins[b])
    ensures SumBy(KindIn(kind), BinStrips(read)) == TypeTotal(bins, kind)
  {
    hide KindInTower, PileType, KindIn;
    if bins != [] {
      var n := |bins| - 1;
      BinKinds(read[..n], bins[..n], kind);
      TowerKinds(read[n], kind);
      SumByConcat(KindIn(kind), BinStrips(read[..n]), AllStrips(read[n]));
    }
  }

  lemma {:induction false} StripRow(ts: seq<Template>, r: Row) returns (t: Template)
    requires r in AllRows(ts)
    ensures t in ts && r in t.rows
  {
    var init, last := ts[..|ts|-1], ts[|ts|-1];
    if r in AllRows(init) { t := StripRow(init, r); } else { t := last; }
  }

  lemma {:induction false} StripFromBin(read: seq<seq<TowerTemplate>>, s: Template) returns (b: nat)
    requires s in BinStrips(read)
    ensures b < |read| && s in AllStrips(read[b])
  {
    var n := |read| - 1;
    if s in BinStrips(read[..n]) { b := StripFromBin(read[..n], s); } else { b := n; }
  }

  lemma {:induction false} StripFromTower(ts: seq<TowerTemplate>, s: Template) returns (t: TowerTemplate)
    requires s in AllStrips(ts)
    ensures t in ts && s in t.strips
  {
    var init, last := ts[..|ts|-1], ts[|ts|-1];
    if s in AllStrips(init) { t := StripFromTower(init, s); } else { t := last; }
  }

  lemma RowKind(r: Row, s: Template, f: Frame, groups: seq<seq<Piece>>)
    requires f.unit > 0 && Grouped(groups) && TemplateMeets(s, f, groups) && r in s.rows
    ensures r.kind < |groups|
  {
  }

  /** What the constraints say of the columns as read back, in all bins. */
  lemma TowersAreRead(bins: seq<seq<Pile>>, frames: seq<Frame>, groups: seq<seq<Piece>>)
    requires ValidFrames(frames) && Grouped(groups) && groups != [] && MeetsTowers(bins, frames, groups)
    ensures Readable(bins, frames, groups)
    ensures var read := ReadBins(bins, frames, groups);
            && (forall b :: 0 <= b < |bins| ==> frames[b].unit > 0 && BinTowers(read[b], frames[b], groups))
            && Enough(AllRows(BinStrips(read)), groups)
            && (forall t: nat :: t < |groups| ==> CountKind(AllRows(BinStrips(read)), t) == |groups[t]|)
  {
    hide BinMeets, TowersOf, Options, TowerMeets, TemplateMeets, KindInTower, PileType, TypeTotal, CountKind, AllRows,
         BinStrips;
    forall b | 0 <= b < |bins|
      ensures frames[b].unit > 0 && BinShaped(bins[b], Options(StripFrame(frames[b]), groups))
    {
      assert frames[b] in frames;
      BinIsRead(bins[b], Options(StripFrame(frames[b]), groups), frames[b], groups, 0);
    }
    var read := ReadBins(bins, frames, groups);
    forall b | 0 <= b < |bins| ensures BinTowers(read[b], frames[b], groups) {
      assert frames[b] in frames;
      BinIsRead(bins[b], Options(StripFrame(frames[b]), groups), frames[b], groups, 0);
    }
    var strips := BinStrips(read);
    forall t: nat | t < |groups| ensures CountKind(AllRows(strips), t) == |groups[t]| {
      forall b | 0 <= b < |bins| ensures SumBy(KindInTower(t), read[b]) == SumBy(PileType(t), bins[b]) {
        assert frames[b] in frames;
        BinIsRead(bins[b], Options(StripFrame(frames[b]), groups), frames[b], groups, t);
      }
      BinKinds(read, bins, t);
      AllRowsCount(strips, t);
    }
    forall r | r in AllRows(strips) ensures r.kind < |groups| { KnownKind(r, read, frames, groups); }
  }

  lemma KnownKind(r: Row, read: seq<seq<TowerTemplate>>, frames: seq<Frame>, groups: seq<seq<Piece>>)
    requires Grouped(groups) && |read| == |frames|
    requires forall b :: 0 <= b < |read| ==> frames[b].unit > 0 && BinTowers(read[b], frames[b], groups)
    requires r in AllRows(BinStrips(read))
    ensures r.kind < |groups|
  {
    hide TemplateMeets;
    var s := StripRow(BinStrips(read), r);
    var b := StripFromBin(read, s);
    var t := StripFromTower(read[b], s);
    RowKind(r, s, StripFrame(frames[b]), groups);
  }

  // ---- soundness ---------------------------------------------------------------------------------------

  /** The bins the job asks for: size, and which way the columns run. */
  datatype BinShape = BinShape(width: int, height: int, transposed: bool)

  /** The frame as exact3.py makes it: bin, pieces and blade all truncated. */
  function TruncatedFrame(s: BinShape, p: Params, unit: int): Frame
    requires unit > 0
  {
    assert p.kerf / unit >= 0;
    FrameOf(s.width, s.height, p, unit, s.transposed).(kerf := Down(p.kerf, unit), truncates := true)
  }

  function FramesOf(shapes: seq<BinShape>, p: Params, unit: int): (r: seq<Frame>)
    requires unit > 0
    ensures |r| == |shapes| && forall b :: 0 <= b < |r| ==> r[b] == TruncatedFrame(shapes[b], p, unit)
  {
    seq(|shapes|, b requires 0 <= b < |shapes| => TruncatedFrame(shapes[b], p, unit))
  }

  /** The frames as exact3.py means to make them. */
  function RoundedFrames(shapes: seq<BinShape>, p: Params, unit: int): (r: seq<Frame>)
    requires unit > 0
    ensures |r| == |shapes|
    ensures forall b ::
            0 <= b < |r| ==> r[b] == FrameOf(shapes[b].width, shapes[b].height, p, unit, shapes[b].transposed)
  {
    seq(|shapes|, b requires 0 <= b < |shapes| => FrameOf(shapes[b].width, shapes[b].height, p, unit,
                                                          shapes[b].transposed))
  }

  /** With a whole blade the two differ in the slots of pieces only. */
  lemma WholeBladeFrame(s: BinShape, p: Params, unit: int)
    requires unit > 0 && p.kerf % unit == 0
    ensures TruncatedFrame(s, p, unit).(truncates := false) == FrameOf(s.width, s.height, p, unit, s.transposed)
  {
    UpExact(p.kerf, unit);
  }

  predicate WholePieces(ps: seq<Piece>, unit: int)
    requires unit > 0
  {
    forall q :: q in ps ==> q.width % unit == 0 && q.height % unit == 0
  }

  lemma AllTowerFit(f: Frame, towers: seq<Tower>)
    requires f.unit > 0 && TowersFit(f, towers)
    ensures forall t :: t in towers ==> TowerFits(f, t)
  {
    hide TowerFits;
  }

  /** One bin, rounded as documented: pieces and leftovers can all be cut, whatever the
      lengths. */
  lemma TowersAreSound(towers: seq<Tower>, s: BinShape, p: Params, unit: int, minRect: int)
    requires unit > 0
    requires var f := FrameOf(s.width, s.height, p, unit, s.transposed); ValidFrame(f) && TowersFit(f, towers)
    ensures var fill := WholeTowers(FrameOf(s.width, s.height, p, unit, s.transposed), towers, minRect);
            && Cuttable(UsableBounds(s.width, s.height, p), BoxesOf(fill.placed) + fill.remainders, p.kerf)
            && Carries(fill.placed, PiecesIn(StripsOf(towers)))
  {
    hide Frees, Offcuts, PlanOf, TowersFill, SheetCursor, TowerFits, Shrunk, StripsOf, TowersFit;
    var f := FrameOf(s.width, s.height, p, unit, s.transposed);
    AllTowerFit(f, towers);
    var fill := WholeTowers(f, towers, minRect);
    TowerPieces(f, towers, minRect);
    assert fill.placed == TowersFill(f, towers, minRect).placed;
    var t := TowersRealize(f, towers, minRect, Config(f.kerf, 0, 0));
    SlotsShrink(fill.placed, unit);
    LegalSolid(fill.placed);
    RoundedLayoutIsSound(t, FrameBounds(f), BoxesOf(Rounded(fill.placed, unit)), f.kerf,
                         UsableBounds(s.width, s.height, p), BoxesOf(fill.placed), fill.remainders, p.kerf);
  }

  // ---- whole units ----------------------------------------------------------------------------------

  lemma WholeSlot(f: Frame, q: Piece, rotated: bool)
    requires f.unit > 0 && q.width % f.unit == 0 && q.height % f.unit == 0
    ensures SlotFor(f, q, rotated) == SlotFor(f.(truncates := false), q, rotated)
  {
    UpExact(q.width, f.unit);
    UpExact(q.height, f.unit);
  }

  lemma WholeTemplate(t: Template, f: Frame, groups: seq<seq<Piece>>)
    requires f.unit > 0 && Grouped(groups) && TemplateMeets(t, f, groups) && WholeGroups(groups, f.unit)
    ensures TemplateMeets(t, f.(truncates := false), groups)
  {
    var g := f.(truncates := false);
    forall r | r in t.rows ensures RowMeets(r, g, groups) && r.across > 0 {
      assert RowMeets(r, f, groups);
      assert groups[r.kind][0] in groups[r.kind];
      WholeSlot(f, groups[r.kind][0], r.rotated);
    }
    assert t.rows[0] in t.rows;
  }

  /** The first of every group, and so all of it, is whole units. */
  predicate WholeGroups(groups: seq<seq<Piece>>, unit: int)
    requires unit > 0 && Grouped(groups)
  {
    forall t :: 0 <= t < |groups| ==> groups[t][0].width % unit == 0 && groups[t][0].height % unit == 0
  }

  lemma {:induction false} FlattenHas(groups: seq<seq<Piece>>, t: nat)
    requires t < |groups| && groups[t] != []
    ensures groups[t][0] in Flatten(groups)
  {
    if t < |groups| - 1 { FlattenHas(groups[..|groups|-1], t); }
  }

  lemma WholeFlatten(groups: seq<seq<Piece>>, unit: int)
    requires unit > 0 && Grouped(groups) && WholePieces(Flatten(groups), unit)
    ensures WholeGroups(groups, unit)
  {
    forall t | 0 <= t < |groups|
      ensures groups[t][0].width % unit == 0 && groups[t][0].height % unit == 0 { FlattenHas(groups, t); }
  }

  /** For whole units what is read back meets the documented frame too. */
  lemma WholeColumnMeets(t: TowerTemplate, f: Frame, groups: seq<seq<Piece>>)
    requires f.unit > 0 && Grouped(groups) && TowerMeets(t, f, groups) && WholeGroups(groups, f.unit)
    ensures TowerMeets(t, f.(truncates := false), groups)
  {
    hide TemplateMeets, Span, SumBy;
    var g := f.(truncates := false);
    assert StripFrame(g) == StripFrame(f).(truncates := false);
    forall s | s in t.strips
      ensures TemplateMeets(s, StripFrame(g), groups) { WholeTemplate(s, StripFrame(f), groups); }
    assert t.strips[0] in t.strips;
    SpanPositive(t.strips[0], StripFrame(g), groups, f.kerf);
  }

  lemma PlacesIgnore(f: Frame, along: int, across: int, alongLen: int, acrossLen: int, h: bool)
    ensures var g := f.(truncates := false);
            && Slot(g, along, across, alongLen, acrossLen) == Slot(f, along, across, alongLen, acrossLen)
            && CutAt(g, along, across, alongLen, h) == CutAt(f, along, across, alongLen, h)
  {
  }

  lemma RowIgnores(f: Frame, along: int, across: int, width: int, b: Bound, minRect: int)
    ensures RowFill(f.(truncates := false), along, across, width, b, minRect) ==
            RowFill(f, along, across, width, b, minRect)
  {
    hide Slot, CutAt, Kept;
    var side := width - b.row.across;
    PlacesIgnore(f, along, across + b.row.across + f.kerf, b.row.along, side - f.kerf, f.transposed);
    PlacesIgnore(f, along, across + b.row.across, b.row.along, 0, f.transposed);
  }

  lemma CrosscutIgnores(f: Frame, at: int, across: int, width: int)
    ensures Crosscut(f.(truncates := false), at, across, width) == Crosscut(f, at, across, width)
  {
  }

  /** The layout itself looks at slots, not at how they were rounded. */
  lemma {:induction false} ColumnIgnores(f: Frame, across: int, width: int, rows: seq<Bound>, minRect: int)
    ensures var g := f.(truncates := false);
            && ColumnCursor(g, rows) == ColumnCursor(f, rows)
            && ColumnFill(g, across, width, rows, minRect) == ColumnFill(f, across, width, rows, minRect)
  {
    hide RowFill, Crosscut, Append;
    if rows != [] {
      var init, b := rows[..|rows|-1], rows[|rows|-1];
      ColumnIgnores(f, across, width, init, minRect);
      RowIgnores(f, ColumnCursor(f, init), across, width, b, minRect);
      CrosscutIgnores(f, ColumnCursor(f, init) + b.row.along, across, width);
    }
  }

  lemma WholeIgnores(f: Frame, across: int, c: BoundColumn, minRect: int)
    ensures WholeColumn(f.(truncates := false), across, c, minRect) == WholeColumn(f, across, c, minRect)
  {
    hide ColumnFill, ColumnCursor, ColumnTail, Append;
    ColumnIgnores(f, across, c.width, c.rows, minRect);
    TailIgnores(f, ColumnCursor(f, c.rows), across, c.width, minRect);
  }

  lemma TailIgnores(f: Frame, along: int, across: int, width: int, minRect: int)
    ensures var g := f.(truncates := false);
            && ColumnTail(g, along, across, width, minRect) == ColumnTail(f, along, across, width, minRect)
            && RipCut(g, across) == RipCut(f, across) && SheetTail(g, across, minRect) == SheetTail(f, across, minRect)
  {
    hide Slot, CutAt, Kept;
    PlacesIgnore(f, along, across, f.along - along, width, f.transposed);
    PlacesIgnore(f, 0, across, f.along, f.across - across, f.transposed);
  }

  lemma {:induction false} SheetIgnores(f: Frame, columns: seq<BoundColumn>, minRect: int)
    ensures var g := f.(truncates := false);
            SheetCursor(g, columns) == SheetCursor(f, columns)
                && SheetFill(g, columns, minRect) == SheetFill(f, columns, minRect)
  {
    hide WholeColumn, RipCut, Append;
    if columns != [] {
      var init, c := columns[..|columns|-1], columns[|columns|-1];
      SheetIgnores(f, init, minRect);
      WholeIgnores(f, SheetCursor(f, init), c, minRect);
      TailIgnores(f, 0, SheetCursor(f, init) + c.width, 0, minRect);
    }
  }

  lemma WholeSheetIgnores(f: Frame, columns: seq<BoundColumn>, minRect: int)
    ensures WholeSheet(f.(truncates := false), columns, minRect) == WholeSheet(f, columns, minRect)
  {
    hide SheetFill, SheetCursor, SheetTail, Append;
    SheetIgnores(f, columns, minRect);
    TailIgnores(f, 0, SheetCursor(f, columns), 0, minRect);
  }

  lemma {:induction false} TowersIgnore(f: Frame, towers: seq<Tower>, minRect: int)
    ensures TowersFill(f.(truncates := false), towers, minRect) == TowersFill(f, towers, minRect)
  {
    hide WholeSheet, SheetCursor, RipCut, Append;
    if towers != [] {
      var init, t := towers[..|towers|-1], towers[|towers|-1];
      TowersIgnore(f, init, minRect);
      SheetIgnores(f, AsWidths(init), minRect);
      var across := SheetCursor(f, AsWidths(init));
      WholeSheetIgnores(Turned(f, across, t.width), t.strips, minRect);
      TailIgnores(f, 0, across + t.width, 0, minRect);
    }
  }

  lemma WholeTowersIgnore(f: Frame, towers: seq<Tower>, minRect: int)
    ensures WholeTowers(f.(truncates := false), towers, minRect) == WholeTowers(f, towers, minRect)
  {
    hide TowersFill, SheetCursor, SheetTail, Append;
    TowersIgnore(f, towers, minRect);
    SheetIgnores(f, AsWidths(towers), minRect);
    TailIgnores(f, 0, SheetCursor(f, AsWidths(towers)), 0, minRect);
  }

  // ---- the reconstruction -------------------------------------------------------------------------------

  /** Sheets the saw can make that together use every piece of the pool once. */
  ghost predicate SoundBins(fills: seq<BinFill>, shapes: seq<BinShape>, p: Params, pool: seq<Piece>) {
    && |fills| == |shapes|
    && (forall b :: 0 <= b < |fills| ==>
          && Cuttable(UsableBounds(shapes[b].width, shapes[b].height, p),
                      BoxesOf(fills[b].placed) + fills[b].remainders, p.kerf)
          && forall q :: q in fills[b].placed ==> Legal(q) && ValidPiece(q.piece))
    && multiset(PiecesOver(fills)) == multiset(pool)
  }

  function PiecesOver(fills: seq<BinFill>): seq<Piece> {
    if fills == [] then [] else PiecesOver(fills[..|fills|-1]) + PiecesOf(fills[|fills|-1].placed)
  }

  function Laid(dealt: seq<seq<Tower>>, frames: seq<Frame>, minRect: int): (r: seq<BinFill>)
    requires |dealt| == |frames|
    ensures |r| == |dealt| && forall b :: 0 <= b < |r| ==> r[b] == WholeTowers(frames[b], dealt[b], minRect)
  {
    seq(|dealt|, b requires 0 <= b < |dealt| => WholeTowers(frames[b], dealt[b], minRect))
  }

  lemma {:induction false} LaidPieces(fills: seq<BinFill>, dealt: seq<seq<Tower>>)
    requires |fills| == |dealt|
    requires forall b :: 0 <= b < |fills| ==> PiecesOf(fills[b].placed) == PiecesIn(StripsOf(dealt[b]))
    ensures PiecesOver(fills) == PiecesIn(AllTowers(dealt))
  {
    hide PiecesOf, PiecesIn, StripsOf;
    if fills == [] {
      NoPiecesIn();
    } else {
      var n := |fills| - 1;
      LaidPieces(fills[..n], dealt[..n]);
      PiecesInConcat(AllTowers(dealt[..n]), StripsOf(dealt[n]));
    }
  }

  /** Whatever the truncation, an assignment that meets the constraints is laid out with
      every piece exactly once, in a way it may lie. */
  lemma ThreeStagesPlaceAll(read: seq<seq<TowerTemplate>>, frames: seq<Frame>, groups: seq<seq<Piece>>, minRect: int)
    requires Grouped(groups) && |read| == |frames| && ValidFrames(frames)
    requires forall b :: 0 <= b < |read| ==> frames[b].unit > 0 && BinTowers(read[b], frames[b], groups)
    requires Enough(AllRows(BinStrips(read)), groups)
    requires forall t: nat :: t < |groups| ==> CountKind(AllRows(BinStrips(read)), t) == |groups[t]|
    ensures var fills := Laid(Deal(read, BindColumns(BinStrips(read), groups)), frames, minRect);
            && multiset(PiecesOver(fills)) == multiset(Flatten(groups))
            && forall f :: f in fills ==> forall q :: q in f.placed ==> Legal(q) && ValidPiece(q.piece)
  {
    hide BinTowers, Enough, CountKind, BindColumns, Deal, TowersFit, TowerFits, WholeTowers, BinStrips, AllRows,
         PiecesOf, PiecesIn, StripsOf, Flatten, AllTowers, Binds, AllBind;
    var bound := BindColumns(BinStrips(read), groups);
    BindColumnsAt(BinStrips(read), groups);
    DealFits(read, bound, frames, groups);
    BindingConserves(BinStrips(read), groups);
    var dealt := Deal(read, bound);
    var fills := Laid(dealt, frames, minRect);
    forall b | 0 <= b < |fills| ensures Carries(fills[b].placed, PiecesIn(StripsOf(dealt[b]))) {
      assert frames[b] in frames;
      AllTowerFit(frames[b], dealt[b]);
      WholeTowersCarry(frames[b], dealt[b], minRect);
    }
    LaidPieces(fills, dealt);
  }

  lemma WholeTowersCarry(f: Frame, towers: seq<Tower>, minRect: int)
    requires f.unit > 0 && forall t :: t in towers ==> TowerFits(f, t)
    ensures Carries(WholeTowers(f, towers, minRect).placed, PiecesIn(StripsOf(towers)))
  {
    hide TowerFits, TowersFill, SheetCursor, Carries;
    TowerPieces(f, towers, minRect);
    assert WholeTowers(f, towers, minRect).placed == TowersFill(f, towers, minRect).placed;
  }

  /** Rounded as documented, what is read back is laid out soundly over all bins, every
      piece placed exactly once, whatever the lengths. */
  lemma RoundedIsSound(read: seq<seq<TowerTemplate>>, shapes: seq<BinShape>, groups: seq<seq<Piece>>, p: Params,
                       unit: int, minRect: int)
    requires unit > 0 && Grouped(groups) && |read| == |shapes| && ValidFrames(RoundedFrames(shapes, p, unit))
    requires forall b :: 0 <= b < |read| ==> BinTowers(read[b], RoundedFrames(shapes, p, unit)[b], groups)
    requires Enough(AllRows(BinStrips(read)), groups)
    requires forall t: nat :: t < |groups| ==> CountKind(AllRows(BinStrips(read)), t) == |groups[t]|
    ensures var bound := BindColumns(BinStrips(read), groups);
            SoundBins(Laid(Deal(read, bound), RoundedFrames(shapes, p, unit), minRect), shapes, p, Flatten(groups))
  {
    hide BinTowers, Enough, CountKind, BindColumns, Deal, TowersFit, WholeTowers, Cuttable, FrameOf, BinStrips, AllRows,
         UsableBounds, PiecesOf, PiecesIn, StripsOf, Flatten, AllTowers, Binds, AllBind;
    var frames := RoundedFrames(shapes, p, unit);
    var bound := BindColumns(BinStrips(read), groups);
    BindColumnsAt(BinStrips(read), groups);
    forall b | 0 <= b < |read| ensures frames[b].unit > 0 { assert frames[b] in frames; }
    DealFits(read, bound, frames, groups);
    BindingConserves(BinStrips(read), groups);
    var dealt := Deal(read, bound);
    var fills := Laid(dealt, frames, minRect);
    forall b | 0 <= b < |fills|
      ensures Cuttable(UsableBounds(shapes[b].width, shapes[b].height, p),
                       BoxesOf(fills[b].placed) + fills[b].remainders, p.kerf)
      ensures Carries(fills[b].placed, PiecesIn(StripsOf(dealt[b])))
    {
      assert frames[b] in frames;
      TowersAreSound(dealt[b], shapes[b], p, unit, minRect);
    }
    LaidPieces(fills, dealt);
  }

  /** An assignment that meets the truncated constraints is laid out soundly over all bins,
      every piece placed exactly once, when pieces and blade are whole units. */
  lemma ThreeStagesAreSound(read: seq<seq<TowerTemplate>>, shapes: seq<BinShape>, groups: seq<seq<Piece>>, p: Params,
                            unit: int, minRect: int)
    requires unit > 0 && p.kerf % unit == 0 && Grouped(groups) && WholePieces(Flatten(groups), unit)
    requires |read| == |shapes| && ValidFrames(FramesOf(shapes, p, unit))
    requires forall b :: 0 <= b < |read| ==> BinTowers(read[b], FramesOf(shapes, p, unit)[b], groups)
    requires Enough(AllRows(BinStrips(read)), groups)
    requires forall t: nat :: t < |groups| ==> CountKind(AllRows(BinStrips(read)), t) == |groups[t]|
    ensures var bound := BindColumns(BinStrips(read), groups);
            SoundBins(Laid(Deal(read, bound), FramesOf(shapes, p, unit), minRect), shapes, p, Flatten(groups))
  {
    hide Enough, CountKind, BindColumns, Deal, WholeTowers, TowerMeets, TruncatedFrame, FrameOf, BinStrips, AllRows,
         Flatten, SoundBins, AllTowers, WholeGroups, SumBy;
    var frames, rounded := FramesOf(shapes, p, unit), RoundedFrames(shapes, p, unit);
    WholeFlatten(groups, unit);
    forall b | 0 <= b < |shapes|
      ensures rounded[b] == frames[b].(truncates := false) && ValidFrame(rounded[b])
              && BinTowers(read[b], rounded[b], groups)
    {
      assert frames[b] in frames;
      WholeBladeFrame(shapes[b], p, unit);
      UnitIs(shapes[b], p, unit);
      forall t | t in read[b] ensures TowerMeets(t, rounded[b], groups) { WholeColumnMeets(t, frames[b], groups); }
    }
    RoundedIsSound(read, shapes, groups, p, unit, minRect);
    var dealt := Deal(read, BindColumns(BinStrips(read), groups)) by {
      BindColumnsAt(BinStrips(read), groups);
    }
    forall b | 0 <= b < |shapes|
      ensures WholeTowers(rounded[b], dealt[b], minRect) == WholeTowers(frames[b], dealt[b], minRect)
    {
      WholeTowersIgnore(frames[b], dealt[b], minRect);
    }
    assert Laid(dealt, rounded, minRect) == Laid(dealt, frames, minRect);
  }

  lemma UnitIs(s: BinShape, p: Params, unit: int)
    requires unit > 0
    ensures TruncatedFrame(s, p, unit).unit == unit
  {
  }

  /** Two answers with the same contents bin by bin are read back the same, and so laid
      out the same: equal placements, cuts, leftovers and piece ids. */
  lemma ThreeStagesAreCanonical(x: seq<seq<Pile>>, y: seq<seq<Pile>>, frames: seq<Frame>, groups: seq<seq<Piece>>,
                                minRect: int)
    requires ValidFrames(frames) && Grouped(groups) && groups != []
    requires MeetsTowers(x, frames, groups) && MeetsTowers(y, frames, groups)
    requires forall b :: 0 <= b < |frames| ==> SameBin(x[b], y[b], frames[b], groups)
    ensures LaidOut(x, frames, groups, minRect) == LaidOut(y, frames, groups, minRect)
  {
    hide TowersOf, PileContents, Options, PileKey, MeetsTowers;
    TowersAreRead(x, frames, groups);
    TowersAreRead(y, frames, groups);
    forall b | 0 <= b < |frames| ensures ReadBins(x, frames, groups)[b] == ReadBins(y, frames, groups)[b] {
      assert frames[b] in frames;
      TowersCanonical(frames[b].kerf, x[b], y[b], Options(StripFrame(frames[b]), groups));
    }
    assert ReadBins(x, frames, groups) == ReadBins(y, frames, groups);
  }

  /** The same columns of the same strips of the same pieces, in whatever order. */
  ghost predicate SameBin(x: seq<Pile>, y: seq<Pile>, f: Frame, groups: seq<seq<Piece>>) {
    && f.unit > 0 && Grouped(groups)
    && var options := Options(StripFrame(f), groups);
       && BinShaped(x, options) && BinShaped(y, options)
       && multiset(MapBy(PileKey, PileContents(x, options))) == multiset(MapBy(PileKey, PileContents(y, options)))
  }

  /** What an assignment comes out as. */
  ghost function LaidOut(bins: seq<seq<Pile>>, frames: seq<Frame>, groups: seq<seq<Piece>>,
                         minRect: int): (fills: seq<BinFill>)
    requires ValidFrames(frames) && Grouped(groups) && groups != [] && MeetsTowers(bins, frames, groups)
    ensures |fills| == |frames|
  {
    TowersAreRead(bins, frames, groups);
    var read := ReadBins(bins, frames, groups);
    Laid(Deal(read, BindColumns(BinStrips(read), groups)), frames, minRect)
  }
}
