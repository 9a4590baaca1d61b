/**
What the constraints of exact3.py allow: an assignment meets them exactly when the pieces
can be laid out in columns of strips of rows, over the bins given.
*/
module TowerPatterns {
  import opened Geometry
  import opened Sequences
  import opened Sheets
  import opened Strips
  import opened ExactModel
  import opened ExactColumns
  import opened ExactPatterns
  import opened TowerLayout
  import opened TowerModel
  import opened TowerColumns
  import opened Exact3

  lemma StripFrameIsValid(f: Frame)
    requires ValidFrame(f)
    ensures ValidFrame(StripFrame(f)) && StripFrame(f).across == f.along && StripFrame(f).along == f.across
    ensures StripFrame(f).kerf == f.kerf
  {
  }

  // ---- one column --------------------------------------------------------------------------

  /** The column slot that holds a column of a pattern. */
  predicate Stands(p: Pile, t: TowerTemplate, options: seq<seq<Orientation>>, f: Frame) {
    && p.inUse && p.width == t.width && PileMeets(p, options, f)
    && forall k: nat :: k < |options| ==> PileType(k)(p) == KindInTower(k)(t)
  }

  lemma StripsFit(t: TowerTemplate, f: Frame, groups: seq<seq<Piece>>, s: Template)
    requires ValidFrame(f) && Grouped(groups) && TowerMeets(t, f, groups) && s in t.strips
    ensures TemplateMeets(s, StripFrame(f), groups) && 0 <= s.width <= f.along
    ensures SumBy(Pitch(f.kerf), s.rows) <= t.width + f.kerf
  {
    hide SumBy, RowMeets, Pitch;
    forall u | u in t.strips ensures Rip(f.kerf)(u) >= 0 {}
    PartOfSum(Rip(f.kerf), t.strips, s);
  }

  /** A strip that holds rows is read back with rows. */
  lemma HoldsRows(c: Column, s: Template, options: seq<seq<Orientation>>, f: Frame)
    requires Holds(c, s, options, f) && s.rows != [] && s.rows[0].kind < |options|
    ensures RowsOf(c.counts, options) != []
  {
    hide SumBy, Stacked, SumCounts, RowsOf;
    var k, r := s.rows[0].kind, s.rows[0];
    RowSums(c.counts, options, f.kerf, k);
    SumIsPositive(s.rows, r, k);
    assert OfType(k)(c) == KindIn(k)(s);
    if RowsOf(c.counts, options) == [] { NoKindCounted(k); }
  }

  lemma NoKindCounted(k: nat)
    ensures CountKind([], k) == 0
  {
  }

  lemma SumIsPositive(rows: seq<Row>, r: Row, k: nat)
    requires r in rows && r.kind == k
    ensures CountKind(rows, k) > 0
  {
    PartOfSum(OfKind(k), rows, r);
  }

  lemma SlotMeets(c: Column, s: Template, t: TowerTemplate, f: Frame, groups: seq<seq<Piece>>)
    requires ValidFrame(f) && Grouped(groups) && TowerMeets(t, f, groups) && s in t.strips
    requires Holds(c, s, Options(StripFrame(f), groups), StripFrame(f))
    ensures var options := Options(StripFrame(f), groups);
            && ColumnMeets(c, options, StripFrame(f)) && c.inUse && Shaped(c.counts, options)
            && Stacked(c.counts, options, f.kerf) <= t.width + f.kerf && RowsOf(c.counts, options) != []
  {
    hide SumBy, Stacked, RowsOf, TowerMeets, Orientations;
    StripsFit(t, f, groups, s);
    assert s.rows[0] in s.rows;
    HoldsRows(c, s, Options(StripFrame(f), groups), StripFrame(f));
  }

  lemma RowsMeet(rows: seq<Column>, t: TowerTemplate, f: Frame, groups: seq<seq<Piece>>)
    requires ValidFrame(f) && Grouped(groups) && TowerMeets(t, f, groups) && 0 <= t.width <= f.across
    requires AllHold(rows, t.strips, Options(StripFrame(f), groups), StripFrame(f))
    requires SumBy(Ripped(f.kerf), rows) == SumBy(Rip(f.kerf), t.strips)
    ensures PileMeets(Pile(true, t.width, rows), Options(StripFrame(f), groups), f)
  {
    hide Holds, ColumnMeets, SumBy, Stacked, RowsOf, TemplateMeets, Options;
    var options := Options(StripFrame(f), groups);
    forall r | r in rows
      ensures Shaped(r.counts, options) && ColumnMeets(r, options, StripFrame(f))
      ensures Stacked(r.counts, options, f.kerf) <= t.width + f.kerf
      ensures r.inUse && RowsOf(r.counts, options) != []
    {
      var i :| 0 <= i < |rows| && rows[i] == r;
      SlotMeets(r, t.strips[i], t, f, groups);
    }
  }

  lemma PileFor(t: TowerTemplate, f: Frame, groups: seq<seq<Piece>>) returns (p: Pile)
    requires ValidFrame(f) && Grouped(groups) && TowerMeets(t, f, groups) && 0 <= t.width <= f.across
    ensures Stands(p, t, Options(StripFrame(f), groups), f)
  {
    hide TowerMeets, TemplateMeets, Options, PileMeets, AllHold, SumBy, OfType, KindIn, Ripped, Rip;
    StripFrameIsValid(f);
    forall s | s in t.strips ensures TemplateMeets(s, StripFrame(f), groups) && 0 <= s.width <= f.along {
      StripsFit(t, f, groups, s);
    }
    var rows := ColumnsFor(t.strips, StripFrame(f), groups);
    RowsMeet(rows, t, f, groups);
    p := Pile(true, t.width, rows);
  }

  // ---- one bin --------------------------------------------------------------------------------

  lemma TowerNoWider(ts: seq<TowerTemplate>, f: Frame, groups: seq<seq<Piece>>, t: TowerTemplate)
    requires ValidFrame(f) && Grouped(groups) && BinTowers(ts, f, groups) && t in ts
    ensures TowerMeets(t, f, groups) && 0 <= t.width <= f.across
  {
    hide SumBy, TemplateMeets;
    forall u | u in ts ensures TowerRip(f.kerf)(u) >= 0 {}
    PartOfSum(TowerRip(f.kerf), ts, t);
  }

  predicate AllStand(piles: seq<Pile>, ts: seq<TowerTemplate>, options: seq<seq<Orientation>>, f: Frame) {
    |piles| == |ts| && forall i :: 0 <= i < |piles| ==> Stands(piles[i], ts[i], options, f)
  }

  lemma {:induction false} PilesFor(ts: seq<TowerTemplate>, f: Frame, groups: seq<seq<Piece>>)
    returns (piles: seq<Pile>)
    requires ValidFrame(f) && Grouped(groups)
    requires forall t :: t in ts ==> TowerMeets(t, f, groups) && 0 <= t.width <= f.across
    ensures AllStand(piles, ts, Options(StripFrame(f), groups), f)
    ensures SumBy(PileRip(f.kerf), piles) == SumBy(TowerRip(f.kerf), ts)
    ensures forall k: nat :: k < |groups| ==> SumBy(PileType(k), piles) == SumBy(KindInTower(k), ts)
  {
    hide TowerMeets, Options, PileMeets, PileType, KindInTower;
    piles := [];
    if ts != [] {
      var init, last := ts[..|ts|-1], ts[|ts|-1];
      var before := PilesFor(init, f, groups);
      var p := PileFor(last, f, groups);
      piles := before + [p];
      SumByLast(PileRip(f.kerf), before, p);
      forall k: nat | k < |groups| ensures SumBy(PileType(k), piles) == SumBy(KindInTower(k), ts) {
        SumByLast(PileType(k), before, p);
      }
    }
  }

  /** A bin's columns, widest first. */
  lemma BinFor(ts: seq<TowerTemplate>, f: Frame, groups: seq<seq<Piece>>) returns (piles: seq<Pile>)
    requires ValidFrame(f) && Grouped(groups) && BinTowers(ts, f, groups)
    ensures BinMeets(piles, Options(StripFrame(f), groups), f)
    ensures forall k: nat :: k < |groups| ==> SumBy(PileType(k), piles) == SumBy(KindInTower(k), ts)
  {
    hide TowerMeets, Options, PileMeets, PileType, KindInTower, SumBy, SortBy, StripAtMost, TowerRip, PileRip;
    var us := SortBy(TowerFirst(f.kerf), ts);
    TowerOrder(f.kerf);
    SortBySorts(TowerFirst(f.kerf), ts);
    SumByPermuted(TowerRip(f.kerf), us, ts);
    forall t | t in us ensures TowerMeets(t, f, groups) && 0 <= t.width <= f.across {
      assert t in multiset(ts);
      TowerNoWider(ts, f, groups, t);
    }
    piles := PilesFor(us, f, groups);
    forall k: nat | k < |groups| ensures SumBy(PileType(k), piles) == SumBy(KindInTower(k), ts) {
      SumByPermuted(KindInTower(k), us, ts);
    }
    forall k | 0 < k < |piles| ensures piles[k-1].width >= piles[k].width {
      assert TowerFirst(f.kerf)(us[k-1], us[k]);
    }
    forall p | p in piles ensures PileMeets(p, Options(StripFrame(f), groups), f) {}
  }

  // ---- all bins ----------------------------------------------------------------------------------

  /** A layout in columns of strips of rows over these bins, of every piece. */
  ghost predicate IsTowerPattern(bins: seq<seq<TowerTemplate>>, frames: seq<Frame>, groups: seq<seq<Piece>>) {
    && ValidFrames(frames) && Grouped(groups) && |bins| == |frames|
    && (forall b :: 0 <= b < |bins| ==> assert frames[b] in frames; BinTowers(bins[b], frames[b], groups))
    && forall t: nat :: t < |groups| ==> CountKind(AllRows(BinStrips(bins)), t) == |groups[t]|
  }

  lemma {:induction false} BinsFor(bins: seq<seq<TowerTemplate>>, frames: seq<Frame>, groups: seq<seq<Piece>>)
    returns (all: seq<seq<Pile>>)
    requires ValidFrames(frames) && Grouped(groups) && |bins| == |frames|
    requires forall b :: 0 <= b < |bins| ==> assert frames[b] in frames; BinTowers(bins[b], frames[b], groups)
    ensures |all| == |bins|
    ensures forall b :: 0 <= b < |all| ==>
              assert frames[b] in frames; BinMeets(all[b], Options(StripFrame(frames[b]), groups), frames[b])
    ensures forall b, k: nat :: 0 <= b < |all| && k < |groups| ==>
              SumBy(PileType(k), all[b]) == SumBy(KindInTower(k), bins[b])
  {
    hide BinTowers, BinMeets, Options, PileType, KindInTower, SumBy;
    all := [];
    for b := 0 to |bins|
      invariant |all| == b
      invariant forall i :: 0 <= i < b ==>
                  assert frames[i] in frames; BinMeets(all[i], Options(StripFrame(frames[i]), groups), frames[i])
      invariant forall i, k: nat :: 0 <= i < b && k < |groups| ==>
                  SumBy(PileType(k), all[i]) == SumBy(KindInTower(k), bins[i])
    {
      assert frames[b] in frames;
      var piles := BinFor(bins[b], frames[b], groups);
      all := all + [piles];
    }
  }

  /** Every pattern is an assignment. */
  lemma PatternIsTowers(bins: seq<seq<TowerTemplate>>, frames: seq<Frame>, groups: seq<seq<Piece>>)
    returns (all: seq<seq<Pile>>)
    requires IsTowerPattern(bins, frames, groups)
    ensures MeetsTowers(all, frames, groups)
  {
    hide BinTowers, BinMeets, Options, PileType, KindInTower, SumBy, CountKind, AllRows, BinStrips, TypeTotal, Grouped;
    all := BinsFor(bins, frames, groups);
    forall t: nat | t < |groups| ensures TypeTotal(all, t) == |groups[t]| {
      BinKinds(bins, all, t);
      AllRowsCount(BinStrips(bins), t);
    }
  }

  /** The constraints can be met exactly when the pieces can be laid out in columns of
      strips of rows. */
  lemma TowersAreExact(frames: seq<Frame>, groups: seq<seq<Piece>>)
    requires ValidFrames(frames) && Grouped(groups) && groups != []
    ensures (exists all :: MeetsTowers(all, frames, groups)) <==> (exists bins :: IsTowerPattern(bins, frames, groups))
  {
    hide IsTowerPattern, MeetsTowers;
    if bins :| IsTowerPattern(bins, frames, groups) {
      var all := PatternIsTowers(bins, frames, groups);
    }
    if all :| MeetsTowers(all, frames, groups) {
      TowersArePattern(all, frames, groups);
    }
  }

  lemma TowersArePattern(all: seq<seq<Pile>>, frames: seq<Frame>, groups: seq<seq<Piece>>)
    requires ValidFrames(frames) && Grouped(groups) && groups != [] && MeetsTowers(all, frames, groups)
    ensures exists bins :: IsTowerPattern(bins, frames, groups)
  {
    hide MeetsTowers, BinTowers, CountKind, AllRows, BinStrips;
    TowersAreRead(all, frames, groups);
    assert IsTowerPattern(ReadBins(all, frames, groups), frames, groups);
  }
}
