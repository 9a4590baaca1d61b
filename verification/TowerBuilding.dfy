/**
`_build_fills` and `fits_bins` of exact3.py, step by step.
*/
module TowerBuilding {
  import opened Geometry
  import opened Plans
  import opened Sequences
  import opened Sheets
  import opened Constructors
  import opened ExactModel
  import opened ExactColumns
  import opened ExactBinding
  import opened ExactLayout
  import opened Exact
  import opened TowerLayout
  import opened TowerModel
  import opened TowerColumns
  import opened Exact3

  /** The columns of one bin, each width and order re-derived from what it holds. */
  method ReadTowers(piles: seq<Pile>, options: seq<seq<Orientation>>, kerf: nat) returns (ts: seq<TowerTemplate>)
    requires BinShaped(piles, options)
    ensures ts == TowersOf(kerf, piles, options)
  {
    hide TemplateOf, Contents, StripFirst, Span, TowerFirst;
    ts := [];
    for k := 0 to |piles|
      invariant BinShaped(piles[..k], options)
      invariant ts == MapBy(TowerOf(kerf), PileContents(piles[..k], options))
    {
      var p := piles[k];
      assert piles[..k+1][..k] == piles[..k] && p in piles;
      OneMorePile(piles[..k+1], options, kerf);
      if p.inUse {
        var strips := ReadContents(p.rows, options);
        if strips != [] {
          ts := ts + [TowerTemplate(MaxSpan(kerf, strips), SortBy(StripFirst(kerf), strips))];
        }
      }
    }
    assert piles[..|piles|] == piles;
    ts := SortBy(TowerFirst(kerf), ts);
  }

  /** Columns from the near edge on, each laid out in its turned frame. */
  method LayTowers(f: Frame, towers: seq<Tower>, minRect: int) returns (fill: BinFill)
    ensures fill == WholeTowers(f, towers, minRect)
  {
    hide WholeTower, RipCut, SheetTail, SheetFill;
    var across := 0;
    fill := NOFILL;
    for j := 0 to |towers|
      invariant across == SheetCursor(f, AsWidths(towers[..j]))
      invariant fill == TowersFill(f, towers[..j], minRect)
    {
      assert towers[..j+1][..j] == towers[..j];
      assert AsWidths(towers[..j+1])[..j] == AsWidths(towers[..j]);
      var t := towers[j];
      var column := LaySheet(Turned(f, across, t.width), t.strips, minRect);
      assert column == WholeTower(f, across, t, minRect) by { TowerIsSheet(f, across, t, minRect); }
      across := across + t.width;
      fill := Append(Append(fill, column), BinFill([], [], RipCut(f, across)));
      if across < f.across {
        across := across + f.kerf;
      }
    }
    assert towers[..|towers|] == towers;
    fill := Append(fill, BinFill([], SheetTail(f, across, minRect), []));
  }

  lemma TowerIsSheet(f: Frame, across: int, t: Tower, minRect: int)
    ensures WholeTower(f, across, t, minRect) == WholeSheet(Turned(f, across, t.width), t.strips, minRect)
  {
  }

  /** The bins of a solved assignment: read canonically, pieces attached in that order,
      laid out. */
  method BuildFills(bins: seq<seq<Pile>>, frames: seq<Frame>, groups: seq<seq<Piece>>, minRect: int)
    returns (fills: seq<BinFill>)
    requires ValidFrames(frames) && Grouped(groups) && groups != [] && MeetsTowers(bins, frames, groups)
    ensures Readable(bins, frames, groups)
    ensures var strips := BinStrips(ReadBins(bins, frames, groups));
            && Enough(AllRows(strips), groups)
            && fills == Laid(Deal(ReadBins(bins, frames, groups), BindColumns(strips, groups)), frames, minRect)
  {
    hide MeetsTowers, Enough, BindColumns, Deal, WholeTowers, TowersOf, BinStrips, AllRows, Options, Orientations,
         MayLie, MayLieAs, Listed, SlotFor, FitsFrame;
    TowersAreRead(bins, frames, groups);
    var read: seq<seq<TowerTemplate>> := [];
    for b := 0 to |bins|
      invariant |read| == b
      invariant forall i :: 0 <= i < b ==> read[i] == ReadBins(bins, frames, groups)[i]
    {
      assert frames[b] in frames;
      var ts := ReadTowers(bins[b], Options(StripFrame(frames[b]), groups), frames[b].kerf);
      read := read + [ts];
    }
    assert read == ReadBins(bins, frames, groups);
    var bound := BindInstances(BinStrips(read), groups);
    var dealt := Deal(read, bound);
    fills := [];
    for b := 0 to |frames|
      invariant |fills| == b
      invariant forall i :: 0 <= i < b ==> fills[i] == WholeTowers(frames[i], dealt[i], minRect)
    {
      var fill := LayTowers(frames[b], dealt[b], minRect);
      fills := fills + [fill];
    }
    assert fills == Laid(dealt, frames, minRect);
  }

  /** Any source of answers for these frames. */
  type TowerSolver = (nat, seq<Frame>, seq<seq<Piece>>) -> Option<seq<seq<Pile>>>

  ghost predicate HonestTowers(solve: TowerSolver) {
    forall ask: nat, frames: seq<Frame>, groups: seq<seq<Piece>> ::
      ValidFrames(frames) && Grouped(groups) && solve(ask, frames, groups).Some? ==>
        MeetsTowers(solve(ask, frames, groups).value, frames, groups)
  }

  /** The same bins with their columns run the given ways. */
  function Oriented(shapes: seq<BinShape>, ways: seq<bool>): (r: seq<BinShape>)
    requires |ways| == |shapes|
    ensures |r| == |shapes| && forall b :: 0 <= b < |r| ==> r[b] == shapes[b].(transposed := ways[b])
  {
    seq(|shapes|, b requires 0 <= b < |shapes| => shapes[b].(transposed := ways[b]))
  }

  /** Does the whole pool fit exactly these bins, in three stages? Tries the given ways
      of running the columns until the solver answers; then every piece is placed, and
      soundly when pieces and blade are whole units. */
  method FitsBins(groups: seq<seq<Piece>>, shapes: seq<BinShape>, p: Params, unit: int, minRect: int,
                  combos: seq<seq<bool>>, solve: TowerSolver)
    returns (fills: Option<seq<BinFill>>)
    requires Grouped(groups) && unit > 0 && HonestTowers(solve) && forall c :: c in combos ==> |c| == |shapes|
    ensures fills.Some? && p.kerf % unit == 0 && WholePieces(Flatten(groups), unit) ==>
            SoundBins(fills.value, shapes, p, Flatten(groups))
    ensures fills.Some? ==> |fills.value| == |shapes| && multiset(PiecesOver(fills.value)) == multiset(Flatten(groups))
    ensures fills.None? ==>
              || groups == [] || shapes == []
              || (exists c :: c in combos && !ValidFrames(FramesOf(Oriented(shapes, c), p, unit)))
              || forall k: nat ::
                 k < |combos| ==> solve(k, FramesOf(Oriented(shapes, combos[k]), p, unit), groups).None?
  {
    hide MeetsTowers, Enough, BindColumns, Deal, WholeTowers, TruncatedFrame, TowersOf, BinStrips, AllRows, SoundBins,
         WholePieces, Flatten, BinTowers, Options;
    if groups == [] || shapes == [] { return None; }
    for k := 0 to |combos|
      invariant forall j: nat :: j < k ==> solve(j, FramesOf(Oriented(shapes, combos[j]), p, unit), groups).None?
    {
      assert combos[k] in combos;
      var turned := Oriented(shapes, combos[k]);
      var frames := FramesOf(turned, p, unit);
      if !ValidFrames(frames) { return None; }
      var answer := solve(k, frames, groups);
      if answer.None? { continue; }
      var built := BuildFills(answer.value, frames, groups, minRect);
      TowersAreRead(answer.value, frames, groups);
      ThreeStagesPlaceAll(ReadBins(answer.value, frames, groups), frames, groups, minRect);
      NothingElse(PiecesOver(built), Flatten(groups));
      if |PiecesOver(built)| == |Flatten(groups)| {
        if p.kerf % unit == 0 && WholePieces(Flatten(groups), unit) {
          ThreeStagesAreSound(ReadBins(answer.value, frames, groups), turned, groups, p, unit, minRect);
          WaysDoNotMatter(built, shapes, turned, p, Flatten(groups));
        }
        return Some(built);
      }
    }
    return None;
  }

  lemma WaysDoNotMatter(fills: seq<BinFill>, shapes: seq<BinShape>, turned: seq<BinShape>, p: Params, pool: seq<Piece>)
    requires SoundBins(fills, turned, p, pool) && |turned| == |shapes|
    requires forall b ::
             0 <= b < |shapes| ==> turned[b].width == shapes[b].width && turned[b].height == shapes[b].height
    ensures SoundBins(fills, shapes, p, pool)
  {
  }
}
