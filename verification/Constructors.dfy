/**
constructors.py: the two ways a sheet is filled, in one greedy pass or as a
sequence of first-stage strips, each packed by the guillotine packer.
*/
module Constructors {
  import opened Geometry
  import opened Guillotine
  import opened Surgery
  import opened CandidateCuts
  import opened Plans
  import opened Filling
  import opened Sheets
  import opened Packer

  datatype BinFill = BinFill(placed: seq<Placed>, remainders: seq<Box>, cuts: seq<SawCut>)

  /** An order of placement; the search tries many and any will do here. */
  ghost predicate IsOrder(order: seq<Piece> -> seq<Piece>) {
    forall ps :: multiset(order(ps)) == multiset(ps)
  }

  predicate AllValid(ps: seq<Piece>) {
    forall p :: p in ps ==> ValidPiece(p)
  }

  lemma OrderedValid(order: seq<Piece> -> seq<Piece>, ps: seq<Piece>)
    requires IsOrder(order) && AllValid(ps)
    ensures AllValid(order(ps)) && multiset(order(ps)) == multiset(ps)
  {
    assert multiset(order(ps)) == multiset(ps);
    forall p | p in order(ps) ensures ValidPiece(p) { assert p in multiset(order(ps)); }
  }

  /** A fill is what the saw can do: a cut tree frees its placements, its cuts are
      the tree's, and its leftovers are offcuts of the tree. */
  ghost predicate Realizes(t: GTree, bounds: Box, fill: BinFill, g: Config) {
    && Frees(t, bounds, BoxesOf(fill.placed), g.kerf)
    && multiset(fill.cuts) == multiset(PlanOf(t, bounds, g).cuts)
    && multiset(fill.remainders) <= multiset(Offcuts(t, bounds, g.kerf))
    && (forall p :: p in fill.placed ==> Legal(p) && ValidPiece(p.piece))
  }

  lemma {:induction false} KeepSubset(S: seq<Box>, g: Config)
    ensures multiset(Keep(S, g)) <= multiset(S)
  {
    if S != [] {
      KeepSubset(S[..|S|-1], g);
      assert S == S[..|S|-1] + [S[|S|-1]];
    }
  }

  /** Every state of the packer is such a fill. */
  lemma TracksRealizes(tree: GTree, bounds: Box, placed: seq<Placed>, rems: seq<Box>, cuts: seq<SawCut>, g: Config)
    requires Tracks(tree, bounds, BoxesOf(placed), rems, cuts, g)
    requires forall p :: p in placed ==> Legal(p) && ValidPiece(p.piece)
    ensures Realizes(tree, bounds, BinFill(placed, rems, cuts), g)
  {
    SearchableFrees(tree, bounds, BoxesOf(placed), g.kerf);
    ReportKeeps(tree, bounds, g);
    KeepSubset(Offcuts(tree, bounds, g.kerf), g);
    hide Searchable, Frees, PlanOf, Keep;
  }

  lemma NoPieces()
    ensures PiecesOf([]) == []
  {
  }

  /** Once something is placed the report is exact. */
  lemma TracksReports(tree: GTree, bounds: Box, placed: seq<Placed>, rems: seq<Box>, cuts: seq<SawCut>, g: Config)
    requires Tracks(tree, bounds, BoxesOf(placed), rems, cuts, g) && placed != []
    ensures Searchable(tree, bounds, BoxesOf(placed), g.kerf)
    ensures multiset(rems) == multiset(PlanOf(tree, bounds, g).rects)
  {
    assert BoxesOf(placed) != [];
  }

  /** What one greedy pass puts on the sheet. */
  function GreedyPlacing(pool: seq<Piece>, width: int, height: int, p: Params, rule: SplitRule, selection: Selection,
                         order: seq<Piece> -> seq<Piece>, minRect: int): seq<Placed> {
    if p.left + p.right >= width || p.top + p.bottom >= height then []
    else PackAll(Packing([UsableBounds(width, height, p)], [], []), order(pool), rule, selection,
                 Config(p.kerf, Max(1, minRect), 0)).placed
  }

  function PlacedOn(fill: Option<BinFill>): seq<Placed> {
    if fill.None? then [] else fill.value.placed
  }

  /** One greedy pass over the whole sheet; no fill when the trims leave no room or
      nothing fits. A piece left out fits none of the rectangles that remain. */
  method GreedyFill(pool: seq<Piece>, width: int, height: int, p: Params, rule: SplitRule, selection: Selection,
                    order: seq<Piece> -> seq<Piece>, minRect: int) returns (fill: Option<BinFill>)
    requires AllValid(pool) && IsOrder(order)
    ensures PlacedOn(fill) == GreedyPlacing(pool, width, height, p, rule, selection, order, minRect)
    ensures fill.Some? ==>
              && fill.value.placed != []
              && multiset(PiecesOf(fill.value.placed)) <= multiset(pool)
              && exists t, g :: g == Config(p.kerf, Max(1, minRect), 0)
                   && Searchable(t, UsableBounds(width, height, p), BoxesOf(fill.value.placed), p.kerf)
                   && multiset(fill.value.remainders) == multiset(PlanOf(t, UsableBounds(width, height, p), g).rects)
                   && Realizes(t, UsableBounds(width, height, p), fill.value, g)
    ensures fill.None? ==>
              p.left + p.right >= width || p.top + p.bottom >= height
              || forall q :: q in pool ==> !FitsPiece(UsableBounds(width, height, p), q)
    ensures fill.Some? ==>
              forall q, r ::
                  q in multiset(pool) - multiset(PiecesOf(fill.value.placed)) && r in fill.value.remainders ==>
                      !FitsPiece(r, q)
  {
    hide Searchable, PlanOf, PiecesOf, FitsPiece, Realizes, Tracks, PackAll;
    if p.left + p.right >= width || p.top + p.bottom >= height {
      return None;
    }
    var packer := new GuillotineOptimizer(width, height, p, rule, minRect, selection);
    OrderedValid(order, pool);
    NoPieces();
    var rest := packer.Optimize(order(pool));
    assert multiset(PiecesOf(packer.placed)) + multiset(rest) == multiset(pool);
    if packer.placed == [] {
      forall q | q in pool ensures !FitsPiece(packer.bounds, q) {
        assert q in multiset(pool);
        assert q in multiset(rest) && packer.bounds in packer.remainders;
      }
      return None;
    }
    TracksReports(packer.tree, packer.bounds, packer.placed, packer.remainders, packer.cuts, packer.g);
    fill := Some(BinFill(packer.placed, packer.remainders, packer.cuts));
    TracksRealizes(packer.tree, packer.bounds, packer.placed, packer.remainders, packer.cuts, packer.g);
  }
}
