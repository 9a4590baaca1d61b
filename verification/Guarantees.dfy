/**
What the parts add up to: fills of every constructor survive re-derivation, the packer
keeps everything apart, and a thinner blade is a true relaxation.
*/
module Guarantees {
  import opened Geometry
  import opened Guillotine
  import opened Surgery
  import opened CandidateCuts
  import opened Plans
  import opened Consolidate
  import opened Sheets
  import opened Derive
  import opened Packer
  import opened Constructors
  import opened Strips

  // ---- fills and their trees -----------------------------------------------------------

  /** Placements and leftovers of any such fill lie inside the trims, every two of them
      a blade apart. */
  lemma FillIsApart(t: GTree, bounds: Box, fill: BinFill, g: Config)
    requires Realizes(t, bounds, fill, g)
    ensures Cuttable(bounds, BoxesOf(fill.placed), g.kerf)
    ensures forall b :: b in BoxesOf(fill.placed) + fill.remainders ==> Inside(b, bounds)
    ensures PairwiseApart(BoxesOf(fill.placed) + fill.remainders, g.kerf)
  {
    hide Frees, PlanOf, Offcuts;
    var S, R := BoxesOf(fill.placed), fill.remainders;
    RealizesParts(t, bounds, fill, g);
    var all := S + R;
    assert multiset(all) <= Yield(t, bounds, S, g.kerf);
    forall b | b in all ensures Inside(b, bounds) {
      assert b in multiset(all);
      YieldInside(t, bounds, S, g.kerf, b);
    }
    forall i, j | 0 <= i < j < |all| ensures Separation(all[i], all[j]) >= g.kerf {
      PairAt(all, i, j);
      YieldApart(t, bounds, S, g.kerf, all[i], all[j]);
    }
  }

  /** Re-deriving the tree of a constructor's fill never answers that there is none: it
      finds one unless the node budget runs out. */
  method RederiveFill(fill: BinFill, width: int, height: int, p: Params, minRect: int, minUsable: int, nodeBudget: int)
    returns (plan: Option<Plan>, exhausted: bool)
    requires exists t, g: Config :: g.kerf == p.kerf && Realizes(t, UsableBounds(width, height, p), fill, g)
    ensures plan.Some? <==> !exhausted
    ensures plan.Some? ==>
            LeastReport(plan.value, UsableBounds(width, height, p), BoxesOf(fill.placed),
                        ConfigOf(p.kerf, minRect, minUsable))
  {
    hide Realizes, LeastReport, Nodes, SortBoxes, AllSolid, Cuttable;
    ghost var t, g: Config :| g.kerf == p.kerf && Realizes(t, UsableBounds(width, height, p), fill, g);
    RealizesParts(t, UsableBounds(width, height, p), fill, g);
    FillIsApart(t, UsableBounds(width, height, p), fill, g);
    plan, exhausted := DeriveTree(BoxesOf(fill.placed), UsableBounds(width, height, p), p.kerf, minRect, minUsable,
                                  nodeBudget);
  }

  // ---- a thinner blade -----------------------------------------------------------------------

  /** Placements that can be cut with one blade can be cut, where they are, with any
      thinner one. */
  lemma ThinnerBladeCuts(r: Box, S: seq<Box>, kerf: nat, thin: nat)
    requires Cuttable(r, S, kerf) && AllSolid(S) && thin <= kerf
    ensures Cuttable(r, S, thin)
  {
    hide Frees;
    var t :| Frees(t, r, S, kerf);
    if Solid(r) {
      var t' := ThinBlade(t, r, S, kerf, thin);
    } else {
      if S != [] {
        assert S[0] in S;
        FreesInside(t, r, S, kerf, S[0]);
      }
      NothingLeft(r, thin);
    }
  }

  // ---- the packer ------------------------------------------------------------------------

  /** In every state of the packer, whatever its split rules, pieces and free rectangles
      lie inside the trims and pairwise a blade apart. */
  lemma PackerStateIsApart(tree: GTree, bounds: Box, placed: seq<Placed>, rems: seq<Box>, cuts: seq<SawCut>, g: Config)
    requires Tracks(tree, bounds, BoxesOf(placed), rems, cuts, g)
    requires forall p :: p in placed ==> Legal(p) && ValidPiece(p.piece)
    ensures forall b :: b in BoxesOf(placed) + rems ==> Inside(b, bounds)
    ensures PairwiseApart(BoxesOf(placed) + rems, g.kerf)
  {
    hide Realizes, Tracks;
    TracksRealizes(tree, bounds, placed, rems, cuts, g);
    FillIsApart(tree, bounds, BinFill(placed, rems, cuts), g);
  }
}
