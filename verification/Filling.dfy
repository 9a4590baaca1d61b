/**
Filling an offcut as the search space sees it: which trees stay searchable, and
what the report of the larger tree is.
*/
module Filling {
  import opened Geometry
  import opened Guillotine
  import opened Surgery
  import opened CandidateCuts
  import opened Plans

  /** Pieces cut out of an offcut by candidate cuts keep the whole tree in the
      search space. */
  lemma {:induction false} GraftSearchable(t: GTree, r: Box, S: seq<Box>, kerf: nat, leaf: Box, u: GTree, B: seq<Box>)
    requires Searchable(t, r, S, kerf) && leaf in Offcuts(t, r, kerf)
    requires Searchable(u, leaf, B, kerf) && AllSolid(B) && B != []
    ensures Searchable(Graft(t, r, kerf, leaf, u), r, S + B, kerf)
  {
    hide Searchable, Side, Frees;
    if S == [] {
      SearchableNothing(t, r, S, kerf);
      assert S + B == B;
    } else if S == [r] {
      SearchableIsWhole(t, r, kerf);
    } else {
      SearchableSides(t, r, S, kerf);
      var Cut(h, at, near, far) := t;
      var n, f := NearRegion(r, h, at), FarRegion(r, h, at, kerf);
      SearchableFrees(u, leaf, B, kerf);
      if leaf in Offcuts(near, n, kerf) {
        SearchableFrees(near, n, Near(S, h, at), kerf);
        OffcutInside(near, n, Near(S, h, at), kerf, leaf);
        GraftSearchable(near, n, Near(S, h, at), kerf, leaf, u, B);
        SidesOfNearLeaf(leaf, u, B, r, S, kerf, h, at);
        SearchableCut(h, at, Graft(near, n, kerf, leaf, u), far, r, S + B, kerf);
      } else {
        SearchableFrees(far, f, Far(S, h, at, kerf), kerf);
        OffcutInside(far, f, Far(S, h, at, kerf), kerf, leaf);
        GraftSearchable(far, f, Far(S, h, at, kerf), kerf, leaf, u, B);
        SidesOfFarLeaf(leaf, u, B, r, S, kerf, h, at);
        SearchableCut(h, at, near, Graft(far, f, kerf, leaf, u), r, S + B, kerf);
      }
    }
  }

  lemma SearchableIsWhole(t: GTree, r: Box, kerf: nat)
    requires Searchable(t, r, [r], kerf)
    ensures t == Whole
  {
  }

  lemma TradeReported<T>(A: seq<T>, A': seq<T>, B: seq<T>, x: T, inA: bool, X: seq<T>)
    requires multiset(A') == multiset(A) - multiset{x} + multiset(X)
    requires inA ==> x in A
    requires !inA ==> x !in A && x !in B
    ensures multiset(A' + B) == multiset(A + B) - multiset{x} + multiset(X)
    ensures multiset(B + A') == multiset(B + A) - multiset{x} + multiset(X)
  {
    assert inA ==> x in multiset(A);
  }

  /** An offcut is reported exactly when it is big enough. */
  lemma {:induction false} ReportedOffcuts(t: GTree, r: Box, g: Config, leaf: Box)
    ensures leaf in PlanOf(t, r, g).rects <==>
            leaf in Offcuts(t, r, g.kerf) && Width(leaf) >= g.minRect && Height(leaf) >= g.minRect
  {
    if t.Cut? {
      ReportedOffcuts(t.near, NearRegion(r, t.horizontal, t.at), g, leaf);
      ReportedOffcuts(t.far, FarRegion(r, t.horizontal, t.at, g.kerf), g, leaf);
    }
  }

  /** Filling an offcut trades it for the offcuts of the new cuts, and adds those
      cuts to the report. */
  lemma {:induction false} GraftPlan(t: GTree, r: Box, g: Config, leaf: Box, u: GTree)
    requires leaf in Offcuts(t, r, g.kerf)
    ensures Traded(PlanOf(t, r, g), PlanOf(Graft(t, r, g.kerf, leaf, u), r, g), leaf, PlanOf(u, leaf, g))
  {
    if t == Empty {
      GraftPlanAtLeaf(r, g, u);
    } else {
      var Cut(h, at, near, far) := t;
      var n, f := NearRegion(r, h, at), FarRegion(r, h, at, g.kerf);
      if leaf in Offcuts(near, n, g.kerf) {
        GraftPlan(near, n, g, leaf, u);
        GraftPlanNear(t, r, g, leaf, u);
      } else {
        GraftPlan(far, f, g, leaf, u);
        GraftPlanFar(t, r, g, leaf, u);
      }
    }
  }

  /** `q` reports what `p` does, with the offcut traded for the report `v` of its cuts. */
  predicate Traded(p: Plan, q: Plan, leaf: Box, v: Plan) {
    && multiset(q.rects) == multiset(p.rects) - multiset{leaf} + multiset(v.rects)
    && multiset(q.cuts) == multiset(p.cuts) + multiset(v.cuts)
  }

  lemma GraftPlanAtLeaf(r: Box, g: Config, u: GTree)
    ensures Traded(Leftover(r, g), PlanOf(u, r, g), r, PlanOf(u, r, g))
  {
    hide PlanOf;
    assert multiset([r]) - multiset{r} == multiset{};
    assert multiset([]) - multiset{r} == multiset{};
  }

  lemma GraftedNear(t: GTree, r: Box, g: Config, leaf: Box, u: GTree)
    requires t.Cut? && leaf in Offcuts(t.near, NearRegion(r, t.horizontal, t.at), g.kerf)
    ensures var Cut(h, at, near, far) := t;
            var n, f := NearRegion(r, h, at), FarRegion(r, h, at, g.kerf);
            var pf := if Solid(f) then PlanOf(far, f, g) else NOTHING;
            && PlanOf(t, r, g) == Join(CutOf(r, h, at), PlanOf(near, n, g), pf)
            && PlanOf(Graft(t, r, g.kerf, leaf, u), r, g) ==
               Join(CutOf(r, h, at), PlanOf(Graft(near, n, g.kerf, leaf, u), n, g), pf)
  {
    hide CutOf, NearRegion, FarRegion, Join;
  }

  lemma GraftPlanNear(t: GTree, r: Box, g: Config, leaf: Box, u: GTree)
    requires t.Cut? && leaf in Offcuts(t.near, NearRegion(r, t.horizontal, t.at), g.kerf)
    requires var n := NearRegion(r, t.horizontal, t.at);
             Traded(PlanOf(t.near, n, g), PlanOf(Graft(t.near, n, g.kerf, leaf, u), n, g), leaf, PlanOf(u, leaf, g))
    ensures Traded(PlanOf(t, r, g), PlanOf(Graft(t, r, g.kerf, leaf, u), r, g), leaf, PlanOf(u, leaf, g))
  {
    hide PlanOf, Graft, Offcuts, CutOf, NearRegion, FarRegion;
    var Cut(h, at, near, far) := t;
    var n, f := NearRegion(r, h, at), FarRegion(r, h, at, g.kerf);
    var pn, pn' := PlanOf(near, n, g), PlanOf(Graft(near, n, g.kerf, leaf, u), n, g);
    var pf := if Solid(f) then PlanOf(far, f, g) else NOTHING;
    GraftedNear(t, r, g, leaf, u);
    ReportedOffcuts(near, n, g, leaf);
    ReportedOffcuts(far, f, g, leaf);
    var v := PlanOf(u, leaf, g);
    TradeReported(pn.rects, pn'.rects, pf.rects, leaf, Width(leaf) >= g.minRect && Height(leaf) >= g.minRect, v.rects);
    MoreInJoin(CutOf(r, h, at), pn, pn', pf, pf, v.cuts);
  }

  lemma GraftedFar(t: GTree, r: Box, g: Config, leaf: Box, u: GTree)
    requires t.Cut? && leaf !in Offcuts(t.near, NearRegion(r, t.horizontal, t.at), g.kerf)
    requires Solid(FarRegion(r, t.horizontal, t.at, g.kerf))
    ensures var Cut(h, at, near, far) := t;
            var n, f := NearRegion(r, h, at), FarRegion(r, h, at, g.kerf);
            && PlanOf(t, r, g) == Join(CutOf(r, h, at), PlanOf(near, n, g), PlanOf(far, f, g))
            && PlanOf(Graft(t, r, g.kerf, leaf, u), r, g) ==
               Join(CutOf(r, h, at), PlanOf(near, n, g), PlanOf(Graft(far, f, g.kerf, leaf, u), f, g))
  {
    hide CutOf, NearRegion, FarRegion, Join;
  }

  lemma GraftPlanFar(t: GTree, r: Box, g: Config, leaf: Box, u: GTree)
    requires t.Cut? && leaf !in Offcuts(t.near, NearRegion(r, t.horizontal, t.at), g.kerf)
    requires var f := FarRegion(r, t.horizontal, t.at, g.kerf);
             && Solid(f) && leaf in Offcuts(t.far, f, g.kerf)
             && Traded(PlanOf(t.far, f, g), PlanOf(Graft(t.far, f, g.kerf, leaf, u), f, g), leaf, PlanOf(u, leaf, g))
    ensures Traded(PlanOf(t, r, g), PlanOf(Graft(t, r, g.kerf, leaf, u), r, g), leaf, PlanOf(u, leaf, g))
  {
    hide PlanOf, Graft, Offcuts, CutOf, NearRegion, FarRegion;
    var Cut(h, at, near, far) := t;
    var n, f := NearRegion(r, h, at), FarRegion(r, h, at, g.kerf);
    var pf, pf' := PlanOf(far, f, g), PlanOf(Graft(far, f, g.kerf, leaf, u), f, g);
    var pn := PlanOf(near, n, g);
    GraftedFar(t, r, g, leaf, u);
    ReportedOffcuts(near, n, g, leaf);
    ReportedOffcuts(far, f, g, leaf);
    var v := PlanOf(u, leaf, g);
    TradeReported(pf.rects, pf'.rects, pn.rects, leaf, Width(leaf) >= g.minRect && Height(leaf) >= g.minRect, v.rects);
    MoreInJoin(CutOf(r, h, at), pn, pn, pf, pf', v.cuts);
  }

  lemma MoreInJoin(cut: SawCut, n: Plan, n': Plan, f: Plan, f': Plan, more: seq<SawCut>)
    requires multiset(n'.cuts) + multiset(f'.cuts) == multiset(n.cuts) + multiset(f.cuts) + multiset(more)
    ensures multiset(Join(cut, n', f').cuts) == multiset(Join(cut, n, f).cuts) + multiset(more)
  {
    assert multiset(Join(cut, n', f').cuts) == multiset{cut} + (multiset(n'.cuts) + multiset(f'.cuts));
    assert multiset(Join(cut, n, f).cuts) == multiset{cut} + (multiset(n.cuts) + multiset(f.cuts));
  }
}
