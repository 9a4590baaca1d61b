/**
The two entry points of consolidate.py: deriving a tree from placements, and
giving a finished layout the better of its own tree and the derived one.
*/
module Derive {
  import opened Geometry
  import opened Guillotine
  import opened CandidateCuts
  import opened Plans
  import opened BestPlan
  import opened Consolidate
  import opened Sheets
  import Sequences

  // ---- sorting the boxes -----------------------------------------------------

  function InsertBox(S: seq<Box>, b: Box): (r: seq<Box>)
    ensures multiset(r) == multiset(S) + multiset{b}
  {
    if S == [] || !Before(b, S[|S|-1]) then S + [b]
    else
      assert S == S[..|S|-1] + [S[|S|-1]];
      InsertBox(S[..|S|-1], b) + [S[|S|-1]]
  }

  function SortBoxes(S: seq<Box>): (r: seq<Box>)
    ensures multiset(r) == multiset(S)
  {
    if S == [] then []
    else
      assert S == S[..|S|-1] + [S[|S|-1]];
      InsertBox(SortBoxes(S[..|S|-1]), S[|S|-1])
  }

  lemma SamePieces(S: seq<Box>, S': seq<Box>)
    requires multiset(S) == multiset(S')
    ensures |S| == |S'| && forall b :: b in S <==> b in S'
    ensures S == [] <==> S' == []
    ensures forall r :: S == [r] <==> S' == [r]
  {
    SubsetMembers(S, S');
    SubsetMembers(S', S);
    Sequences.NothingElse(S, S');
    if |S| == 1 {
      assert S[0] in S';
    }
  }

  /** The search space does not depend on the order of the pieces. */
  lemma {:induction false} SearchablePermuted(t: GTree, r: Box, S: seq<Box>, S': seq<Box>, kerf: nat)
    requires multiset(S) == multiset(S') && Searchable(t, r, S, kerf)
    ensures Searchable(t, r, S', kerf)
  {
    SamePieces(S, S');
    if S != [] && S != [r] {
      var Cut(h, at, near, far) := t;
      var N, F, N', F' := Near(S, h, at), Far(S, h, at, kerf), Near(S', h, at), Far(S', h, at, kerf);
      assert multiset(N) == multiset(N') by {
        SideSubset(S, S', h, at, false);
        SideSubset(S', S, h, at, false);
      }
      assert multiset(F) == multiset(F') by {
        FarSubset(S, S', h, at, kerf);
        FarSubset(S', S, h, at, kerf);
      }
      SearchablePermuted(near, NearRegion(r, h, at), N, N', kerf);
      SearchablePermuted(far, FarRegion(r, h, at, kerf), F, F', kerf);
      hide Searchable, Side;
      SearchableCut(h, at, near, far, r, S', kerf);
    }
  }

  // ---- derive_tree -----------------------------------------------------------

  /** `plan` is the report of a tree in the search space, and none scores lower. */
  ghost predicate LeastReport(plan: Plan, r: Box, S: seq<Box>, g: Config) {
    && (exists c :: Searchable(c, r, S, g.kerf) && plan == PlanOf(c, r, g))
    && (forall c :: Searchable(c, r, S, g.kerf) ==> AtMost(ScoreOf(plan, g), ScoreOf(PlanOf(c, r, g), g)))
  }

  lemma SortedBest(r: Box, S: seq<Box>, g: Config)
    requires AllSolid(S)
    ensures var best := Best(r, SortBoxes(S), g);
            && (best.Some? <==> Cuttable(r, S, g.kerf))
            && (best.Some? ==> LeastReport(best.value, r, S, g))
  {
    hide Best, SortBoxes, Searchable, ScoreOf, PlanOf;
    var S' := SortBoxes(S);
    SamePieces(S, S');
    BestDecidesCuttable(r, S', g);
    if Cuttable(r, S, g.kerf) { CuttableHereditary(r, S, S', g.kerf); }
    if Cuttable(r, S', g.kerf) { CuttableHereditary(r, S', S, g.kerf); }
    if Best(r, S', g).Some? {
      var c := BestIsSearchable(r, S', g);
      SearchablePermuted(c, r, S', S, g.kerf);
      forall c | Searchable(c, r, S, g.kerf)
        ensures AtMost(ScoreOf(Best(r, S', g).value, g), ScoreOf(PlanOf(c, r, g), g))
      {
        SearchablePermuted(c, r, S, S', g.kerf);
        BestIsLeast(c, r, S', g);
      }
    }
  }

  function ConfigOf(kerf: int, minRect: int, minUsable: int): Config {
    Config(Max(0, kerf), Max(1, minRect), minUsable)
  }

  /** The best cut tree of placed pieces, or which of two things "none" means:
      the node budget ran out, or no guillotine tree frees these pieces at all. */
  method DeriveTree(boxes: seq<Box>, bounds: Box, kerf: int, minRect: int, minUsable: int, nodeBudget: int)
    returns (plan: Option<Plan>, exhausted: bool)
    ensures var g := ConfigOf(kerf, minRect, minUsable);
            && (exhausted ==> plan.None?)
            && (nodeBudget >= Nodes(bounds, SortBoxes(boxes), g) ==> !exhausted)
            && (AllSolid(boxes) && !exhausted ==> (plan.Some? <==> Cuttable(bounds, boxes, g.kerf)))
            && (AllSolid(boxes) && plan.Some? ==> LeastReport(plan.value, bounds, boxes, g))
  {
    var g := ConfigOf(kerf, minRect, minUsable);
    var sorted := SortBoxes(boxes);
    SamePieces(boxes, sorted);
    hide Best, Nodes, Pick;
    var c := new Consolidator(sorted, g, nodeBudget);
    var all: seq<nat> := seq(|boxes|, i => i);
    plan := c.Solve(bounds, all);
    exhausted := plan.None? && c.budget < 0;
    assert Pick(sorted, all) == sorted;
    if AllSolid(boxes) { SortedBest(bounds, boxes, g); }
  }

  // ---- consolidate_layout -------------------------------------------------------

  datatype Layout = Layout(width: int, height: int, placed: seq<Placed>, remainders: seq<Box>, cuts: seq<SawCut>)

  function CutLength(cuts: seq<SawCut>): int {
    if cuts == [] then 0 else CutLength(cuts[..|cuts|-1]) + cuts[|cuts|-1].length
  }

  function LayoutScore(l: Layout, minUsable: int): Score {
    Plus(RectsScore(l.remainders, minUsable), Score(0, 0, 0, CutLength(l.cuts)))
  }

  lemma {:induction false} CutLengthConcat(A: seq<SawCut>, B: seq<SawCut>)
    ensures CutLength(A + B) == CutLength(A) + CutLength(B)
  {
    if B == [] {
      assert A + B == A;
    } else {
      assert (A + B)[..|A + B|-1] == A + B[..|B|-1];
      CutLengthConcat(A, B[..|B|-1]);
    }
  }

  /** The travel a plan reports is the travel of the cuts it lists. */
  lemma {:induction false} PlanLength(t: GTree, r: Box, g: Config)
    ensures PlanOf(t, r, g).length == CutLength(PlanOf(t, r, g).cuts)
  {
    if t.Cut? {
      var Cut(h, at, near, far) := t;
      PlanLength(near, NearRegion(r, h, at), g);
      PlanLength(far, FarRegion(r, h, at, g.kerf), g);
      var n := PlanOf(near, NearRegion(r, h, at), g);
      var f := if Solid(FarRegion(r, h, at, g.kerf)) then PlanOf(far, FarRegion(r, h, at, g.kerf), g) else NOTHING;
      var cut := CutOf(r, h, at);
      assert [cut][..0] == [];
      assert CutLength([cut]) == cut.length;
      CutLengthConcat([cut] + n.cuts, f.cuts);
      CutLengthConcat([cut], n.cuts);
    }
  }

  lemma NoTreeToReport(r: Box, S: seq<Box>, kerf: nat)
    requires !Cuttable(r, S, kerf)
    ensures forall c :: !Searchable(c, r, S, kerf)
  {
    hide Frees, Searchable;
    forall c ensures !Searchable(c, r, S, kerf) {
      if Searchable(c, r, S, kerf) { SearchableFrees(c, r, S, kerf); }
    }
  }

  lemma LeastIsReal(plan: Plan, r: Box, S: seq<Box>, g: Config) returns (c: GTree)
    requires LeastReport(plan, r, S, g)
    ensures plan == PlanOf(c, r, g) && Frees(c, r, S, g.kerf)
  {
    hide Frees, Searchable, PlanOf, ScoreOf;
    c :| Searchable(c, r, S, g.kerf) && plan == PlanOf(c, r, g);
    SearchableFrees(c, r, S, g.kerf);
  }

  lemma LeastSettles(plan: Plan, r: Box, S: seq<Box>, g: Config, score: Score)
    requires LeastReport(plan, r, S, g) && AtMost(score, ScoreOf(plan, g))
    ensures forall c :: Searchable(c, r, S, g.kerf) ==> AtMost(score, ScoreOf(PlanOf(c, r, g), g))
  {
    hide Searchable, PlanOf, ScoreOf;
  }

  /** The layout with the best cut tree its placements admit: pieces never move,
      the score never rises, and a changed layout reports a real tree for them. */
  method ConsolidateLayout(layout: Layout, p: Params, minRect: int, minUsable: int, nodeBudget: int)
    returns (res: Layout)
    requires AllSolid(BoxesOf(layout.placed))
    ensures res.placed == layout.placed && res.width == layout.width && res.height == layout.height
    ensures res == layout || Less(LayoutScore(res, minUsable), LayoutScore(layout, minUsable))
    ensures var g, bounds := ConfigOf(p.kerf, minRect, minUsable), UsableBounds(layout.width, layout.height, p);
            res == layout || exists c ::
              && Frees(c, bounds, BoxesOf(layout.placed), p.kerf)
              && res.cuts == PlanOf(c, bounds, g).cuts && res.remainders == PlanOf(c, bounds, g).rects
    ensures var g, bounds := ConfigOf(p.kerf, minRect, minUsable), UsableBounds(layout.width, layout.height, p);
            layout.placed != [] && Width(bounds) >= minRect && Height(bounds) >= minRect
            && nodeBudget >= Nodes(bounds, SortBoxes(BoxesOf(layout.placed)), g) ==>
              forall c :: Searchable(c, bounds, BoxesOf(layout.placed), g.kerf) ==>
                AtMost(LayoutScore(res, minUsable), ScoreOf(PlanOf(c, bounds, g), g))
  {
    hide Searchable, Frees, PlanOf, RectsScore, Nodes, LeastReport, SortBoxes, AllSolid, Cuttable, CutLength;
    if layout.placed == [] {
      return layout;
    }
    var bounds := UsableBounds(layout.width, layout.height, p);
    if Width(bounds) < minRect || Height(bounds) < minRect {
      return layout;
    }
    var plan, _ := DeriveTree(BoxesOf(layout.placed), bounds, p.kerf, minRect, minUsable, nodeBudget);
    ghost var g := ConfigOf(p.kerf, minRect, minUsable);
    ghost var S := BoxesOf(layout.placed);
    if plan.None? {
      if nodeBudget >= Nodes(bounds, SortBoxes(S), g) { NoTreeToReport(bounds, S, g.kerf); }
      return layout;
    }
    ghost var c := LeastIsReal(plan.value, bounds, S, g);
    PlanLength(c, bounds, g);
    var score := Plus(RectsScore(plan.value.rects, minUsable), Score(0, 0, 0, plan.value.length));
    var current := LayoutScore(layout, minUsable);
    if AtMost(current, score) {
      LeastSettles(plan.value, bounds, S, g, current);
      return layout;
    }
    LessTotal(current, score);
    LeastSettles(plan.value, bounds, S, g, score);
    res := layout.(remainders := plan.value.rects, cuts := plan.value.cuts);
  }
}
