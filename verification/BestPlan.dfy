/**
The answer the memoised search of consolidate.py stands for: a recursion over the
candidate cuts with no memo and no budget, and the proof that it is the least
report over the whole search space.
*/
module BestPlan {
  import opened Geometry
  import opened Guillotine
  import opened CandidateCuts
  import opened Plans

  datatype Ranked = Ranked(plan: Plan, cut: Candidate)

  /** Score first; position and direction settle ties the same way on every run. */
  predicate Better(a: Ranked, b: Ranked, g: Config) {
    || Less(ScoreOf(a.plan, g), ScoreOf(b.plan, g))
    || (ScoreOf(a.plan, g) == ScoreOf(b.plan, g)
        && (a.cut.at < b.cut.at || (a.cut.at == b.cut.at && !a.cut.horizontal && b.cut.horizontal)))
  }

  function Best(r: Box, S: seq<Box>, g: Config): Option<Plan>
    decreases Extent(r), 2
  {
    if S == [] then Some(Leftover(r, g))
    else if S == [r] then Some(NOTHING)
    else
      match BestOf(CandidateList(r, S, g.kerf), r, S, g)
      case None => None
      case Some(best) => Some(best.plan)
  }

  /** The best plan that starts with one of the cuts `cs`. */
  function BestOf(cs: seq<Candidate>, r: Box, S: seq<Box>, g: Config): Option<Ranked>
    requires forall c :: c in cs ==> Within(r, c.horizontal, c.at)
    decreases Extent(r), 1, |cs|
  {
    if cs == [] then None
    else
      var c, rest := cs[|cs|-1], BestOf(cs[..|cs|-1], r, S, g);
      Challenge(rest, Split(r, S, c.horizontal, c.at, g), c, g)
  }

  /** The incumbent, unless the plan that starts with `c` beats it. */
  function Challenge(best: Option<Ranked>, plan: Option<Plan>, c: Candidate, g: Config): Option<Ranked> {
    if plan.None? then best
    else if best.None? || Better(Ranked(plan.value, c), best.value, g) then Some(Ranked(plan.value, c))
    else best
  }

  /** The best plan of both sides of one cut. */
  function Split(r: Box, S: seq<Box>, h: bool, at: int, g: Config): Option<Plan>
    requires Within(r, h, at)
    decreases Extent(r), 0
  {
    SidesShrink(r, h, at, g.kerf);
    var N, F, f := Near(S, h, at), Far(S, h, at, g.kerf), FarRegion(r, h, at, g.kerf);
    if |N| + |F| != |S| then None
    else
      var near := Best(NearRegion(r, h, at), N, g);
      var far := if Solid(f) then Best(f, F, g) else if F == [] then Some(NOTHING) else None;
      if near.None? || far.None? then None else Some(Join(CutOf(r, h, at), near.value, far.value))
  }

  // ---- the best plan is a plan of the search space ---------------------------

  lemma {:induction false} BestOfIsOne(cs: seq<Candidate>, r: Box, S: seq<Box>, g: Config)
    requires forall c :: c in cs ==> Within(r, c.horizontal, c.at)
    ensures var b := BestOf(cs, r, S, g);
            b.Some? ==>
              b.value.cut in cs
              && Split(r, S, b.value.cut.horizontal, b.value.cut.at, g) == Some(b.value.plan)
  {
    hide Split, Better;
    if cs != [] {
      assert cs[|cs|-1] in cs;
      BestOfIsOne(cs[..|cs|-1], r, S, g);
    }
  }

  lemma {:induction false} BestIsSearchable(r: Box, S: seq<Box>, g: Config) returns (c: GTree)
    requires Best(r, S, g).Some?
    ensures Searchable(c, r, S, g.kerf) && PlanOf(c, r, g) == Best(r, S, g).value
    decreases Extent(r)
  {
    hide Searchable, IsCandidate, Clear, Side, BestOf;
    if S == [] {
      SearchableLeaf(r, g.kerf);
      c := Empty;
    } else if S == [r] {
      SearchableLeaf(r, g.kerf);
      c := Whole;
    } else {
      var cs := CandidateList(r, S, g.kerf);
      BestOfIsOne(cs, r, S, g);
      var Candidate(h, at) := BestOf(cs, r, S, g).value.cut;
      assert Candidate(h, at) in cs;
      c := SplitIsSearchable(r, S, h, at, g);
    }
  }

  lemma {:induction false} SplitIsSearchable(r: Box, S: seq<Box>, h: bool, at: int, g: Config) returns (c: GTree)
    requires S != [] && S != [r] && IsCandidate(r, S, g.kerf, h, at) && Split(r, S, h, at, g).Some?
    ensures Searchable(c, r, S, g.kerf) && PlanOf(c, r, g) == Split(r, S, h, at, g).value
    decreases Extent(r), 0
  {
    hide Searchable, Best, Side;
    SidesShrink(r, h, at, g.kerf);
    var n, f := NearRegion(r, h, at), FarRegion(r, h, at, g.kerf);
    var near := BestIsSearchable(n, Near(S, h, at), g);
    var far := Empty;
    if Solid(f) {
      far := BestIsSearchable(f, Far(S, h, at, g.kerf), g);
    } else {
      SearchableLeaf(f, g.kerf);
    }
    c := Cut(h, at, near, far);
    SearchableCut(h, at, near, far, r, S, g.kerf);
  }

  // ---- and no plan of the search space is better -------------------------------

  lemma LessTransitive(a: Score, b: Score, c: Score)
    requires AtMost(a, b) && AtMost(b, c)
    ensures AtMost(a, c)
  {
  }

  lemma LessTotal(a: Score, b: Score)
    ensures AtMost(a, b) || Less(b, a)
  {
  }

  lemma ChallengeLeast(best: Option<Ranked>, plan: Option<Plan>, c: Candidate, g: Config)
    ensures var b := Challenge(best, plan, c, g);
            && (best.Some? ==> b.Some? && AtMost(ScoreOf(b.value.plan, g), ScoreOf(best.value.plan, g)))
            && (plan.Some? ==> b.Some? && AtMost(ScoreOf(b.value.plan, g), ScoreOf(plan.value, g)))
  {
    hide ScoreOf;
    if best.Some? && plan.Some? {
      LessTotal(ScoreOf(best.value.plan, g), ScoreOf(plan.value, g));
    }
  }

  lemma {:induction false} BestOfLeast(cs: seq<Candidate>, r: Box, S: seq<Box>, g: Config, c: Candidate)
    requires forall c :: c in cs ==> Within(r, c.horizontal, c.at)
    requires c in cs && Split(r, S, c.horizontal, c.at, g).Some?
    ensures var b := BestOf(cs, r, S, g);
            b.Some? && AtMost(ScoreOf(b.value.plan, g), ScoreOf(Split(r, S, c.horizontal, c.at, g).value, g))
  {
    hide Split, ScoreOf, Challenge, Less;
    var last, rest := cs[|cs|-1], cs[..|cs|-1];
    assert last in cs;
    ChallengeLeast(BestOf(rest, r, S, g), Split(r, S, last.horizontal, last.at, g), last, g);
    if c != last {
      assert c in rest;
      BestOfLeast(rest, r, S, g, c);
      LessTransitive(ScoreOf(BestOf(cs, r, S, g).value.plan, g), ScoreOf(BestOf(rest, r, S, g).value.plan, g),
                     ScoreOf(Split(r, S, c.horizontal, c.at, g).value, g));
    }
  }

  /** No tree of the search space has a better report than the recursion's. */
  lemma {:induction false} BestIsLeast(c: GTree, r: Box, S: seq<Box>, g: Config)
    requires Searchable(c, r, S, g.kerf) && AllSolid(S)
    ensures Best(r, S, g).Some?
    ensures AtMost(ScoreOf(Best(r, S, g).value, g), ScoreOf(PlanOf(c, r, g), g))
  {
    if S != [] && S != [r] {
      var Cut(h, at, near, far) := c;
      var n, f := NearRegion(r, h, at), FarRegion(r, h, at, g.kerf);
      var N, F := Near(S, h, at), Far(S, h, at, g.kerf);
      assert Searchable(near, n, N, g.kerf) && Searchable(far, f, F, g.kerf);
      BestIsLeast(near, n, N, g);
      if Solid(f) { BestIsLeast(far, f, F, g); }
      CutSplits(S, h, at, g.kerf);
      SplitLeast(c, r, S, g);
      hide Searchable, Side, ScoreOf, Less, PlanOf;
      var cs := CandidateList(r, S, g.kerf);
      assert Candidate(h, at) in cs;
      BestOfLeast(cs, r, S, g, Candidate(h, at));
      LessTransitive(ScoreOf(Best(r, S, g).value, g), ScoreOf(Split(r, S, h, at, g).value, g),
                     ScoreOf(PlanOf(c, r, g), g));
    }
  }

  lemma SplitLeast(c: GTree, r: Box, S: seq<Box>, g: Config)
    requires c.Cut? && Within(r, c.horizontal, c.at)
    requires var f := FarRegion(r, c.horizontal, c.at, g.kerf);
             var N, F := Near(S, c.horizontal, c.at), Far(S, c.horizontal, c.at, g.kerf);
             var near := Best(NearRegion(r, c.horizontal, c.at), N, g);
             && |N| + |F| == |S|
             && near.Some?
                && AtMost(ScoreOf(near.value, g), ScoreOf(PlanOf(c.near, NearRegion(r, c.horizontal, c.at), g), g))
             && (Solid(f) ==>
                 Best(f, F, g).Some? && AtMost(ScoreOf(Best(f, F, g).value, g), ScoreOf(PlanOf(c.far, f, g), g)))
             && (!Solid(f) ==> F == [])
    ensures Split(r, S, c.horizontal, c.at, g).Some?
    ensures AtMost(ScoreOf(Split(r, S, c.horizontal, c.at, g).value, g), ScoreOf(PlanOf(c, r, g), g))
  {
    hide Best, Side, ScoreOf, Less;
    var Cut(h, at, near, far) := c;
    var n, f := NearRegion(r, h, at), FarRegion(r, h, at, g.kerf);
    JoinImproves(CutOf(r, h, at), Best(n, Near(S, h, at), g).value, PlanOf(near, n, g),
                 if Solid(f) then Best(f, Far(S, h, at, g.kerf), g).value else NOTHING,
                 if Solid(f) then PlanOf(far, f, g) else NOTHING, g);
  }

  /** The recursion finds a plan exactly when the pieces can be cut at all. */
  lemma BestDecidesCuttable(r: Box, S: seq<Box>, g: Config)
    requires AllSolid(S)
    ensures Best(r, S, g).Some? <==> Cuttable(r, S, g.kerf)
  {
    CuttableIffSearchable(r, S, g.kerf);
    if Best(r, S, g).Some? {
      var c := BestIsSearchable(r, S, g);
    }
    if c :| Searchable(c, r, S, g.kerf) {
      BestIsLeast(c, r, S, g);
    }
  }
}
