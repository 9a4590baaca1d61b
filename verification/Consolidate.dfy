/**
consolidate.py: the memoised, budgeted search for the best cut tree of a sheet
whose pieces are already placed.
*/
module Consolidate {
  import opened Geometry
  import opened Guillotine
  import opened CandidateCuts
  import opened Plans
  import opened BestPlan

  // ---- pieces by index -------------------------------------------------------

  predicate Indices(idxs: seq<nat>, n: nat) {
    forall k :: 0 <= k < |idxs| ==> idxs[k] < n
  }

  function Pick(boxes: seq<Box>, idxs: seq<nat>): (S: seq<Box>)
    requires Indices(idxs, |boxes|)
    ensures |S| == |idxs| && forall i :: 0 <= i < |S| ==> S[i] == boxes[idxs[i]]
  {
    if idxs == [] then [] else Pick(boxes, idxs[..|idxs|-1]) + [boxes[idxs[|idxs|-1]]]
  }

  /** The indices whose boxes lie on one side of a cut, in order. */
  function SideIdxs(boxes: seq<Box>, idxs: seq<nat>, h: bool, q: int, far: bool): (r: seq<nat>)
    requires Indices(idxs, |boxes|)
    ensures Indices(r, |boxes|)
    ensures Pick(boxes, r) == Side(Pick(boxes, idxs), h, q, far)
  {
    if idxs == [] then []
    else
      var init, last := idxs[..|idxs|-1], idxs[|idxs|-1];
      SideLast(Pick(boxes, init), boxes[last], h, q, far);
      var rest := SideIdxs(boxes, init, h, q, far);
      assert Pick(boxes, rest + [last]) == Pick(boxes, rest) + [boxes[last]];
      if OnSide(boxes[last], h, q, far) then rest + [last] else rest
  }

  // ---- how many regions an unmemoised search would visit -----------------------

  function Nodes(r: Box, S: seq<Box>, g: Config): nat
    decreases Extent(r), 2
  {
    1 + if S == [] || S == [r] then 0 else NodesOf(CandidateList(r, S, g.kerf), r, S, g)
  }

  function NodesOf(cs: seq<Candidate>, r: Box, S: seq<Box>, g: Config): nat
    requires forall c :: c in cs ==> Within(r, c.horizontal, c.at)
    decreases Extent(r), 1, |cs|
  {
    if cs == [] then 0
    else
      var c := cs[|cs|-1];
      NodesOf(cs[..|cs|-1], r, S, g) + NodesSplit(r, S, c.horizontal, c.at, g)
  }

  function NodesSplit(r: Box, S: seq<Box>, h: bool, at: int, g: Config): nat
    requires Within(r, h, at)
    decreases Extent(r), 0
  {
    SidesShrink(r, h, at, g.kerf);
    var f := FarRegion(r, h, at, g.kerf);
    Nodes(NearRegion(r, h, at), Near(S, h, at), g) + if Solid(f) then Nodes(f, Far(S, h, at, g.kerf), g) else 0
  }

  lemma {:induction false} NodesOfPrefix(cs: seq<Candidate>, k: nat, r: Box, S: seq<Box>, g: Config)
    requires forall c :: c in cs ==> Within(r, c.horizontal, c.at)
    requires k <= |cs|
    ensures NodesOf(cs[..k], r, S, g) <= NodesOf(cs, r, S, g)
  {
    hide NodesSplit;
    if k < |cs| {
      assert cs[|cs|-1] in cs;
      NodesOfPrefix(cs[..|cs|-1], k, r, S, g);
      assert cs[..|cs|-1][..k] == cs[..k];
    } else {
      assert cs[..k] == cs;
    }
  }

  function BestCut(r: Box, S: seq<Box>, g: Config): Option<Plan> {
    match BestOf(CandidateList(r, S, g.kerf), r, S, g)
    case None => None
    case Some(best) => Some(best.plan)
  }

  lemma UnfoldBest(r: Box, S: seq<Box>, g: Config)
    ensures Nodes(r, S, g) >= 1
    ensures S == [] ==> Best(r, S, g) == Some(Leftover(r, g))
    ensures S == [r] ==> Best(r, S, g) == Some(NOTHING)
    ensures S != [] && S != [r] ==>
              && Best(r, S, g) == BestCut(r, S, g)
              && Nodes(r, S, g) == 1 + NodesOf(CandidateList(r, S, g.kerf), r, S, g)
  {
  }

  lemma NoPositions(r: Box, kerf: nat)
    ensures Positions(r, [], kerf, false) == [] && Positions(r, [], kerf, true) == []
  {
  }

  lemma PositionsLast(r: Box, S: seq<Box>, i: nat, kerf: nat, h: bool)
    requires i < |S|
    ensures Positions(r, S[..i+1], kerf, h) ==
            InsertWithin(InsertWithin(Positions(r, S[..i], kerf, h), r, h, Hi(S[i], h)), r, h, Lo(S[i], h) - kerf)
  {
    hide InsertWithin;
    assert S[..i+1][..i] == S[..i];
  }

  lemma InList(r: Box, S: seq<Box>, g: Config)
    ensures var cs := CandidateList(r, S, g.kerf);
            forall k :: 0 <= k < |cs| ==> Within(r, cs[k].horizontal, cs[k].at)
  {
    var cs := CandidateList(r, S, g.kerf);
    forall k | 0 <= k < |cs| ensures Within(r, cs[k].horizontal, cs[k].at) { assert cs[k] in cs; }
  }

  lemma UnfoldBestOf(cs: seq<Candidate>, k: nat, r: Box, S: seq<Box>, g: Config)
    requires forall k :: 0 <= k < |cs| ==> Within(r, cs[k].horizontal, cs[k].at)
    requires k <= |cs|
    ensures k == 0 ==> BestOf(cs[..k], r, S, g) == None && NodesOf(cs[..k], r, S, g) == 0
    ensures NodesOf(cs[..k], r, S, g) <= NodesOf(cs, r, S, g)
    ensures k < |cs| ==>
              && BestOf(cs[..k+1], r, S, g) ==
                 Challenge(BestOf(cs[..k], r, S, g), Split(r, S, cs[k].horizontal, cs[k].at, g), cs[k], g)
              && NodesOf(cs[..k+1], r, S, g) ==
                 NodesOf(cs[..k], r, S, g) + NodesSplit(r, S, cs[k].horizontal, cs[k].at, g)
              && NodesOf(cs[..k+1], r, S, g) <= NodesOf(cs, r, S, g)
  {
    hide Split, NodesSplit, Challenge;
    NodesOfPrefix(cs, k, r, S, g);
    if k < |cs| {
      NodesOfPrefix(cs, k + 1, r, S, g);
      assert cs[..k+1][..k] == cs[..k];
    }
  }

  // ---- the search ----------------------------------------------------------------

  type Memo = map<(Box, seq<nat>), Option<Plan>>

  /** Every remembered answer is the unbudgeted one. */
  ghost predicate Remembers(memo: Memo, boxes: seq<Box>, g: Config) {
    forall key :: key in memo ==>
      Indices(key.1, |boxes|) && memo[key] == Best(key.0, Pick(boxes, key.1), g)
  }

  lemma Remembered(memo: Memo, boxes: seq<Box>, g: Config, key: (Box, seq<nat>))
    requires Remembers(memo, boxes, g) && key in memo
    ensures Indices(key.1, |boxes|) && memo[key] == Best(key.0, Pick(boxes, key.1), g)
  {
  }

  lemma RememberOne(memo: Memo, boxes: seq<Box>, g: Config, key: (Box, seq<nat>), plan: Option<Plan>)
    requires Remembers(memo, boxes, g) && Indices(key.1, |boxes|) && plan == Best(key.0, Pick(boxes, key.1), g)
    ensures Remembers(memo[key := plan], boxes, g)
  {
    hide Best, Pick;
  }

  /** One board's derivation: it carries the node budget and the memo. */
  class Consolidator {
    const boxes: seq<Box>
    const g: Config
    var budget: int
    var memo: Memo

    constructor (boxes: seq<Box>, g: Config, nodeBudget: int)
      ensures this.boxes == boxes && this.g == g && budget == nodeBudget && memo == map[]
    {
      this.boxes := boxes;
      this.g := g;
      budget := nodeBudget;
      memo := map[];
    }

    /** What the memo holds for a region is the unbudgeted answer for it. */
    ghost predicate Valid()
      reads this
    {
      Remembers(memo, boxes, g)
    }

    /** A search that is out of budget has answered nothing; any other search has
        found the best plan, or established that there is none. */
    ghost predicate Answers(plan: Option<Plan>, want: Option<Plan>, before: int, nodes: nat)
      reads this
    {
      && Valid()
      && before - nodes <= budget <= before
      && plan == if budget < 0 then None else want
    }

    method Solve(r: Box, idxs: seq<nat>) returns (plan: Option<Plan>)
      requires Valid() && Indices(idxs, |boxes|)
      requires budget < 0 ==> memo == map[]
      modifies this
      ensures Answers(plan, Best(r, Pick(boxes, idxs), g), old(budget), Nodes(r, Pick(boxes, idxs), g))
      decreases Extent(r), 2
    {
      hide Best, Nodes, NodesOf, Pick, Remembers;
      UnfoldBest(r, Pick(boxes, idxs), g);
      var key := (r, idxs);
      if key in memo {
        Remembered(memo, boxes, g, key);
        return memo[key];
      }
      budget := budget - 1;
      if budget < 0 {
        return None;
      }
      if idxs == [] {
        plan := Some(Leftover(r, g));
      } else if |idxs| == 1 && boxes[idxs[0]] == r {
        assert Pick(boxes, idxs) == [r];
        plan := Some(NOTHING);
      } else {
        plan := SearchCuts(r, idxs);
        if budget < 0 {
          return None;
        }
      }
      RememberOne(memo, boxes, g, key, plan);
      memo := memo[key := plan];
    }

    /** Tries every candidate cut of a region that holds pieces to be freed. */
    method SearchCuts(r: Box, idxs: seq<nat>) returns (plan: Option<Plan>)
      requires Valid() && Indices(idxs, |boxes|) && budget >= 0
      modifies this
      ensures Answers(plan, BestCut(r, Pick(boxes, idxs), g), old(budget),
                      NodesOf(CandidateList(r, Pick(boxes, idxs), g.kerf), r, Pick(boxes, idxs), g))
      decreases Extent(r), 1
    {
      hide Best, Nodes, BestOf, NodesOf, NodesSplit, Split, Pick, CandidateList, IsCandidate;
      ghost var S := Pick(boxes, idxs);
      var cs := Candidates(r, idxs);
      InList(r, S, g);
      var best: Option<Ranked> := None;
      var k := 0;
      UnfoldBestOf(cs, 0, r, S, g);
      while k < |cs|
        invariant 0 <= k <= |cs| && budget >= 0 && Valid()
        invariant best == BestOf(cs[..k], r, S, g)
        invariant old(budget) - NodesOf(cs[..k], r, S, g) <= budget <= old(budget)
      {
        UnfoldBestOf(cs, k, r, S, g);
        var c := cs[k];
        var p := Apply(r, idxs, c.horizontal, c.at);
        if p.None? && budget < 0 {
          return None;
        }
        if p.Some? && (best.None? || Better(Ranked(p.value, c), best.value, g)) {
          best := Some(Ranked(p.value, c));
        }
        k := k + 1;
      }
      assert cs[..k] == cs;
      plan := if best.None? then None else Some(best.value.plan);
    }

    method Candidates(r: Box, idxs: seq<nat>) returns (cs: seq<Candidate>)
      requires Indices(idxs, |boxes|)
      ensures cs == CandidateList(r, Pick(boxes, idxs), g.kerf)
    {
      hide Positions, Pick, IsCandidate, Clear, InsertWithin;
      ghost var S := Pick(boxes, idxs);
      var xs: seq<int>, ys: seq<int> := [], [];
      NoPositions(r, g.kerf);
      for i := 0 to |idxs|
        invariant Ascending(xs) && Ascending(ys)
        invariant xs == Positions(r, S[..i], g.kerf, false)
        invariant ys == Positions(r, S[..i], g.kerf, true)
      {
        var b := boxes[idxs[i]];
        PositionsLast(r, S, i, g.kerf, false);
        PositionsLast(r, S, i, g.kerf, true);
        xs := InsertWithin(InsertWithin(xs, r, false, b.x1), r, false, b.x0 - g.kerf);
        ys := InsertWithin(InsertWithin(ys, r, true, b.y1), r, true, b.y0 - g.kerf);
      }
      assert S[..|idxs|] == S;
      var rips := ClearPositions(xs, idxs, false);
      var crosscuts := ClearPositions(ys, idxs, true);
      cs := rips + crosscuts;
    }

    method ClearPositions(xs: seq<int>, idxs: seq<nat>, h: bool) returns (cs: seq<Candidate>)
      requires Indices(idxs, |boxes|)
      ensures cs == ClearOnes(xs, Pick(boxes, idxs), g.kerf, h)
    {
      ghost var S := Pick(boxes, idxs);
      cs := [];
      for k := 0 to |xs|
        invariant cs == ClearOnes(xs[..k], S, g.kerf, h)
      {
        assert xs[..k+1][..k] == xs[..k];
        var clear := forall i ::
            i in idxs ==> OnSide(boxes[i], h, xs[k] + g.kerf, true) || OnSide(boxes[i], h, xs[k], false);
        ClearByIndex(idxs, h, xs[k]);
        if clear {
          cs := cs + [Candidate(h, xs[k])];
        }
      }
      assert xs[..|xs|] == xs;
    }

    lemma ClearByIndex(idxs: seq<nat>, h: bool, at: int)
      requires Indices(idxs, |boxes|)
      ensures Clear(Pick(boxes, idxs), h, at, g.kerf) <==>
              forall i :: i in idxs ==> OnSide(boxes[i], h, at + g.kerf, true) || OnSide(boxes[i], h, at, false)
    {
      var S := Pick(boxes, idxs);
      forall k | 0 <= k < |S| ensures S[k] in S && idxs[k] in idxs && S[k] == boxes[idxs[k]] {}
    }

    /** Splits the region at the cut and solves both sides. */
    method Apply(r: Box, idxs: seq<nat>, h: bool, at: int) returns (plan: Option<Plan>)
      requires Valid() && Indices(idxs, |boxes|) && budget >= 0
      requires Within(r, h, at)
      modifies this
      ensures Answers(plan, Split(r, Pick(boxes, idxs), h, at, g), old(budget),
                      NodesSplit(r, Pick(boxes, idxs), h, at, g))
      decreases Extent(r), 0
    {
      hide Best, Nodes, Pick, Side;
      SidesShrink(r, h, at, g.kerf);
      var near := SideIdxs(boxes, idxs, h, at, false);
      var far := SideIdxs(boxes, idxs, h, at + g.kerf, true);
      if |near| + |far| != |idxs| {
        return None;
      }
      var nearPlan := Solve(NearRegion(r, h, at), near);
      if nearPlan.None? {
        return None;
      }
      var farRegion := FarRegion(r, h, at, g.kerf);
      var farPlan := Some(NOTHING);
      if Solid(farRegion) {
        farPlan := Solve(farRegion, far);
        if farPlan.None? {
          return None;
        }
      } else if far != [] {
        return None;
      }
      plan := Some(Join(CutOf(r, h, at), nearPlan.value, farPlan.value));
    }
  }
}
