/**
What consolidate.py reports for a tree, how it ranks reports, and the best report
over the whole search space.
*/
module Plans {
  import opened Geometry
  import opened Guillotine
  import opened CandidateCuts

  datatype Option<+T> = None | Some(value: T)

  /** A saw travel segment, as models.Cut. */
  datatype SawCut = SawCut(x: int, y: int, length: int, horizontal: bool)

  /** What one derivation is parameterised by. */
  datatype Config = Config(kerf: nat, minRect: int, minUsable: int)

  /** Cuts and kept leftovers in tree order, and the total saw travel. */
  datatype Plan = Plan(cuts: seq<SawCut>, rects: seq<Box>, length: int)

  const NOTHING := Plan([], [], 0)

  function CutOf(r: Box, h: bool, at: int): SawCut {
    if h then SawCut(r.x0, at, Width(r), true) else SawCut(at, r.y0, Height(r), false)
  }

  /** An offcut too thin to keep is not reported. */
  function Leftover(r: Box, g: Config): Plan {
    Plan([], if Width(r) >= g.minRect && Height(r) >= g.minRect then [r] else [], 0)
  }

  function Join(cut: SawCut, near: Plan, far: Plan): Plan {
    Plan([cut] + near.cuts + far.cuts, near.rects + far.rects, cut.length + near.length + far.length)
  }

  /** The report of a given tree. */
  function PlanOf(t: GTree, r: Box, g: Config): Plan {
    match t
    case Empty => Leftover(r, g)
    case Whole => NOTHING
    case Cut(h, at, near, far) =>
      Join(CutOf(r, h, at), PlanOf(near, NearRegion(r, h, at), g),
           if Solid(FarRegion(r, h, at, g.kerf)) then PlanOf(far, FarRegion(r, h, at, g.kerf), g) else NOTHING)
  }

  // ---- ranking -------------------------------------------------------------

  /** Lower is better, first component first. The areas enter negated. */
  datatype Score = Score(usable: int, squares: int, count: int, length: int)

  predicate Less(a: Score, b: Score) {
    || a.usable < b.usable
    || (a.usable == b.usable && a.squares < b.squares)
    || (a.usable == b.usable && a.squares == b.squares && a.count < b.count)
    || (a.usable == b.usable && a.squares == b.squares && a.count == b.count && a.length < b.length)
  }

  predicate AtMost(a: Score, b: Score) {
    a == b || Less(a, b)
  }

  function Plus(a: Score, b: Score): Score {
    Score(a.usable + b.usable, a.squares + b.squares, a.count + b.count, a.length + b.length)
  }

  function UsableArea(b: Box, minUsable: int): int {
    if Width(b) >= minUsable && Height(b) >= minUsable then Area(b) else 0
  }

  function RectsScore(rects: seq<Box>, minUsable: int): Score {
    if rects == [] then Score(0, 0, 0, 0)
    else Plus(RectsScore(rects[..|rects|-1], minUsable), RectScore(rects[|rects|-1], minUsable))
  }

  function RectScore(b: Box, minUsable: int): Score {
    var a := UsableArea(b, minUsable);
    Score(-a, -(a * a), 1, 0)
  }

  function ScoreOf(p: Plan, g: Config): Score {
    Plus(RectsScore(p.rects, g.minUsable), Score(0, 0, 0, p.length))
  }

  lemma {:induction false} RectsScoreConcat(A: seq<Box>, B: seq<Box>, minUsable: int)
    ensures RectsScore(A + B, minUsable) == Plus(RectsScore(A, minUsable), RectsScore(B, minUsable))
  {
    hide RectScore;
    if B == [] {
      assert A + B == A;
    } else {
      assert (A + B)[..|A + B|-1] == A + B[..|B|-1];
      RectsScoreConcat(A, B[..|B|-1], minUsable);
    }
  }

  /** The area of the offcuts large enough to use. */
  function UsableTotal(rects: seq<Box>, minUsable: int): int {
    if rects == [] then 0 else UsableTotal(rects[..|rects|-1], minUsable) + UsableArea(rects[|rects|-1], minUsable)
  }

  lemma {:induction false} UsableScore(rects: seq<Box>, minUsable: int)
    ensures RectsScore(rects, minUsable).usable == -UsableTotal(rects, minUsable)
    ensures RectsScore(rects, minUsable).count == |rects| && RectsScore(rects, minUsable).length == 0
  {
    hide UsableArea;
    if rects != [] { UsableScore(rects[..|rects|-1], minUsable); }
  }

  /** More usable area always wins, however it is spread and whatever the cuts cost. */
  lemma MoreUsableWins(p: Plan, q: Plan, g: Config)
    requires UsableTotal(p.rects, g.minUsable) > UsableTotal(q.rects, g.minUsable)
    ensures Less(ScoreOf(p, g), ScoreOf(q, g))
  {
    hide RectsScore, UsableTotal;
    UsableScore(p.rects, g.minUsable);
    UsableScore(q.rects, g.minUsable);
  }

  lemma SquareOfSum(x: int, y: int)
    requires x > 0 && y > 0
    ensures (x + y) * (x + y) > x * x + y * y
  {
    assert (x + y) * (x + y) == x * x + 2 * (x * y) + y * y;
  }

  /** One usable offcut wins over two that are usable and together as large. */
  lemma MergingWins(rest: seq<Box>, a: Box, b: Box, whole: Box, cuts: seq<SawCut>, cuts': seq<SawCut>, length: int,
                    length': int, g: Config)
    requires UsableArea(a, g.minUsable) > 0 && UsableArea(b, g.minUsable) > 0
    requires UsableArea(whole, g.minUsable) == UsableArea(a, g.minUsable) + UsableArea(b, g.minUsable)
    ensures Less(ScoreOf(Plan(cuts, rest + [whole], length), g), ScoreOf(Plan(cuts', rest + [a, b], length'), g))
  {
    hide UsableArea, RectsScore;
    RectsScoreConcat(rest, [whole], g.minUsable);
    RectsScoreConcat(rest, [a, b], g.minUsable);
    RectsScoreConcat([a], [b], g.minUsable);
    assert [a] + [b] == [a, b];
    OneScored(a, g.minUsable);
    OneScored(b, g.minUsable);
    OneScored(whole, g.minUsable);
    SquareOfSum(UsableArea(a, g.minUsable), UsableArea(b, g.minUsable));
  }

  lemma OneScored(b: Box, minUsable: int)
    ensures RectsScore([b], minUsable) == RectScore(b, minUsable)
  {
    assert [b][..0] == [];
  }

  /** At the same usable areas fewer leftovers win, and for the same leftovers less travel. */
  lemma TidierWins(rest: seq<Box>, scrap: Box, cuts: seq<SawCut>, cuts': seq<SawCut>, length: int, length': int,
                   g: Config)
    ensures UsableArea(scrap, g.minUsable) == 0 ==>
              Less(ScoreOf(Plan(cuts, rest, length), g), ScoreOf(Plan(cuts', rest + [scrap], length'), g))
    ensures length < length' ==> Less(ScoreOf(Plan(cuts, rest, length), g), ScoreOf(Plan(cuts', rest, length'), g))
  {
    hide UsableArea, RectsScore;
    RectsScoreConcat(rest, [scrap], g.minUsable);
    OneScored(scrap, g.minUsable);
  }

  /** The score is additive: siblings contribute a fixed amount. */
  lemma JoinScore(cut: SawCut, near: Plan, far: Plan, g: Config)
    ensures ScoreOf(Join(cut, near, far), g) ==
            Plus(Score(0, 0, 0, cut.length), Plus(ScoreOf(near, g), ScoreOf(far, g)))
  {
    RectsScoreConcat(near.rects, far.rects, g.minUsable);
    hide RectsScore;
  }

  lemma PlusMonotone(a: Score, a': Score, b: Score, b': Score)
    requires AtMost(a, a') && AtMost(b, b')
    ensures AtMost(Plus(a, b), Plus(a', b'))
  {
  }

  /** Hence improving either side of a cut improves the whole. */
  lemma JoinImproves(cut: SawCut, near: Plan, near': Plan, far: Plan, far': Plan, g: Config)
    requires AtMost(ScoreOf(near, g), ScoreOf(near', g)) && AtMost(ScoreOf(far, g), ScoreOf(far', g))
    ensures AtMost(ScoreOf(Join(cut, near, far), g), ScoreOf(Join(cut, near', far'), g))
  {
    hide ScoreOf;
    JoinScore(cut, near, far, g);
    JoinScore(cut, near', far', g);
    PlusMonotone(ScoreOf(near, g), ScoreOf(near', g), ScoreOf(far, g), ScoreOf(far', g));
    PlusMonotone(Score(0, 0, 0, cut.length), Score(0, 0, 0, cut.length),
                 Plus(ScoreOf(near, g), ScoreOf(far, g)), Plus(ScoreOf(near', g), ScoreOf(far', g)));
  }

  // ---- the list of candidates ----------------------------------------------

  datatype Candidate = Candidate(horizontal: bool, at: int)

  predicate Ascending(xs: seq<int>) {
    forall i, j :: 0 <= i < j < |xs| ==> xs[i] < xs[j]
  }

  /** Python's `sorted(set)` kept up to date: insertion without repetition. */
  function Insert(xs: seq<int>, x: int): (r: seq<int>)
    requires Ascending(xs)
    ensures Ascending(r)
    ensures forall y :: y in r <==> y in xs || y == x
  {
    if xs == [] then [x]
    else if xs[|xs|-1] < x then xs + [x]
    else if xs[|xs|-1] == x then xs
    else
      var rest := Insert(xs[..|xs|-1], x);
      assert forall i :: 0 <= i < |rest| ==> rest[i] in rest && rest[i] < xs[|xs|-1];
      rest + [xs[|xs|-1]]
  }

  predicate Within(r: Box, h: bool, at: int) {
    Lo(r, h) < at < Hi(r, h)
  }

  function InsertWithin(xs: seq<int>, r: Box, h: bool, at: int): (res: seq<int>)
    requires Ascending(xs)
    ensures Ascending(res)
    ensures forall y :: y in res <==> y in xs || (y == at && Within(r, h, at))
  {
    if Within(r, h, at) then Insert(xs, at) else xs
  }

  /** Positions next to a piece and strictly inside the region, ascending. */
  function Positions(r: Box, S: seq<Box>, kerf: nat, h: bool): (xs: seq<int>)
    ensures Ascending(xs)
    ensures forall x :: x in xs <==> Within(r, h, x) && exists b :: b in S && (x == Hi(b, h) || x == Lo(b, h) - kerf)
  {
    if S == [] then []
    else
      var b := S[|S|-1];
      InsertWithin(InsertWithin(Positions(r, S[..|S|-1], kerf, h), r, h, Hi(b, h)), r, h, Lo(b, h) - kerf)
  }

  /** The positions the blade can be run at without touching a piece. */
  function ClearOnes(xs: seq<int>, S: seq<Box>, kerf: nat, h: bool): (cs: seq<Candidate>)
    ensures forall c :: c in cs <==> c.horizontal == h && c.at in xs && Clear(S, h, c.at, kerf)
  {
    if xs == [] then []
    else
      ClearOnes(xs[..|xs|-1], S, kerf, h)
      + if Clear(S, h, xs[|xs|-1], kerf) then [Candidate(h, xs[|xs|-1])] else []
  }

  /** Rips first, then crosscuts, each from the near edge on. */
  function CandidateList(r: Box, S: seq<Box>, kerf: nat): (cs: seq<Candidate>)
    ensures forall c :: c in cs <==> IsCandidate(r, S, kerf, c.horizontal, c.at)
  {
    ClearOnes(Positions(r, S, kerf, false), S, kerf, false) + ClearOnes(Positions(r, S, kerf, true), S, kerf, true)
  }
}
