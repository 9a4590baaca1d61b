/**
leftover_extensions of sheet_check.py: how far a leftover of a hand-edited sheet can
grow in each direction and still be cut whole.
*/
module Extensions {
  import opened Geometry
  import opened Guillotine
  import opened Surgery
  import opened CandidateCuts
  import opened Filling
  import opened Plans
  import opened Sheets
  import opened Derive
  import opened FreeSpace
  import opened HandSheet
  import Consolidate

  /** Along x or y, towards the far or the near edge. */
  datatype Direction = Direction(horizontal: bool, forward: bool)

  /** The directions in the order they are tried. */
  const DIRECTIONS: seq<Direction> :=
    [Direction(false, true), Direction(false, false), Direction(true, true), Direction(true, false)]

  /** Something that stands in the leftover's way in one direction or the other. */
  predicate InTheWay(o: Box, own: Box, h: bool) {
    Lo(o, !h) < Hi(own, !h) && Hi(o, !h) > Lo(own, !h)
  }

  /** How one obstacle limits a side that moves. */
  function Limit(own: Box, o: Box, kerf: int, d: Direction, rest: int): int {
    var i := Inflate(o, kerf);
    if !InTheWay(i, own, d.horizontal) then rest
    else if d.forward then if Lo(i, d.horizontal) >= Hi(own, d.horizontal) then Min(rest, Lo(i, d.horizontal)) else rest
    else if Hi(i, d.horizontal) <= Lo(own, d.horizontal) then Max(rest, Hi(i, d.horizontal)) else rest
  }

  /** Where the leftover's moving side comes to rest: at the trim, or a blade short of
      the first obstacle. */
  function Reach(own: Box, bounds: Box, obstacles: seq<Box>, kerf: int, d: Direction): int {
    if obstacles == [] then if d.forward then Hi(bounds, d.horizontal) else Lo(bounds, d.horizontal)
    else Limit(own, obstacles[|obstacles|-1], kerf, d, Reach(own, bounds, obstacles[..|obstacles|-1], kerf, d))
  }

  function Moved(own: Box, d: Direction, v: int): Box {
    if d.forward then WithHi(own, d.horizontal, v) else WithLo(own, d.horizontal, v)
  }

  function Grown(own: Box, bounds: Box, obstacles: seq<Box>, kerf: int, d: Direction): Box {
    Moved(own, d, Reach(own, bounds, obstacles, kerf, d))
  }

  /** At least as far out as the leftover's own side, and no further than `to`. */
  predicate Between(own: Box, d: Direction, v: int, to: int) {
    if d.forward then Hi(own, d.horizontal) <= v <= to else to <= v <= Lo(own, d.horizontal)
  }

  lemma LimitIff(own: Box, o: Box, kerf: nat, d: Direction, v: int, rest: int)
    requires Solid(own) && Solid(o) && Separation(own, o) >= kerf && Between(own, d, v, v)
    ensures Separation(Moved(own, d, v), o) >= kerf && Between(own, d, v, rest) <==>
            Between(own, d, v, Limit(own, o, kerf, d, rest))
  {
  }

  lemma FreeOfLast(b: Box, bounds: Box, obstacles: seq<Box>, o: Box, kerf: int)
    ensures IsFree(b, bounds, obstacles + [o], kerf) <==> IsFree(b, bounds, obstacles, kerf) && Separation(b, o) >= kerf
  {
  }

  /** A leftover may be stretched exactly as far as its reach: up to there it stays
      clear of everything, and one step further it does not. */
  lemma {:induction false} ReachIff(own: Box, bounds: Box, obstacles: seq<Box>, kerf: nat, d: Direction, v: int)
    requires IsFree(own, bounds, obstacles, kerf) && AllSolid(obstacles) && Between(own, d, v, v)
    ensures IsFree(Moved(own, d, v), bounds, obstacles, kerf) <==>
            Between(own, d, v, Reach(own, bounds, obstacles, kerf, d))
  {
    if obstacles == [] {
      assert IsFree(Moved(own, d, v), bounds, [], kerf) <==>
          Inside(Moved(own, d, v), bounds) by { NoObstacle(own, bounds, kerf, d, v); }
    } else {
      hide IsFree, Separation, Between, Moved, Limit;
      var init, o := obstacles[..|obstacles|-1], obstacles[|obstacles|-1];
      assert obstacles == init + [o] && o in obstacles;
      FreeOfLast(own, bounds, init, o, kerf);
      FreeOfLast(Moved(own, d, v), bounds, init, o, kerf);
      ReachIff(own, bounds, init, kerf, d, v);
      FreeIsSolid(own, bounds, init, kerf);
      LimitIff(own, o, kerf, d, v, Reach(own, bounds, init, kerf, d));
    }
  }

  lemma NoObstacle(own: Box, bounds: Box, kerf: int, d: Direction, v: int)
    requires Solid(own) && Between(own, d, v, v)
    ensures IsFree(Moved(own, d, v), bounds, [], kerf) <==> Inside(Moved(own, d, v), bounds)
  {
  }

  /** The side never moves inwards. */
  lemma {:induction false} ReachIsOutside(own: Box, bounds: Box, obstacles: seq<Box>, kerf: nat, d: Direction)
    requires Inside(own, bounds)
    ensures Inside(own, Grown(own, bounds, obstacles, kerf, d))
            && Inside(Grown(own, bounds, obstacles, kerf, d), bounds)
  {
    if obstacles != [] { ReachIsOutside(own, bounds, obstacles[..|obstacles|-1], kerf, d); }
  }

  /** What a leftover grows to is the largest free place that keeps its other sides. */
  lemma GrownIsLargest(own: Box, bounds: Box, obstacles: seq<Box>, kerf: nat, d: Direction)
    requires IsFree(own, bounds, obstacles, kerf) && AllSolid(obstacles)
    ensures var grown := Grown(own, bounds, obstacles, kerf, d);
            && IsFree(grown, bounds, obstacles, kerf) && Inside(own, grown)
            && forall v ::
               IsFree(Moved(own, d, v), bounds, obstacles, kerf) && Inside(own, Moved(own, d, v)) ==>
                   Inside(Moved(own, d, v), grown)
  {
    hide IsFree, Reach;
    assert Inside(own, bounds) by { FreeInside(own, bounds, obstacles, kerf); }
    ReachIsOutside(own, bounds, obstacles, kerf, d);
    ReachIff(own, bounds, obstacles, kerf, d, Reach(own, bounds, obstacles, kerf, d));
    forall v | IsFree(Moved(own, d, v), bounds, obstacles, kerf) && Inside(own, Moved(own, d, v))
      ensures Inside(Moved(own, d, v), Grown(own, bounds, obstacles, kerf, d))
    {
      ReachIff(own, bounds, obstacles, kerf, d, v);
    }
  }

  lemma FreeInside(b: Box, bounds: Box, obstacles: seq<Box>, kerf: int)
    requires IsFree(b, bounds, obstacles, kerf)
    ensures Inside(b, bounds)
  {
  }

  /** A leftover of a derived sheet is a free place. */
  lemma LeftoverIsFree(plan: Plan, bounds: Box, placed: seq<Placed>, whole: seq<Box>, g: Config, own: Box)
    requires LeastReport(plan, bounds, Boxes(placed, whole), g) && AllSolid(Boxes(placed, whole))
    requires own in plan.rects && g.minRect >= 1
    ensures IsFree(own, bounds, Boxes(placed, whole), g.kerf)
  {
    hide IsFree, Searchable, PlanOf, ScoreOf;
    var S := Boxes(placed, whole);
    var c :| Searchable(c, bounds, S, g.kerf) && plan == PlanOf(c, bounds, g);
    SearchableFrees(c, bounds, S, g.kerf);
    ReportedIsFree(c, bounds, S, g, own);
  }

  lemma ReportedIsFree(c: GTree, bounds: Box, S: seq<Box>, g: Config, own: Box)
    requires Frees(c, bounds, S, g.kerf) && AllSolid(S) && own in PlanOf(c, bounds, g).rects && g.minRect >= 1
    ensures IsFree(own, bounds, S, g.kerf)
  {
    hide Frees, PlanOf, Offcuts;
    ReportedOffcuts(c, bounds, g, own);
    OffcutInside(c, bounds, S, g.kerf, own);
    FreedPiecesAreApart(c, bounds, S, g.kerf);
  }

  /** The whole offcuts other than the leftover itself. */
  function Others(whole: seq<Box>, own: Box): (r: seq<Box>)
    ensures forall b :: b in r <==> b in whole && b != own
  {
    if whole == [] then []
    else Others(whole[..|whole|-1], own) + if whole[|whole|-1] != own then [whole[|whole|-1]] else []
  }

  datatype Extension = Extension(direction: Direction, rect: Box)

  /** The sheet with the grown leftover kept whole can be cut. */
  ghost predicate CanGrow(placed: seq<Placed>, others: seq<Box>, rect: Box, bounds: Box, kerf: nat) {
    InOrder(placed, others + [rect], bounds, kerf) && Cuttable(bounds, Boxes(placed, others + [rect]), kerf)
  }

  /** The grown leftovers that are larger and with which the sheet still derives a tree. */
  method LeftoverExtensions(width: int, height: int, placed: seq<Placed>, p: Params, whole: seq<Box>, own: Box,
                            minRect: int, minUsable: int, nodeBudget: int) returns (extensions: seq<Extension>)
    requires forall q :: q in placed ==> ValidPiece(q.piece)
    ensures var bounds, others := UsableBounds(width, height, p), Others(whole, own);
            AllSolid(whole) && Solid(own) && Inside(own, bounds) ==>
              forall e :: e in extensions ==>
                && e.direction in DIRECTIONS && e.rect == Grown(own, bounds, Boxes(placed, others), p.kerf, e.direction)
                && Area(e.rect) > Area(own) && CanGrow(placed, others, e.rect, bounds, p.kerf)
    ensures var bounds, others, g := UsableBounds(width, height, p), Others(whole, own),
            ConfigOf(p.kerf, minRect, minUsable);
            AllSolid(whole) && Solid(own) && Inside(own, bounds) ==>
              forall d :: d in DIRECTIONS ==>
                var rect := Grown(own, bounds, Boxes(placed, others), p.kerf, d);
                Area(rect) > Area(own) && CanGrow(placed, others, rect, bounds, p.kerf)
                && nodeBudget >= Consolidate.Nodes(bounds, SortBoxes(Boxes(placed, others + [rect])), g)
                ==> Extension(d, rect) in extensions
  {
    hide Reach, InOrder, Cuttable, Realized, Consolidate.Nodes, SortBoxes, Area;
    var bounds, others := UsableBounds(width, height, p), Others(whole, own);
    ghost var g, fit := ConfigOf(p.kerf, minRect, minUsable), AllSolid(whole) && Solid(own) && Inside(own, bounds);
    extensions := [];
    for i := 0 to |DIRECTIONS|
      invariant fit ==> forall e :: e in extensions ==>
        && e.direction in DIRECTIONS && e.rect == Grown(own, bounds, Boxes(placed, others), p.kerf, e.direction)
        && Area(e.rect) > Area(own) && CanGrow(placed, others, e.rect, bounds, p.kerf)
      invariant fit ==> forall k :: 0 <= k < i ==>
        var rect := Grown(own, bounds, Boxes(placed, others), p.kerf, DIRECTIONS[k]);
        Area(rect) > Area(own) && CanGrow(placed, others, rect, bounds, p.kerf)
        && nodeBudget >= Consolidate.Nodes(bounds, SortBoxes(Boxes(placed, others + [rect])), g)
        ==> Extension(DIRECTIONS[k], rect) in extensions
    {
      var d := DIRECTIONS[i];
      assert d in DIRECTIONS;
      var rect := Grown(own, bounds, Boxes(placed, others), p.kerf, d);
      if Area(rect) <= Area(own) { continue; }
      if fit { GrownIsSolid(own, bounds, Boxes(placed, others), p.kerf, d, others); }
      var layout, _ := RealizeSheet(width, height, placed, p, others + [rect], minRect, minUsable, nodeBudget);
      if layout.Some? { extensions := extensions + [Extension(d, rect)]; }
    }
  }

  lemma GrownIsSolid(own: Box, bounds: Box, obstacles: seq<Box>, kerf: nat, d: Direction, others: seq<Box>)
    requires Solid(own) && Inside(own, bounds) && AllSolid(others)
    ensures AllSolid(others + [Grown(own, bounds, obstacles, kerf, d)])
  {
    ReachIsOutside(own, bounds, obstacles, kerf, d);
  }
}
