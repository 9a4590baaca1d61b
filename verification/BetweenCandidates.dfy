/**
When the best tree of candidate cuts is the best tree of all: consolidate.py ranks trees
by the usable area they leave first, and a cut between its candidate positions can leave
more. Trying only the candidates loses no sheet, but it can lose the best score.
*/
module BetweenCandidates {
  import opened Geometry
  import opened Guillotine
  import opened Surgery
  import opened CandidateCuts
  import opened Plans

  /** The side an offcut needs to be reported and to count as usable. */
  function Threshold(g: Config): int {
    Max(1, Max(g.minRect, g.minUsable))
  }

  /** The usable area a tree leaves, negated as the score has it. */
  function Usable(t: GTree, r: Box, g: Config): int {
    RectsScore(PlanOf(t, r, g).rects, g.minUsable).usable
  }

  /** Whatever a tree of cuts placed anywhere leaves, some tree of candidate cuts leaves
      as much: what the documentation of the candidates promises. */
  ghost predicate CandidatesAreBest(g: Config) {
    forall r, S, t :: Solid(r) && Frees(t, r, S, g.kerf) ==> SomeCandidateAsGood(t, r, S, g)
  }

  ghost predicate SomeCandidateAsGood(t: GTree, r: Box, S: seq<Box>, g: Config) {
    exists c :: Searchable(c, r, S, g.kerf) && Usable(c, r, g) <= Usable(t, r, g)
  }

  // ---- usable area of a tree -------------------------------------------------------------

  lemma NothingUsable(g: Config)
    ensures RectsScore([], g.minUsable).usable == 0
  {
  }

  lemma CutUsable(h: bool, at: int, near: GTree, far: GTree, r: Box, g: Config)
    ensures var n, f := NearRegion(r, h, at), FarRegion(r, h, at, g.kerf);
            Usable(Cut(h, at, near, far), r, g) == Usable(near, n, g) + if Solid(f) then Usable(far, f, g) else 0
  {
    hide RectsScore, CutOf, NearRegion, FarRegion;
    var n, f := NearRegion(r, h, at), FarRegion(r, h, at, g.kerf);
    NothingUsable(g);
    var pn, pf := PlanOf(near, n, g), if Solid(f) then PlanOf(far, f, g) else NOTHING;
    RectsScoreConcat(pn.rects, pf.rects, g.minUsable);
  }

  lemma LeafUsable(r: Box, g: Config)
    ensures Usable(Whole, r, g) == 0
    ensures Solid(r) ==>
              Usable(Empty, r, g) == -(if Width(r) >= Threshold(g) && Height(r) >= Threshold(g) then Area(r) else 0)
  {
    assert [r][..0] == [];
  }

  lemma AreaNonNegative(r: Box)
    requires Solid(r)
    ensures Area(r) > 0
  {
  }

  lemma LeafArea(r: Box, kerf: nat)
    ensures SumArea(Offcuts(Empty, r, kerf)) == Area(r) && SumArea(Offcuts(Whole, r, kerf)) == 0
  {
    SumAreaOne(r);
  }

  lemma CutOffcuts(h: bool, at: int, near: GTree, far: GTree, r: Box, kerf: nat)
    ensures var n, f := NearRegion(r, h, at), FarRegion(r, h, at, kerf);
            SumArea(Offcuts(Cut(h, at, near, far), r, kerf)) ==
            SumArea(Offcuts(near, n, kerf)) + if Solid(f) then SumArea(Offcuts(far, f, kerf)) else 0
  {
    hide NearRegion, FarRegion, Solid, SumArea;
    var n, f := NearRegion(r, h, at), FarRegion(r, h, at, kerf);
    SumAreaConcat(Offcuts(near, n, kerf), if Solid(f) then Offcuts(far, f, kerf) else []);
    NoSumArea();
  }

  lemma NoSumArea()
    ensures SumArea([]) == 0
  {
  }

  /** A tree leaves no more usable area than offcuts. */
  lemma {:induction false} UsableAtMost(t: GTree, r: Box, S: seq<Box>, g: Config)
    requires Frees(t, r, S, g.kerf) && Solid(r)
    ensures -SumArea(Offcuts(t, r, g.kerf)) <= Usable(t, r, g) <= 0
  {
    hide Usable, SumArea, Offcuts, Area;
    if t.Cut? {
      var Cut(h, at, near, far) := t;
      var n, f := NearRegion(r, h, at), FarRegion(r, h, at, g.kerf);
      CutUsable(h, at, near, far, r, g);
      CutOffcuts(h, at, near, far, r, g.kerf);
      UsableAtMost(near, n, Near(S, h, at), g);
      if Solid(f) { UsableAtMost(far, f, Far(S, h, at, g.kerf), g); }
    } else {
      LeafUsable(r, g);
      LeafArea(r, g.kerf);
      AreaNonNegative(r);
    }
  }

  /** Every offcut is large enough to be usable. */
  predicate AllLarge(t: GTree, r: Box, g: Config) {
    match t
    case Empty => Solid(r) && Width(r) >= Threshold(g) && Height(r) >= Threshold(g)
    case Whole => true
    case Cut(h, at, near, far) =>
      && AllLarge(near, NearRegion(r, h, at), g)
      && (Solid(FarRegion(r, h, at, g.kerf)) ==> AllLarge(far, FarRegion(r, h, at, g.kerf), g))
  }

  lemma {:induction false} LargeIsUsable(t: GTree, r: Box, g: Config)
    requires AllLarge(t, r, g)
    ensures Usable(t, r, g) == -SumArea(Offcuts(t, r, g.kerf))
  {
    hide Usable, SumArea, Offcuts, Area, Threshold;
    if t.Cut? {
      var Cut(h, at, near, far) := t;
      var n, f := NearRegion(r, h, at), FarRegion(r, h, at, g.kerf);
      CutUsable(h, at, near, far, r, g);
      CutOffcuts(h, at, near, far, r, g.kerf);
      LargeIsUsable(near, n, g);
      if Solid(f) { LargeIsUsable(far, f, g); }
    } else {
      LeafUsable(r, g);
      LeafArea(r, g.kerf);
    }
  }

  /** Without thresholds every offcut is usable. */
  lemma {:induction false} AllAreLarge(t: GTree, r: Box, S: seq<Box>, g: Config)
    requires Frees(t, r, S, g.kerf) && Solid(r) && Threshold(g) == 1
    ensures AllLarge(t, r, g)
  {
    if t.Cut? {
      var Cut(h, at, near, far) := t;
      var n, f := NearRegion(r, h, at), FarRegion(r, h, at, g.kerf);
      AllAreLarge(near, n, Near(S, h, at), g);
      if Solid(f) { AllAreLarge(far, f, Far(S, h, at, g.kerf), g); }
    }
  }

  /** A region narrower than a usable offcut leaves none, however it is cut. */
  lemma {:induction false} NarrowIsUseless(t: GTree, r: Box, S: seq<Box>, g: Config)
    requires Frees(t, r, S, g.kerf) && Solid(r) && Width(r) < Threshold(g)
    ensures Usable(t, r, g) == 0
  {
    hide Usable, Threshold;
    if t.Cut? {
      var Cut(h, at, near, far) := t;
      var n, f := NearRegion(r, h, at), FarRegion(r, h, at, g.kerf);
      CutUsable(h, at, near, far, r, g);
      NarrowIsUseless(near, n, Near(S, h, at), g);
      if Solid(f) { NarrowIsUseless(far, f, Far(S, h, at, g.kerf), g); }
    } else {
      LeafUsable(r, g);
    }
  }

  // ---- no blade and no thresholds --------------------------------------------------------

  lemma NoStrip(r: Box, h: bool, at: int)
    requires Lo(r, h) < at < Hi(r, h)
    ensures Strip(r, h, at, 0) == 0
  {
  }

  lemma {:induction false} NoDust(t: GTree, r: Box, S: seq<Box>)
    requires Frees(t, r, S, 0)
    ensures Dust(t, r, 0) == 0
  {
    if t.Cut? {
      hide Strip;
      var Cut(h, at, near, far) := t;
      NoStrip(r, h, at);
      NoDust(near, NearRegion(r, h, at), Near(S, h, at));
      NoDust(far, FarRegion(r, h, at, 0), Far(S, h, at, 0));
    }
  }

  /** A blade without width turns nothing into dust, so every tree leaves the same. */
  lemma EqualWithoutBlade(t: GTree, r: Box, S: seq<Box>, g: Config)
    requires Frees(t, r, S, g.kerf) && Solid(r) && g.kerf == 0 && Threshold(g) == 1
    ensures Usable(t, r, g) == SumArea(S) - Area(r)
  {
    AllAreLarge(t, r, S, g);
    LargeIsUsable(t, r, g);
    NoDust(t, r, S);
    AreaConserved(t, r, S, 0);
    hide Usable, SumArea, Offcuts, Area, Frees, Threshold;
  }

  lemma BestWithoutBlade(g: Config)
    requires g.kerf == 0 && Threshold(g) == 1
    ensures CandidatesAreBest(g)
  {
    hide Usable, Frees, Searchable, Threshold, SumArea;
    forall r, S, t | Solid(r) && Frees(t, r, S, g.kerf) ensures SomeCandidateAsGood(t, r, S, g) {
      FreesSolid(t, r, S, 0);
      var c := CandidateCutsSuffice(t, r, S, 0);
      SearchableFrees(c, r, S, 0);
      EqualWithoutBlade(t, r, S, g);
      EqualWithoutBlade(c, r, S, g);
    }
  }

  // ---- two pieces ----------------------------------------------------------------------------

  lemma OneSide(b: Box, h: bool, at: int, kerf: nat)
    requires Solid(b)
    ensures Near([b], h, at) == if Hi(b, h) <= at then [b] else []
    ensures Far([b], h, at, kerf) == if Lo(b, h) >= at + kerf then [b] else []
  {
    assert [b][..0] == [];
  }

  lemma TwoSides(a: Box, b: Box, h: bool, at: int, kerf: nat)
    requires Solid(a) && Solid(b)
    ensures Near([a, b], h, at) == (if Hi(a, h) <= at then [a] else []) + if Hi(b, h) <= at then [b] else []
    ensures Far([a, b], h, at, kerf) ==
            (if Lo(a, h) >= at + kerf then [a] else []) + if Lo(b, h) >= at + kerf then [b] else []
  {
    hide Side;
    assert [a, b] == [a] + [b];
    SideConcat([a], [b], h, at, false);
    SideConcat([a], [b], h, at + kerf, true);
    OneSide(a, h, at, kerf);
    OneSide(b, h, at, kerf);
  }

  /** The first cut of a tree of candidate cuts for two pieces. */
  lemma FirstCut(c: GTree, r: Box, a: Box, b: Box, kerf: nat)
    requires Searchable(c, r, [a, b], kerf) && Solid(a) && Solid(b)
    ensures c.Cut? && Lo(r, c.horizontal) < c.at < Hi(r, c.horizontal) && Clear([a, b], c.horizontal, c.at, kerf)
    ensures var h, at := c.horizontal, c.at;
            at == Hi(a, h) || at == Hi(b, h) || at == Lo(a, h) - kerf || at == Lo(b, h) - kerf
    ensures Searchable(c.near, NearRegion(r, c.horizontal, c.at), Near([a, b], c.horizontal, c.at), kerf)
    ensures Searchable(c.far, FarRegion(r, c.horizontal, c.at, kerf), Far([a, b], c.horizontal, c.at, kerf), kerf)
  {
    hide Searchable, Side, Clear;
    assert |[a, b]| == 2 && |[r]| == 1;
    SearchableSides(c, r, [a, b], kerf);
  }

  /** The first cut of a tree of candidate cuts for one piece. */
  lemma FirstCutOfOne(c: GTree, r: Box, b: Box, kerf: nat)
    requires Searchable(c, r, [b], kerf) && b != r
    ensures c.Cut? && Lo(r, c.horizontal) < c.at < Hi(r, c.horizontal)
    ensures c.at == Hi(b, c.horizontal) || c.at == Lo(b, c.horizontal) - kerf
  {
    hide Searchable, Side, Clear;
    assert [b] != [r] by { assert [b][0] == b; }
    SearchableSides(c, r, [b], kerf);
  }

  lemma BothClear(a: Box, b: Box, h: bool, at: int, kerf: nat)
    ensures Clear([a, b], h, at, kerf) <==>
              && (Hi(a, h) <= at || Lo(a, h) >= at + kerf)
              && (Hi(b, h) <= at || Lo(b, h) >= at + kerf)
  {
    assert a in [a, b] && b in [a, b];
    assert forall p :: p in [a, b] ==> p == a || p == b;
  }

  // ---- thresholds, no blade -----------------------------------------------------------------

  /** What is cut off too narrow to be usable is lost. */
  lemma NarrowIsLost(c: GTree, r: Box, S: seq<Box>, g: Config)
    requires g.kerf == 0 && Solid(r) && c.Cut? && Frees(c, r, S, 0)
    requires var Cut(h, at, near, far) := c;
             var n, f := NearRegion(r, h, at), FarRegion(r, h, at, 0);
             || (Width(n) < Threshold(g) && SumArea(Near(S, h, at)) < Area(n))
             || (Solid(f) && Width(f) < Threshold(g) && SumArea(Far(S, h, at, 0)) < Area(f))
    ensures Usable(c, r, g) > SumArea(S) - Area(r)
  {
    hide Usable, SumArea, Offcuts, Area, Threshold, Frees, Strip;
    var Cut(h, at, near, far) := c;
    var n, f := NearRegion(r, h, at), FarRegion(r, h, at, 0);
    FreesCut(h, at, near, far, r, S, 0);
    CutUsable(h, at, near, far, r, g);
    CutOffcuts(h, at, near, far, r, 0);
    CutArea(r, h, at, 0);
    NoStrip(r, h, at);
    AreaConserved(c, r, S, 0);
    NoDust(c, r, S);
    UsableAtMost(near, n, Near(S, h, at), g);
    AreaConserved(near, n, Near(S, h, at), 0);
    NoDust(near, n, Near(S, h, at));
    if Solid(f) {
      UsableAtMost(far, f, Far(S, h, at, 0), g);
      AreaConserved(far, f, Far(S, h, at, 0), 0);
      NoDust(far, f, Far(S, h, at, 0));
    }
    if Width(n) < Threshold(g) && SumArea(Near(S, h, at)) < Area(n) {
      NarrowIsUseless(near, n, Near(S, h, at), g);
    } else {
      NarrowIsUseless(far, f, Far(S, h, at, 0), g);
    }
  }

  /** Two pieces one unit too narrow, diagonally opposite, with a gap of twice the
      threshold. */
  function LowPiece(u: int): Box {
    Box(0, 0, u - 1, 2 * u)
  }

  function HighPiece(u: int): Box {
    Box(3 * u - 1, u, 4 * u - 2, 3 * u)
  }

  function GapRegion(u: int): Box {
    Box(0, 0, 4 * u - 2, 3 * u)
  }

  /** Splitting the gap in its middle leaves four usable offcuts. */
  function MiddleTree(u: int): GTree {
    Cut(false, 2 * u - 1,
        Cut(true, 2 * u, Cut(false, u - 1, Whole, Empty), Empty),
        Cut(true, u, Empty, Cut(false, 3 * u - 1, Empty, Whole)))
  }

  lemma MiddleFrees(u: int)
    requires u >= 2
    ensures Frees(MiddleTree(u), GapRegion(u), [LowPiece(u), HighPiece(u)], 0)
  {
    hide Side, Clear, Frees;
    var a, b, r := LowPiece(u), HighPiece(u), GapRegion(u);
    var left, right := NearRegion(r, false, 2 * u - 1), FarRegion(r, false, 2 * u - 1, 0);
    var low, high := Cut(false, u - 1, Whole, Empty), Cut(false, 3 * u - 1, Empty, Whole);
    FreesLeaf(Whole, a, [a], 0);
    FreesLeaf(Whole, b, [b], 0);
    OneFrees(low, NearRegion(left, true, 2 * u), a, false, u - 1);
    OneFrees(high, FarRegion(right, true, u, 0), b, false, 3 * u - 1);
    OneFrees(Cut(true, 2 * u, low, Empty), left, a, true, 2 * u);
    OneFrees(Cut(true, u, Empty, high), right, b, true, u);
    TwoSides(a, b, false, 2 * u - 1, 0);
    BothClear(a, b, false, 2 * u - 1, 0);
    assert [a] + [] == [a] && [] + [b] == [b];
    CutFrees(false, 2 * u - 1, Cut(true, 2 * u, low, Empty), Cut(true, u, Empty, high), r, [a, b], 0);
  }

  /** A cut that leaves one piece on one side and nothing on the other. */
  lemma OneFrees(t: GTree, r: Box, b: Box, h: bool, at: int)
    requires t.Cut? && t.horizontal == h && t.at == at && Lo(r, h) < at < Hi(r, h) && Solid(r) && Solid(b)
    requires if Hi(b, h) <= at then Frees(t.near, NearRegion(r, h, at), [b], 0) && t.far == Empty
             else Lo(b, h) >= at && t.near == Empty && Frees(t.far, FarRegion(r, h, at, 0), [b], 0)
    ensures Frees(t, r, [b], 0)
  {
    hide Frees, Side;
    OneSide(b, h, at, 0);
    if Hi(b, h) <= at {
      FreesLeaf(Empty, FarRegion(r, h, at, 0), [], 0);
    } else {
      FreesLeaf(Empty, NearRegion(r, h, at), [], 0);
    }
    assert t == Cut(h, at, t.near, t.far);
    CutFrees(h, at, t.near, t.far, r, [b], 0);
  }

  lemma MiddleIsLarge(u: int, g: Config)
    requires g.kerf == 0 && Threshold(g) == u >= 2
    ensures AllLarge(MiddleTree(u), GapRegion(u), g)
  {
    var r := GapRegion(u);
    var left, right := NearRegion(r, false, 2 * u - 1), FarRegion(r, false, 2 * u - 1, 0);
    assert AllLarge(Cut(true, 2 * u, Cut(false, u - 1, Whole, Empty), Empty), left, g);
    assert AllLarge(Cut(true, u, Empty, Cut(false, 3 * u - 1, Empty, Whole)), right, g);
  }

  lemma OneArea(b: Box)
    ensures SumArea([b]) == Area(b)
  {
    SumAreaOne(b);
  }

  /** A strip as wide as a piece and taller holds more than the piece. */
  lemma Taller(w: int, a: int, b: int)
    requires w > 0 && a < b
    ensures w * a < w * b
  {
  }

  /** Every candidate cut passes one of the pieces and loses the rest of its strip. */
  lemma GapIsLost(c: GTree, u: int, g: Config)
    requires g.kerf == 0 && Threshold(g) == u >= 2
    requires Searchable(c, GapRegion(u), [LowPiece(u), HighPiece(u)], 0)
    ensures Usable(c, GapRegion(u), g) > SumArea([LowPiece(u), HighPiece(u)]) - Area(GapRegion(u))
  {
    hide Searchable, Side, Clear, Frees, SumArea, Usable, Threshold;
    var a, b, r := LowPiece(u), HighPiece(u), GapRegion(u);
    FirstCut(c, r, a, b, 0);
    SearchableFrees(c, r, [a, b], 0);
    BothClear(a, b, c.horizontal, c.at, 0);
    TwoSides(a, b, c.horizontal, c.at, 0);
    assert !c.horizontal && (c.at == u - 1 || c.at == 3 * u - 1);
    assert [a] + [] == [a] && [] + [b] == [b];
    OneArea(a);
    OneArea(b);
    Taller(u - 1, 2 * u, 3 * u);
    NarrowIsLost(c, r, [a, b], g);
  }

  lemma ThresholdsLose(g: Config)
    requires g.kerf == 0 && Threshold(g) >= 2
    ensures !CandidatesAreBest(g)
  {
    hide Searchable, Frees, SumArea, Usable, Threshold, AllLarge;
    var u := Threshold(g);
    var r, S, t := GapRegion(u), [LowPiece(u), HighPiece(u)], MiddleTree(u);
    MiddleFrees(u);
    MiddleIsLarge(u, g);
    LargeIsUsable(t, r, g);
    AreaConserved(t, r, S, 0);
    NoDust(t, r, S);
    if SomeCandidateAsGood(t, r, S, g) {
      var c :| Searchable(c, r, S, g.kerf) && Usable(c, r, g) <= Usable(t, r, g);
      GapIsLost(c, u, g);
      assert false;
    }
  }

  // ---- a blade ---------------------------------------------------------------------------------

  /** Two pieces at the far end of a long sheet, a blade apart, the first of them one unit
      longer. `u` is their width. */
  function Slack(u: int, kerf: nat): int {
    u * (4 * kerf + 3) + 1
  }

  function LongPiece(u: int, kerf: nat): Box {
    var lo := Slack(u, kerf) + 2 * kerf + 1;
    Box(0, lo, u, lo + 2)
  }

  function ShortPiece(u: int, kerf: nat): Box {
    var lo := Slack(u, kerf) + 2 * kerf + 2;
    Box(u + kerf, lo, 2 * u + kerf, lo + 1)
  }

  function LongRegion(u: int, kerf: nat): Box {
    Box(0, 0, 2 * u + kerf, Slack(u, kerf) + 2 * kerf + 3)
  }

  /** Cutting the slack off first, far enough from the pieces to cut them free on their
      near sides too. */
  function SlackTree(u: int, kerf: nat): GTree {
    var at := Slack(u, kerf) + kerf + 1;
    Cut(true, Slack(u, kerf), Empty, Cut(false, u, Cut(true, at, Empty, Whole), Cut(true, at + 1, Empty, Whole)))
  }

  lemma SlackLarge(u: int, kerf: nat)
    requires u >= 1
    ensures Slack(u, kerf) > u
  {
    assert u * (4 * kerf + 3) == u + u * (4 * kerf + 2);
    assert u * (4 * kerf + 2) >= 0;
  }

  /** A piece flush with the far end of a column is cut free on its near side. */
  lemma FarEndFrees(r: Box, b: Box, kerf: nat, at: int)
    requires Solid(b) && b == r.(y0 := b.y0) && at == b.y0 - kerf && r.y0 < at
    ensures Frees(Cut(true, at, Empty, Whole), r, [b], kerf)
  {
    OneSide(b, true, at, kerf);
    assert forall p :: p in [b] ==> p == b;
  }

  lemma SlackFrees(u: int, kerf: nat)
    requires u >= 1
    ensures Frees(SlackTree(u, kerf).far, FarRegion(LongRegion(u, kerf), true, Slack(u, kerf), kerf),
                  [LongPiece(u, kerf), ShortPiece(u, kerf)], kerf)
    ensures Frees(SlackTree(u, kerf), LongRegion(u, kerf), [LongPiece(u, kerf), ShortPiece(u, kerf)], kerf)
  {
    hide Side, Clear, Frees, Slack;
    SlackLarge(u, kerf);
    var a, b, r := LongPiece(u, kerf), ShortPiece(u, kerf), LongRegion(u, kerf);
    var t := SlackTree(u, kerf);
    var rest := FarRegion(r, true, Slack(u, kerf), kerf);
    FarEndFrees(NearRegion(rest, false, u), a, kerf, t.far.near.at);
    FarEndFrees(FarRegion(rest, false, u, kerf), b, kerf, t.far.far.at);
    TwoSides(a, b, false, u, kerf);
    BothClear(a, b, false, u, kerf);
    assert [a] + [] == [a] && [] + [b] == [b];
    CutFrees(false, u, t.far.near, t.far.far, rest, [a, b], kerf);
    TwoSides(a, b, true, Slack(u, kerf), kerf);
    BothClear(a, b, true, Slack(u, kerf), kerf);
    assert [a] + [b] == [a, b];
    FreesLeaf(Empty, NearRegion(r, true, Slack(u, kerf)), [], kerf);
    CutFrees(true, Slack(u, kerf), Empty, t.far, r, [a, b], kerf);
  }

  lemma SlackIsUsable(u: int, g: Config)
    requires Threshold(g) == u
    ensures Usable(SlackTree(u, g.kerf), LongRegion(u, g.kerf), g) <= -((2 * u + g.kerf) * Slack(u, g.kerf))
  {
    hide Usable, Frees, Slack, Threshold, SumArea, Offcuts;
    assert u >= 1 by { ThresholdPositive(g); }
    SlackLarge(u, g.kerf);
    SlackFrees(u, g.kerf);
    var a, b, r := LongPiece(u, g.kerf), ShortPiece(u, g.kerf), LongRegion(u, g.kerf);
    var t := SlackTree(u, g.kerf);
    CutUsable(true, Slack(u, g.kerf), Empty, t.far, r, g);
    LeafUsable(NearRegion(r, true, Slack(u, g.kerf)), g);
    UsableAtMost(t.far, FarRegion(r, true, Slack(u, g.kerf), g.kerf), [a, b], g);
  }

  lemma ThresholdPositive(g: Config)
    ensures Threshold(g) >= 1
  {
  }

  /** Flush with the first piece, the second has slack on its near side, but less than a
      blade: no candidate cut frees it. */
  lemma TooCloseToCut(c: GTree, u: int, kerf: nat)
    requires u >= 1 && kerf >= 1
    ensures !Searchable(c, LongRegion(u, kerf).(y0 := LongPiece(u, kerf).y0), [LongPiece(u, kerf), ShortPiece(u, kerf)],
                        kerf)
  {
    hide Searchable, Side, Clear, Slack;
    var a, b := LongPiece(u, kerf), ShortPiece(u, kerf);
    var r := LongRegion(u, kerf).(y0 := a.y0);
    if Searchable(c, r, [a, b], kerf) {
      FirstCut(c, r, a, b, kerf);
      TwoSides(a, b, c.horizontal, c.at, kerf);
      assert [] + [b] == [b];
      FirstCutOfOne(c.far, FarRegion(r, false, u, kerf), b, kerf);
      assert false;
    }
  }

  /** So every tree of candidate cuts parts the columns first, over the whole length. */
  lemma ColumnsFirst(c: GTree, u: int, kerf: nat)
    requires u >= 1 && kerf >= 1
    requires Searchable(c, LongRegion(u, kerf), [LongPiece(u, kerf), ShortPiece(u, kerf)], kerf)
    ensures c.Cut? && !c.horizontal && c.at == u
    ensures Frees(c.near, NearRegion(LongRegion(u, kerf), false, u), [LongPiece(u, kerf)], kerf)
    ensures Frees(c.far, FarRegion(LongRegion(u, kerf), false, u, kerf), [ShortPiece(u, kerf)], kerf)
  {
    hide Searchable, Side, Clear, Slack, Frees;
    SlackLarge(u, kerf);
    var a, b, r := LongPiece(u, kerf), ShortPiece(u, kerf), LongRegion(u, kerf);
    FirstCut(c, r, a, b, kerf);
    BothClear(a, b, c.horizontal, c.at, kerf);
    TwoSides(a, b, c.horizontal, c.at, kerf);
    assert [a] + [] == [a] && [] + [b] == [b] && [a] + [b] == [a, b];
    if c.horizontal {
      TooCloseToCut(c.far, u, kerf);
      assert false;
    }
    SearchableFrees(c.near, NearRegion(r, false, u), [a], kerf);
    SearchableFrees(c.far, FarRegion(r, false, u, kerf), [b], kerf);
  }

  /** A column leaves at most what its piece does not fill. */
  lemma ColumnUsable(t: GTree, r: Box, b: Box, g: Config)
    requires Frees(t, r, [b], g.kerf) && Solid(r)
    ensures Usable(t, r, g) >= Area(b) - Area(r)
  {
    hide Usable, SumArea, Offcuts, Area, Frees;
    UsableAtMost(t, r, [b], g);
    AreaConserved(t, r, [b], g.kerf);
    OneArea(b);
  }

  lemma ColumnAreas(u: int, kerf: nat)
    requires u >= 1
    ensures var a, b, r := LongPiece(u, kerf), ShortPiece(u, kerf), LongRegion(u, kerf);
            var n, f := NearRegion(r, false, u), FarRegion(r, false, u, kerf);
            Area(a) - Area(n) + Area(b) - Area(f) == -(u * (2 * Slack(u, kerf) + 4 * kerf + 3))
  {
    var p := Slack(u, kerf);
    hide Slack;
    assert u * (p + 2 * kerf + 3) - u * 2 == u * (p + 2 * kerf + 1);
    assert u * (p + 2 * kerf + 3) - u * 1 == u * (p + 2 * kerf + 2);
    assert u * (p + 2 * kerf + 1) + u * (p + 2 * kerf + 2) == u * (2 * p + 4 * kerf + 3);
  }

  /** The blade takes more along the whole length than the candidates can win back. */
  lemma BladeCosts(u: int, kerf: nat)
    requires u >= 1 && kerf >= 1
    ensures u * (2 * Slack(u, kerf) + 4 * kerf + 3) < (2 * u + kerf) * Slack(u, kerf)
  {
    var p := Slack(u, kerf);
    assert u * (2 * p + 4 * kerf + 3) == 2 * u * p + (p - 1) by {
      assert u * (2 * p + (4 * kerf + 3)) == u * (2 * p) + u * (4 * kerf + 3);
      assert u * (2 * p) == 2 * u * p;
    }
    assert (2 * u + kerf) * p == 2 * u * p + kerf * p;
    SlackLarge(u, kerf);
    hide Slack;
    assert kerf * p >= p by { assert (kerf - 1) * p >= 0; assert kerf * p == (kerf - 1) * p + p; }
  }

  lemma BladeLoses(g: Config)
    requires g.kerf >= 1
    ensures !CandidatesAreBest(g)
  {
    hide Searchable, Frees, SumArea, Usable, Threshold, Slack, Area;
    ThresholdPositive(g);
    var u, k := Threshold(g), g.kerf;
    var r, S, t := LongRegion(u, k), [LongPiece(u, k), ShortPiece(u, k)], SlackTree(u, k);
    SlackLarge(u, k);
    SlackFrees(u, k);
    SlackIsUsable(u, g);
    if SomeCandidateAsGood(t, r, S, g) {
      var c :| Searchable(c, r, S, k) && Usable(c, r, g) <= Usable(t, r, g);
      var n, f := NearRegion(r, false, u), FarRegion(r, false, u, k);
      ColumnsFirst(c, u, k);
      CutUsable(false, u, c.near, c.far, r, g);
      ColumnUsable(c.near, n, LongPiece(u, k), g);
      ColumnUsable(c.far, f, ShortPiece(u, k), g);
      ColumnAreas(u, k);
      BladeCosts(u, k);
      assert false;
    }
  }

  // ---- exactly when --------------------------------------------------------------------------

  /** The best tree of candidate cuts leaves as much usable area as any tree of cuts, on
      every sheet, exactly when the blade has no width and no offcut is too small to count. */
  lemma CandidatesAreBestIff(g: Config)
    ensures CandidatesAreBest(g) <==> g.kerf == 0 && g.minRect <= 1 && g.minUsable <= 1
  {
    hide CandidatesAreBest;
    if g.kerf >= 1 {
      BladeLoses(g);
    } else if Threshold(g) >= 2 {
      ThresholdsLose(g);
    } else {
      BestWithoutBlade(g);
    }
  }

  /** Leaving more usable area is scoring better, whatever comes after it. */
  lemma CandidatesMissTheBest(g: Config)
    requires g.kerf >= 1 || g.minRect >= 2 || g.minUsable >= 2
    ensures exists r, S, t :: BeatsCandidates(t, r, S, g)
  {
    hide Searchable, Frees, Usable;
    CandidatesAreBestIff(g);
    var r, S, t :| Solid(r) && Frees(t, r, S, g.kerf) && !SomeCandidateAsGood(t, r, S, g);
    forall c | Searchable(c, r, S, g.kerf) ensures Less(ScoreOf(PlanOf(t, r, g), g), ScoreOf(PlanOf(c, r, g), g)) {
      UsableLeads(t, c, r, g);
    }
    assert BeatsCandidates(t, r, S, g);
  }

  lemma UsableLeads(t: GTree, c: GTree, r: Box, g: Config)
    requires Usable(t, r, g) < Usable(c, r, g)
    ensures Less(ScoreOf(PlanOf(t, r, g), g), ScoreOf(PlanOf(c, r, g), g))
  {
    hide RectsScore, PlanOf;
  }

  /** A tree the search does not see, ranked before all it sees. */
  ghost predicate BeatsCandidates(t: GTree, r: Box, S: seq<Box>, g: Config) {
    && Solid(r) && Frees(t, r, S, g.kerf)
    && forall c :: Searchable(c, r, S, g.kerf) ==> Less(ScoreOf(PlanOf(t, r, g), g), ScoreOf(PlanOf(c, r, g), g))
  }
}
