/**
The optimality certificates of search.py: lower bounds on what any complete plan
bills, and the test that declares an incumbent optimal.
*/
module Bounds {
  import opened Arithmetic
  import opened Geometry
  import opened Guillotine
  import opened Plans
  import opened Sequences
  import opened Sheets

  /** A sheet type the search may open; no `count` means unlimited supply. */
  datatype BinSpec = BinSpec(width: int, height: int, cost: int, half: bool, count: Option<nat>, key: string)

  function SheetArea(s: BinSpec, p: Params): nat {
    NonNegativeProduct(Max(0, s.width - p.left - p.right), Max(0, s.height - p.top - p.bottom));
    Max(0, s.width - p.left - p.right) * Max(0, s.height - p.top - p.bottom)
  }

  lemma NonNegativeProduct(a: int, b: int)
    requires a >= 0 && b >= 0
    ensures a * b >= 0
  {
  }

  // ---- plans and what they cost ------------------------------------------------------

  function Cost(plan: seq<BinSpec>): int {
    if plan == [] then 0 else Cost(plan[..|plan|-1]) + plan[|plan|-1].cost
  }

  function Room(plan: seq<BinSpec>, p: Params): nat {
    if plan == [] then 0 else Room(plan[..|plan|-1], p) + SheetArea(plan[|plan|-1], p)
  }

  /** Sheets of the given types with at least `area` between their trims: the area
      relaxation of a complete plan. */
  predicate Holds(plan: seq<BinSpec>, specs: seq<BinSpec>, area: int, p: Params) {
    (forall s :: s in plan ==> s in specs) && Room(plan, p) >= area
  }

  /** No sheets of these types that hold `area` cost less than `bound`. */
  ghost predicate LowerBound(bound: real, area: int, specs: seq<BinSpec>, p: Params) {
    forall plan :: Holds(plan, specs, area, p) ==> bound <= Cost(plan) as real
  }

  predicate NoneNegative(specs: seq<BinSpec>) {
    forall s :: s in specs ==> s.cost >= 0
  }

  lemma {:induction false} CostNonNegative(plan: seq<BinSpec>, specs: seq<BinSpec>)
    requires NoneNegative(specs) && forall s :: s in plan ==> s in specs
    ensures Cost(plan) >= 0
  {
    if plan != [] {
      assert plan[|plan|-1] in specs;
      CostNonNegative(plan[..|plan|-1], specs);
    }
  }

  lemma ZeroIsLowerBound(area: int, specs: seq<BinSpec>, p: Params)
    requires NoneNegative(specs)
    ensures LowerBound(0.0, area, specs, p)
  {
    forall plan | Holds(plan, specs, area, p) ensures 0.0 <= Cost(plan) as real { CostNonNegative(plan, specs); }
  }

  // ---- one full sheet and perhaps its half --------------------------------------------

  /** `k` full sheets and `m` halves. */
  function Mix(full: BinSpec, half: BinSpec, k: nat, m: nat): seq<BinSpec>
    decreases k + m
  {
    if m > 0 then Mix(full, half, k, m - 1) + [half] else if k > 0 then Mix(full, half, k - 1, 0) + [full] else []
  }

  lemma PlanLast(plan: seq<BinSpec>, s: BinSpec, p: Params)
    ensures Cost(plan + [s]) == Cost(plan) + s.cost && Room(plan + [s], p) == Room(plan, p) + SheetArea(s, p)
  {
    assert (plan + [s])[..|plan|] == plan;
  }

  lemma {:induction false} MixTotals(full: BinSpec, half: BinSpec, k: nat, m: nat, p: Params)
    ensures var plan := Mix(full, half, k, m);
            && Cost(plan) == k * full.cost + m * half.cost
            && Room(plan, p) == k * SheetArea(full, p) + m * SheetArea(half, p)
            && forall s :: s in plan ==> (s == full && k > 0) || (s == half && m > 0)
    decreases k + m
  {
    hide SheetArea, Cost, Room;
    if m > 0 {
      MixTotals(full, half, k, m - 1, p);
      OneMoreTimes(m - 1, half.cost, SheetArea(half, p));
      PlanLast(Mix(full, half, k, m - 1), half, p);
    } else if k > 0 {
      MixTotals(full, half, k - 1, 0, p);
      OneMoreTimes(k - 1, full.cost, SheetArea(full, p));
      PlanLast(Mix(full, half, k - 1, 0), full, p);
    } else {
      EmptyPlan(p);
    }
  }

  lemma EmptyPlan(p: Params)
    ensures Cost([]) == 0 && Room([], p) == 0
  {
  }

  lemma OneMoreTimes(k: nat, a: int, b: int)
    ensures (k + 1) * a == k * a + a && (k + 1) * b == k * b + b
  {
  }

  /** A plan of two kinds of sheet is so many of each. */
  lemma {:induction false} PlanIsMix(plan: seq<BinSpec>, full: BinSpec, half: BinSpec, p: Params)
    returns (k: nat, m: nat)
    requires forall s :: s in plan ==> s == full || s == half
    ensures Cost(plan) == k * full.cost + m * half.cost
    ensures Room(plan, p) == k * SheetArea(full, p) + m * SheetArea(half, p)
    ensures m > 0 ==> half in plan
  {
    hide SheetArea;
    k, m := 0, 0;
    if plan != [] {
      var init, last := plan[..|plan|-1], plan[|plan|-1];
      assert last in plan && forall s :: s in init ==> s in plan;
      k, m := PlanIsMix(init, full, half, p);
      OneMoreTimes(k, full.cost, SheetArea(full, p));
      OneMoreTimes(m, half.cost, SheetArea(half, p));
      if last == full { k := k + 1; } else { m := m + 1; }
    }
  }

  /** Area, per full sheet and per half sheet (0 without one), and their costs. */
  datatype TwoKinds = TwoKinds(area: int, full: int, half: int, fullCost: int, halfCost: int)

  predicate ValidKinds(q: TwoKinds) {
    q.area > 0 && q.full > 0 && q.half >= 0 && q.fullCost >= 0 && q.halfCost >= 0
  }

  /** The bill of `k` full sheets topped up with halves, or more than any bill when
      halves cannot top it up. */
  function TopUp(q: TwoKinds, k: nat): int
    requires ValidKinds(q)
  {
    var residual := q.area - k * q.full;
    if residual <= 0 then k * q.fullCost
    else if q.half == 0 then -1
    else k * q.fullCost + CeilDiv(residual, q.half) * q.halfCost
  }

  /** Any mix that holds the area is matched by one of the enumerated top-ups. */
  lemma TopUpMatches(q: TwoKinds, k: nat, m: nat) returns (i: nat)
    requires ValidKinds(q) && k * q.full + m * q.half >= q.area
    ensures i <= CeilDiv(q.area, q.full)
    ensures 0 <= TopUp(q, i) <= k * q.fullCost + m * q.halfCost
  {
    var n := CeilDiv(q.area, q.full);
    CeilDivCovers(q.area, q.full);
    NonNegativeProduct(k, q.fullCost);
    NonNegativeProduct(m, q.halfCost);
    if k >= n {
      i := n;
      Monotone(n, k, q.fullCost);
      NonNegativeProduct(n, q.fullCost);
    } else {
      i := k;
      var residual := q.area - k * q.full;
      if residual > 0 {
        CeilDivLeast(residual, q.half, m);
        CeilDivCovers(residual, q.half);
        Monotone(CeilDiv(residual, q.half), m, q.halfCost);
        NonNegativeProduct(CeilDiv(residual, q.half), q.halfCost);
      }
    }
  }

  lemma Monotone(a: int, b: int, c: int)
    requires a <= b && c >= 0
    ensures a * c <= b * c
  {
  }

  /** Least bill over mixes of the two kinds that hold the area. */
  method LeastTopUp(q: TwoKinds) returns (best: int)
    requires ValidKinds(q)
    ensures forall k: nat, m: nat :: k * q.full + m * q.half >= q.area ==> best <= k * q.fullCost + m * q.halfCost
    ensures exists k: nat, m: nat ::
            k * q.full + m * q.half >= q.area && best == k * q.fullCost + m * q.halfCost && (q.half == 0 ==> m == 0)
  {
    hide CeilDiv, TopUp;
    var n := CeilDiv(q.area, q.full);
    CeilDivCovers(q.area, q.full);
    best := -1;
    for k := 0 to n + 1
      invariant best >= -1
      invariant forall i :: 0 <= i < k && TopUp(q, i) >= 0 ==> 0 <= best <= TopUp(q, i)
      invariant best >= 0 ==> exists i :: 0 <= i < k && TopUp(q, i) == best
    {
      var cost := TopUp(q, k);
      if cost >= 0 && (best < 0 || cost < best) {
        best := cost;
      }
    }
    forall k: nat, m: nat | k * q.full + m * q.half >= q.area ensures 0 <= best <= k * q.fullCost + m * q.halfCost {
      var i := TopUpMatches(q, k, m);
    }
    assert n * q.full + 0 * q.half >= q.area;
    var i :| 0 <= i < n + 1 && TopUp(q, i) == best;
    var m := TopUpIsMix(q, i);
  }

  lemma TopUpIsMix(q: TwoKinds, k: nat) returns (m: nat)
    requires ValidKinds(q) && TopUp(q, k) >= 0
    ensures k * q.full + m * q.half >= q.area && TopUp(q, k) == k * q.fullCost + m * q.halfCost
            && (q.half == 0 ==> m == 0)
  {
    var residual := q.area - k * q.full;
    if residual <= 0 {
      m := 0;
    } else {
      CeilDivCovers(residual, q.half);
      m := CeilDiv(residual, q.half);
    }
  }

  /** Sheets of one full type and at most one half type are a mix of the two. */
  lemma MixCovers(plan: seq<BinSpec>, specs: seq<BinSpec>, full: BinSpec, halves: seq<BinSpec>, area: int, q: TwoKinds,
                  best: int, p: Params)
    requires Holds(plan, specs, area, p)
    requires |halves| <= 1 && forall s :: s in specs ==> s == full || s in halves
    requires q.area == area && q.full == SheetArea(full, p) && q.fullCost == full.cost
    requires halves != [] ==> q.half == SheetArea(halves[0], p) && q.halfCost == halves[0].cost
    requires forall k: nat, m: nat :: k * q.full + m * q.half >= q.area ==> best <= k * q.fullCost + m * q.halfCost
    ensures best <= Cost(plan)
  {
    hide SheetArea, Room, Cost;
    var half := if halves == [] then full else halves[0];
    forall s | s in plan ensures s == full || s == half { assert s in specs; }
    var k, m := PlanIsMix(plan, full, half, p);
    if halves == [] {
      Sums(k, m, q.full);
      Sums(k, m, q.fullCost);
      assert (k + m) * q.full + 0 * q.half >= q.area;
    }
  }

  lemma Sums(k: int, m: int, a: int)
    ensures (k + m) * a == k * a + m * a
  {
  }

  // ---- the area density bound ---------------------------------------------------------

  ghost predicate Density(d: real, specs: seq<BinSpec>, p: Params) {
    forall s :: s in specs ==> d * SheetArea(s, p) as real <= s.cost as real
  }

  lemma {:induction false} DensityBounds(d: real, plan: seq<BinSpec>, specs: seq<BinSpec>, p: Params)
    requires Density(d, specs, p) && forall s :: s in plan ==> s in specs
    ensures d * Room(plan, p) as real <= Cost(plan) as real
  {
    hide SheetArea, Cost, Room;
    if plan == [] {
      EmptyPlan(p);
    } else {
      var init, last := plan[..|plan|-1], plan[|plan|-1];
      assert last in plan && forall s :: s in init ==> s in plan;
      assert plan == init + [last];
      PlanLast(init, last, p);
      DensityBounds(d, init, specs, p);
      Spread(d, Room(init, p), SheetArea(last, p));
    }
  }

  lemma Spread(d: real, a: int, b: int)
    ensures d * (a + b) as real == d * a as real + d * b as real
  {
    assert (a + b) as real == a as real + b as real;
  }

  lemma DensityIsLowerBound(d: real, area: int, specs: seq<BinSpec>, p: Params)
    requires Density(d, specs, p) && d >= 0.0
    ensures LowerBound(area as real * d, area, specs, p)
  {
    hide Room, Cost, Density;
    forall plan | Holds(plan, specs, area, p) ensures area as real * d <= Cost(plan) as real {
      DensityBounds(d, plan, specs, p);
      Scale(area as real, Room(plan, p) as real, d);
    }
  }

  lemma Scale(a: real, b: real, d: real)
    requires a <= b && d >= 0.0
    ensures a * d <= d * b
  {
  }

  lemma Quotient(d: real, c: real, u: real)
    requires u > 0.0 && d <= c / u
    ensures d * u <= c
  {
    assert (c / u) * u == c;
    Scale(d, c / u, u);
  }

  /** What a unit of a sheet's usable area costs. */
  function Rate(s: BinSpec, p: Params): real
    requires SheetArea(s, p) > 0
  {
    s.cost as real / SheetArea(s, p) as real
  }

  lemma RateBounds(d: real, s: BinSpec, p: Params)
    requires s.cost >= 0 && SheetArea(s, p) > 0 ==> d <= Rate(s, p)
    requires s.cost >= 0
    ensures d * SheetArea(s, p) as real <= s.cost as real
  {
    hide SheetArea;
    if SheetArea(s, p) > 0 {
      Quotient(d, s.cost as real, SheetArea(s, p) as real);
    } else {
      assert SheetArea(s, p) as real == 0.0;
    }
  }

  lemma RateNonNegative(s: BinSpec, p: Params)
    requires SheetArea(s, p) > 0 && s.cost >= 0
    ensures Rate(s, p) >= 0.0
  {
    hide SheetArea;
    NonNegativeQuotient(s.cost as real, SheetArea(s, p) as real);
  }

  lemma NonNegativeQuotient(c: real, u: real)
    requires u > 0.0 && c >= 0.0
    ensures c / u >= 0.0
  {
  }

  /** The least cost per unit of usable area; none when no type has any. */
  method LeastDensity(specs: seq<BinSpec>, p: Params) returns (found: bool, least: real)
    requires NoneNegative(specs)
    ensures found <==> exists s :: s in specs && SheetArea(s, p) > 0
    ensures found ==> least >= 0.0 && Density(least, specs, p)
    ensures found ==> exists s :: s in specs && SheetArea(s, p) > 0 && least == Rate(s, p)
  {
    hide SheetArea, Rate;
    found, least := false, 0.0;
    for i := 0 to |specs|
      invariant found <==> exists j :: 0 <= j < i && SheetArea(specs[j], p) > 0
      invariant found ==> exists j :: 0 <= j < i && SheetArea(specs[j], p) > 0 && least == Rate(specs[j], p)
      invariant forall j :: 0 <= j < i && SheetArea(specs[j], p) > 0 ==> least <= Rate(specs[j], p)
      invariant least >= 0.0
    {
      if SheetArea(specs[i], p) > 0 {
        var rate := Rate(specs[i], p);
        RateNonNegative(specs[i], p);
        if !found || rate < least {
          found, least := true, rate;
        }
      }
    }
    forall s | s in specs && found
      ensures least * SheetArea(s, p) as real <= s.cost as real { RateBounds(least, s, p); }
  }

  // ---- the certificates -----------------------------------------------------------------

  /** The specs that are, or are not, half boards. */
  function OfKind(specs: seq<BinSpec>, half: bool): (r: seq<BinSpec>)
    ensures forall s :: s in r <==> s in specs && s.half == half
  {
    if specs == [] then []
    else OfKind(specs[..|specs|-1], half) + if specs[|specs|-1].half == half then [specs[|specs|-1]] else []
  }

  predicate Free(specs: seq<BinSpec>, p: Params) {
    exists s :: s in specs && s.cost <= 0 && SheetArea(s, p) > 0
  }

  predicate OneMaterial(specs: seq<BinSpec>) {
    var fulls := OfKind(specs, false);
    |fulls| == 1 && |OfKind(specs, true)| <= 1 && fulls[0].count.None?
  }

  /** Nothing bills less than the bound; for one full board and perhaps its half some
      sheets bill exactly the bound. */
  method CostLowerBound(area: int, specs: seq<BinSpec>, p: Params) returns (bound: real)
    requires NoneNegative(specs)
    ensures bound >= 0.0
    ensures LowerBound(bound, area, specs, p)
    ensures area > 0 && !Free(specs, p) && OneMaterial(specs) && SheetArea(OfKind(specs, false)[0], p) > 0
            ==> exists plan :: Holds(plan, specs, area, p) && Cost(plan) as real == bound
  {
    hide SheetArea, Room, Cost, LowerBound, OfKind;
    ZeroIsLowerBound(area, specs, p);
    if area <= 0 || Free(specs, p) { return 0.0; }
    var fulls, halves := OfKind(specs, false), OfKind(specs, true);
    if |fulls| == 1 && |halves| <= 1 && fulls[0].count.None? {
      bound := SingleMaterial(area, specs, fulls[0], halves, p);
      return;
    }
    var found, least := LeastDensity(specs, p);
    if !found { return 0.0; }
    DensityIsLowerBound(least, area, specs, p);
    Scale(0.0, area as real, least);
    return area as real * least;
  }

  method SingleMaterial(area: int, specs: seq<BinSpec>, full: BinSpec, halves: seq<BinSpec>, p: Params)
    returns (bound: real)
    requires NoneNegative(specs) && area > 0
    requires |halves| <= 1 && full in specs && forall s :: s in specs <==> s == full || s in halves
    ensures bound >= 0.0 && LowerBound(bound, area, specs, p)
    ensures SheetArea(full, p) > 0 ==> exists plan :: Holds(plan, specs, area, p) && Cost(plan) as real == bound
  {
    hide SheetArea, Room, Cost;
    ZeroIsLowerBound(area, specs, p);
    if SheetArea(full, p) <= 0 { return 0.0; }
    if halves != [] { assert halves[0] in specs; }
    var q := TwoKinds(area, SheetArea(full, p), if halves == [] then 0 else SheetArea(halves[0], p),
                      full.cost, if halves == [] then 0 else halves[0].cost);
    var best := LeastTopUp(q);
    forall plan | Holds(plan, specs, area, p) ensures best as real <= Cost(plan) as real {
      MixCovers(plan, specs, full, halves, area, q, best, p);
    }
    ghost var k: nat, m: nat :| k * q.full + m * q.half >= q.area && best == k * q.fullCost + m * q.halfCost
        && (q.half == 0 ==> m == 0);
    ghost var half := if halves == [] then full else halves[0];
    MixTotals(full, half, k, m, p);
    assert Holds(Mix(full, half, k, m), specs, area, p);
    NonNegativeProduct(k, q.fullCost);
    NonNegativeProduct(m, q.halfCost);
    return best as real;
  }

  /** The least number of sheets of these types that hold the area. */
  method BinsLowerBound(area: int, specs: seq<BinSpec>, p: Params) returns (n: nat)
    ensures forall plan :: Holds(plan, specs, area, p) ==> n <= |plan|
    ensures SomeHold(specs, area, p) ==> exists plan :: Holds(plan, specs, area, p) && |plan| == n
  {
    hide SheetArea, Room;
    if area <= 0 {
      NoSheetsHold(specs, area, p);
      return 0;
    }
    var biggest := 0;
    ghost var best := BinSpec(0, 0, 0, false, None, "");
    for i := 0 to |specs|
      invariant biggest >= 0 && (biggest > 0 ==> best in specs && SheetArea(best, p) == biggest)
      invariant forall j :: 0 <= j < i ==> SheetArea(specs[j], p) <= biggest
    {
      if SheetArea(specs[i], p) > biggest { best := specs[i]; }
      biggest := Max(biggest, SheetArea(specs[i], p));
    }
    if biggest <= 0 { return 0; }
    forall plan | Holds(plan, specs, area, p) ensures CeilDiv(area, biggest) <= |plan| {
      RoomAtMost(plan, specs, biggest, p);
      CeilDivLeast(area, biggest, |plan|);
    }
    CeilDivCovers(area, biggest);
    n := CeilDiv(area, biggest);
    SameSheets(best, n, p);
    assert Holds(Mix(best, best, n, 0), specs, area, p);
  }

  /** Enough sheets hold the area, unless none has room between its trims. */
  predicate SomeHold(specs: seq<BinSpec>, area: int, p: Params) {
    area <= 0 || exists s :: s in specs && SheetArea(s, p) > 0
  }

  lemma NoSheetsHold(specs: seq<BinSpec>, area: int, p: Params)
    requires area <= 0
    ensures Holds([], specs, area, p)
  {
  }

  lemma {:induction false} SameSheets(s: BinSpec, n: nat, p: Params)
    ensures var plan := Mix(s, s, n, 0);
            |plan| == n && Room(plan, p) == n * SheetArea(s, p) && forall t :: t in plan ==> t == s
  {
    hide SheetArea;
    if n > 0 {
      SameSheets(s, n - 1, p);
      PlanLast(Mix(s, s, n - 1, 0), s, p);
      OneMoreTimes(n - 1, SheetArea(s, p), 0);
    } else {
      assert Mix(s, s, 0, 0) == [];
    }
  }

  lemma {:induction false} RoomAtMost(plan: seq<BinSpec>, specs: seq<BinSpec>, biggest: int, p: Params)
    requires forall s :: s in plan ==> s in specs
    requires forall s :: s in specs ==> SheetArea(s, p) <= biggest
    ensures Room(plan, p) <= |plan| * biggest
  {
    hide SheetArea;
    if plan != [] {
      var init, last := plan[..|plan|-1], plan[|plan|-1];
      assert last in plan && forall s :: s in init ==> s in plan;
      RoomAtMost(init, specs, biggest, p);
      OneMoreTimes(|init|, biggest, 0);
    }
  }

  // ---- complete plans ---------------------------------------------------------------------

  /** One opened sheet and what lies on it. */
  datatype Opened = Opened(spec: BinSpec, placed: seq<Placed>)

  function SpecsOf(sheets: seq<Opened>): (r: seq<BinSpec>)
    ensures |r| == |sheets| && forall i :: 0 <= i < |r| ==> r[i] == sheets[i].spec
  {
    if sheets == [] then [] else SpecsOf(sheets[..|sheets|-1]) + [sheets[|sheets|-1].spec]
  }

  function AllPlaced(sheets: seq<Opened>): seq<Piece> {
    if sheets == [] then [] else AllPlaced(sheets[..|sheets|-1]) + PiecesOf(sheets[|sheets|-1].placed)
  }

  function PieceArea(p: Piece): int {
    p.width * p.height
  }

  function PoolArea(pool: seq<Piece>): int {
    SumBy(PieceArea, pool)
  }

  /** A sheet the saw can cut. */
  ghost predicate Sawable(s: Opened, p: Params) {
    && Cuttable(UsableBounds(s.spec.width, s.spec.height, p), BoxesOf(s.placed), p.kerf)
    && forall q :: q in s.placed ==> Legal(q) && ValidPiece(q.piece)
  }

  /** Every piece of the pool lies on exactly one sheet, and every sheet can be cut. */
  ghost predicate Complete(sheets: seq<Opened>, pool: seq<Piece>, specs: seq<BinSpec>, p: Params) {
    && multiset(AllPlaced(sheets)) == multiset(pool)
    && forall s :: s in sheets ==> s.spec in specs && Sawable(s, p)
  }

  lemma {:induction false} PlacedArea(ps: seq<Placed>)
    requires forall q :: q in ps ==> Legal(q)
    ensures SumArea(BoxesOf(ps)) == PoolArea(PiecesOf(ps))
  {
    hide Area, PieceArea, Legal, BoxOf;
    if ps != [] {
      var init, last := ps[..|ps|-1], ps[|ps|-1];
      assert last in ps && forall q :: q in init ==> q in ps;
      PlacedArea(init);
      OnePlacedArea(last);
      assert BoxesOf(ps)[..|ps|-1] == BoxesOf(init);
      assert PiecesOf(ps)[..|ps|-1] == PiecesOf(init);
    }
  }

  lemma OnePlacedArea(q: Placed)
    requires Legal(q)
    ensures Area(BoxOf(q)) == PieceArea(q.piece)
  {
  }

  /** A cut tree conserves area, so the pieces of a sheet fit its usable area. */
  lemma SheetAreaFits(s: Opened, p: Params)
    requires Sawable(s, p)
    ensures PoolArea(PiecesOf(s.placed)) <= SheetArea(s.spec, p)
  {
    hide Frees, SumArea, PoolArea, Offcuts, Dust;
    var r, S := UsableBounds(s.spec.width, s.spec.height, p), BoxesOf(s.placed);
    var t :| Frees(t, r, S, p.kerf);
    PlacedArea(s.placed);
    if Solid(r) {
      AreaConserved(t, r, S, p.kerf);
    } else if s.placed != [] {
      FreesInside(t, r, S, p.kerf, S[0]);
    } else {
      NoArea();
    }
  }

  lemma NoArea()
    ensures PoolArea([]) == 0
  {
  }

  lemma {:induction false} SheetsHold(sheets: seq<Opened>, p: Params)
    requires forall s :: s in sheets ==> Sawable(s, p)
    ensures PoolArea(AllPlaced(sheets)) <= Room(SpecsOf(sheets), p)
  {
    hide SheetArea, Sawable;
    if sheets != [] {
      var init, last := sheets[..|sheets|-1], sheets[|sheets|-1];
      assert last in sheets && forall s :: s in init ==> s in sheets;
      SheetsHold(init, p);
      SheetAreaFits(last, p);
      SumByConcat(PieceArea, AllPlaced(init), PiecesOf(last.placed));
      assert SpecsOf(sheets)[..|sheets|-1] == SpecsOf(init);
    }
  }

  /** The area relaxation covers every complete plan. */
  lemma CompleteHolds(sheets: seq<Opened>, pool: seq<Piece>, specs: seq<BinSpec>, p: Params)
    requires Complete(sheets, pool, specs, p)
    ensures Holds(SpecsOf(sheets), specs, PoolArea(pool), p)
  {
    hide Sawable, Room, AllPlaced;
    SheetsHold(sheets, p);
    SumByPermuted(PieceArea, AllPlaced(sheets), pool);
    forall s | s in SpecsOf(sheets) ensures s in specs {
      var i :| 0 <= i < |sheets| && SpecsOf(sheets)[i] == s;
      assert sheets[i] in sheets;
    }
  }

  /** When an incumbent of this cost and this many sheets is declared optimal, no
      complete plan of any shape bills less, and at cost 0 none opens fewer sheets. A
      priced incumbent at the bound is always declared so, and a free one whenever no
      sheets that hold the area are fewer. */
  method ProvenOptimal(cost: int, sheetCount: nat, bound: real, pool: seq<Piece>, specs: seq<BinSpec>, p: Params)
    returns (optimal: bool)
    requires NoneNegative(specs) && LowerBound(bound, PoolArea(pool), specs, p)
    ensures optimal ==> forall rival :: Complete(rival, pool, specs, p) ==> cost <= Cost(SpecsOf(rival))
    ensures optimal && cost <= 0 ==> forall rival :: Complete(rival, pool, specs, p) ==> sheetCount <= |rival|
    ensures cost > 0 ==> (optimal <==> cost as real <= bound)
    ensures cost <= 0 && cost as real <= bound && SomeHold(specs, PoolArea(pool), p) ==>
              (optimal <==> forall plan :: Holds(plan, specs, PoolArea(pool), p) ==> sheetCount <= |plan|)
  {
    hide Complete, PoolArea, Cost;
    forall rival | Complete(rival, pool, specs, p) ensures Holds(SpecsOf(rival), specs, PoolArea(pool), p) {
      CompleteHolds(rival, pool, specs, p);
    }
    if cost as real > bound { return false; }
    if cost > 0 { return true; }
    var n := BinsLowerBound(PoolArea(pool), specs, p);
    return sheetCount <= n;
  }
}
