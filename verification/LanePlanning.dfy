/**
`_plan_for` and `lane_plan` of lanes.py: a complete plan of full-height lanes that
bills strictly less than the plan to beat.
*/
module LanePlanning {
  import opened Geometry
  import opened Guillotine
  import opened Plans
  import opened Sequences
  import opened Sheets
  import opened Constructors
  import opened Strips
  import opened Bounds
  import opened SearchPlans
  import opened ExactBinding
  import opened ExactLayout
  import opened Exact
  import opened LaneSheets
  import opened LaneEmission
  import opened LaneStacks
  import opened LaneAssignment
  import C = LaneCombos
  import P = LanePacking

  // ---- one sheet -----------------------------------------------------------------------

  lemma {:induction false} LanePieces(lanes: seq<Lane>)
    ensures PiecesIn(AsColumns(lanes)) == ItemPieces(AllItems(lanes))
  {
    if lanes != [] {
      var init, l := lanes[..|lanes|-1], lanes[|lanes|-1];
      LanePieces(init);
      assert AsColumns(lanes)[..|lanes|-1] == AsColumns(init);
      ItemPiecesConcat(AllItems(init), l.items);
      assert PiecesOn(AsBound(l.items)) == ItemPieces(l.items);
    }
  }

  /** An emitted sheet carries the pieces of its lanes and of its strip. */
  lemma EmittedPieces(lanes: seq<Lane>, strip: BinFill, r: Box, kerf: nat, minRect: int)
    requires Solid(r) && LanesOk(lanes, r, kerf)
    ensures PiecesOf(Emitted(lanes, strip, r, kerf, minRect).placed) ==
            ItemPieces(AllItems(lanes)) + PiecesOf(strip.placed)
  {
    hide LanesOk, RowsFit, SheetFill, ItemPieces, AsColumns, BandHeight, Emitted;
    var f := BandFrame(r, BandHeight(lanes), kerf);
    BandFits(lanes, r, kerf);
    FitRows(f, AsColumns(lanes));
    SheetPieces(f, AsColumns(lanes), minRect);
    LanePieces(lanes);
    EmittedPlaced(lanes, strip, r, kerf, minRect);
  }

  lemma MovedPieces(strip: BinFill, dx: int, dy: int)
    ensures PiecesOf(Translate(strip, dx, dy).placed) == PiecesOf(strip.placed)
  {
  }

  lemma PiecesOfConcat(a: seq<Placed>, b: seq<Placed>)
    ensures PiecesOf(a + b) == PiecesOf(a) + PiecesOf(b)
  {
  }

  lemma EmittedPlaced(lanes: seq<Lane>, strip: BinFill, r: Box, kerf: nat, minRect: int)
    ensures var band := SheetFill(BandFrame(r, BandHeight(lanes), kerf), AsColumns(lanes), minRect).placed;
            PiecesOf(Emitted(lanes, strip, r, kerf, minRect).placed) == PiecesOf(band) + PiecesOf(strip.placed)
  {
    hide SheetFill, AsColumns, BandHeight, SheetTail, SheetCursor, BandCuts, KeepAll, BandTop, PiecesOf, Translate,
         BandFrame, FreeAbove, Kept;
    var f := BandFrame(r, BandHeight(lanes), kerf);
    var s := SheetFill(f, AsColumns(lanes), minRect);
    BandEnd(f, AsColumns(lanes), minRect);
    hide WholeSheet;
    if StripUsed(strip) {
      var moved := Translate(strip, r.x0, r.y0 + BandHeight(lanes) + kerf);
      MovedPieces(strip, r.x0, r.y0 + BandHeight(lanes) + kerf);
      PiecesOfConcat(s.placed, moved.placed);
    } else {
      NoPieces();
    }
  }

  function RegionOf(job: Job, k: nat): Box
    requires k < |job.specs|
  {
    UsableBounds(job.specs[k].width, job.specs[k].height, job.p)
  }

  lemma RealizedIsSawable(t: GTree, job: Job, k: nat, fill: BinFill, g: Config)
    requires k < |job.specs| && Realizes(t, RegionOf(job, k), fill, g) && g.kerf == job.p.kerf
    ensures FillSound(Fill(k, fill), job)
  {
    hide Frees, PlanOf, Offcuts;
  }

  // ---- bin types that carry lanes --------------------------------------------------------

  /** Unlimited bin types as tall as the tallest of them, at most two. */
  ghost predicate KindsOk(kinds: seq<nat>, height: int, job: Job) {
    && 0 < |kinds| <= 2 && height > 0
    && forall k :: k in kinds ==>
         && k < |job.specs| && job.specs[k].count.None? && job.specs[k].cost >= 0
         && Height(RegionOf(job, k)) == height && Width(RegionOf(job, k)) > 0
  }

  function ClassOf(job: Job, k: nat): C.SheetClass {
    if k < |job.specs| then C.SheetClass(job.specs[k].cost, Width(RegionOf(job, k))) else C.SheetClass(0, 0)
  }

  function ClassesOf(job: Job, kinds: seq<nat>): (r: seq<C.SheetClass>)
    ensures |r| == |kinds| && forall i :: 0 <= i < |r| ==> r[i] == ClassOf(job, kinds[i])
  {
    seq(|kinds|, i requires 0 <= i < |kinds| => ClassOf(job, kinds[i]))
  }

  /** The first bin type of a class from `i` on. */
  function FirstKind(job: Job, kinds: seq<nat>, c: C.SheetClass, i: nat): (k: nat)
    requires i <= |kinds| && c in ClassesOf(job, kinds[i..])
    ensures k in kinds && ClassOf(job, k) == c
    decreases |kinds| - i
  {
    if ClassOf(job, kinds[i]) == c then kinds[i]
    else
      assert ClassesOf(job, kinds[i..]) == [ClassOf(job, kinds[i])] + ClassesOf(job, kinds[i+1..]);
      FirstKind(job, kinds, c, i + 1)
  }

  /** The first bin type of a class. */
  method KindOf(job: Job, kinds: seq<nat>, c: C.SheetClass) returns (k: nat)
    requires c in ClassesOf(job, kinds)
    ensures k in kinds && ClassOf(job, k) == c
    ensures kinds[0..] == kinds && k == FirstKind(job, kinds, c, 0)
  {
    hide ClassOf;
    var i := 0;
    assert kinds[0..] == kinds;
    while ClassOf(job, kinds[i]) != c
      invariant i < |kinds| && c in ClassesOf(job, kinds[i..])
      invariant FirstKind(job, kinds, c, i) == FirstKind(job, kinds, c, 0)
      decreases |kinds| - i
    {
      assert ClassesOf(job, kinds[i..]) == [ClassOf(job, kinds[i])] + ClassesOf(job, kinds[i+1..]);
      i := i + 1;
    }
    k := kinds[i];
  }

  function WidestFirst(job: Job): (nat, nat) -> bool {
    (a: nat, b: nat) =>
      var x, y := ClassOf(job, a), ClassOf(job, b);
      x.width > y.width || (x.width == y.width && x.cost <= y.cost)
  }

  /** An unlimited bin type as tall between its trims as any. */
  predicate Tallest(k: nat, height: int, job: Job) {
    k < |job.specs| && job.specs[k].count.None? && Height(RegionOf(job, k)) == height
  }

  /** The classes of the tallest unlimited bin types, each once. */
  ghost predicate TallestClasses(kinds: seq<nat>, height: int, job: Job) {
    && (forall k: nat :: k < |job.specs| && job.specs[k].count.None? ==> Height(RegionOf(job, k)) <= height)
    && (forall k :: k in kinds ==> Tallest(k, height, job))
    && (forall k: nat :: Tallest(k, height, job) ==> ClassOf(job, k) in ClassesOf(job, kinds))
    && (forall i, j :: 0 <= i < j < |kinds| ==> ClassOf(job, kinds[i]) != ClassOf(job, kinds[j]))
  }

  /** The most room between the trims of the first `n` bin types that are unlimited. */
  function TallestOf(job: Job, n: nat): int
    requires n <= |job.specs|
  {
    if n == 0 then 0
    else if job.specs[n-1].count.None? then Max(TallestOf(job, n - 1), Height(RegionOf(job, n - 1)))
    else TallestOf(job, n - 1)
  }

  /** The first of each class among the first `n` bin types that are so tall; nothing when
      one has no room. */
  function ClassesUpTo(job: Job, tallest: int, n: nat): (r: Option<seq<nat>>)
    requires n <= |job.specs|
    ensures r.Some? ==> forall k :: k in r.value ==> k < n
  {
    if n == 0 then Some([])
    else
      var before := ClassesUpTo(job, tallest, n - 1);
      if before.None? || job.specs[n-1].count.Some? || Height(RegionOf(job, n - 1)) != tallest then before
      else if Width(RegionOf(job, n - 1)) <= 0 then None
      else if ClassOf(job, n - 1) in ClassesOf(job, before.value) then before
      else Some(before.value + [n - 1])
  }

  function FoundClasses(job: Job): (r: Option<(seq<nat>, int)>)
    ensures r.Some? ==> forall k :: k in r.value.0 ==> k < |job.specs|
  {
    var tallest := TallestOf(job, |job.specs|);
    var kinds := ClassesUpTo(job, tallest, |job.specs|);
    if tallest <= 0 || kinds.None? || kinds.value == [] || |kinds.value| > 2 then None
    else
      SameKindsListed(SortBy(WidestFirst(job), kinds.value), kinds.value);
      Some((SortBy(WidestFirst(job), kinds.value), tallest))
  }

  lemma {:induction false} NoRoomStays(job: Job, tallest: int, n: nat)
    requires n <= |job.specs| && ClassesUpTo(job, tallest, n).None?
    ensures ClassesUpTo(job, tallest, |job.specs|).None?
    decreases |job.specs| - n
  {
    hide RegionOf, ClassOf;
    if n < |job.specs| { NoRoomStays(job, tallest, n + 1); }
  }

  method TallestHeight(job: Job) returns (tallest: int)
    ensures tallest == TallestOf(job, |job.specs|)
    ensures forall k: nat :: k < |job.specs| && job.specs[k].count.None? ==> Height(RegionOf(job, k)) <= tallest
    ensures tallest > 0 ==> exists k: nat :: Tallest(k, tallest, job)
  {
    hide RegionOf;
    tallest := 0;
    for k := 0 to |job.specs|
      invariant forall j: nat :: j < k && job.specs[j].count.None? ==> Height(RegionOf(job, j)) <= tallest
      invariant tallest == TallestOf(job, k) && (tallest > 0 ==> exists j: nat :: Tallest(j, tallest, job))
    {
      if job.specs[k].count.None? {
        if Height(RegionOf(job, k)) > tallest { assert Tallest(k, Height(RegionOf(job, k)), job); }
        tallest := Max(tallest, Height(RegionOf(job, k)));
      }
    }
  }

  /** The first of each class of the bin types that are so tall; nothing when one of them has
      no room. */
  method ListClasses(job: Job, tallest: int) returns (r: Option<seq<nat>>)
    requires Bounds.NoneNegative(job.specs)
    ensures r == ClassesUpTo(job, tallest, |job.specs|)
    ensures r.Some? ==> forall k ::
              k in r.value ==> Tallest(k, tallest, job) && job.specs[k].cost >= 0 && Width(RegionOf(job, k)) > 0
    ensures r.Some? ==> forall k: nat :: Tallest(k, tallest, job) ==> ClassOf(job, k) in ClassesOf(job, r.value)
    ensures r.Some? ==> forall i, j :: 0 <= i < j < |r.value| ==> ClassOf(job, r.value[i]) != ClassOf(job, r.value[j])
    ensures r.None? ==> exists k: nat :: Tallest(k, tallest, job) && Width(RegionOf(job, k)) <= 0
  {
    hide RegionOf, ClassOf, NoneNegative;
    var kinds: seq<nat> := [];
    for k := 0 to |job.specs|
      invariant forall j ::
                j in kinds ==> Tallest(j, tallest, job) && job.specs[j].cost >= 0 && Width(RegionOf(job, j)) > 0
      invariant forall j: nat :: j < k && Tallest(j, tallest, job) ==> ClassOf(job, j) in ClassesOf(job, kinds)
      invariant forall i, j :: 0 <= i < j < |kinds| ==> ClassOf(job, kinds[i]) != ClassOf(job, kinds[j])
      invariant ClassesUpTo(job, tallest, k) == Some(kinds)
    {
      if job.specs[k].count.None? && Height(RegionOf(job, k)) == tallest {
        assert Tallest(k, tallest, job);
        if Width(RegionOf(job, k)) <= 0 {
          NoRoomStays(job, tallest, k + 1);
          return None;
        }
        CostsSomething(job, k);
        OneMoreClass(job, kinds, k);
        if ClassOf(job, k) !in ClassesOf(job, kinds) { kinds := kinds + [k]; }
      }
    }
    return Some(kinds);
  }

  lemma CostsSomething(job: Job, k: nat)
    requires Bounds.NoneNegative(job.specs) && k < |job.specs|
    ensures job.specs[k].cost >= 0
  {
    assert job.specs[k] in job.specs;
  }

  /** The tallest unlimited bin types, one of each width and cost, widest first; none
      when there are more than two of these, or one of them has no room. */
  method FindClasses(job: Job) returns (r: Option<(seq<nat>, int)>)
    requires Bounds.NoneNegative(job.specs)
    ensures r == FoundClasses(job)
    ensures r.Some? ==> KindsOk(r.value.0, r.value.1, job) && TallestClasses(r.value.0, r.value.1, job)
    ensures r.Some? ==> forall i, j :: 0 <= i < j < |r.value.0| ==> WidestFirst(job)(r.value.0[i], r.value.0[j])
    ensures r.None? ==>
              || (forall k: nat :: k < |job.specs| && job.specs[k].count.None? ==> Height(RegionOf(job, k)) <= 0)
              || (exists k: nat, height :: Tallest(k, height, job) && Width(RegionOf(job, k)) <= 0)
              || (exists kinds, height :: TallestClasses(kinds, height, job) && |kinds| > 2)
  {
    hide RegionOf, ClassOf, TallestOf, ClassesUpTo;
    var tallest := TallestHeight(job);
    if tallest <= 0 { return None; }
    var listed := ListClasses(job, tallest);
    if listed.None? { return None; }
    var kinds := listed.value;
    assert TallestClasses(kinds, tallest, job);
    if kinds == [] || |kinds| > 2 { return None; }
    var sorted := SortBy(WidestFirst(job), kinds);
    NothingElse(sorted, kinds);
    SortedClasses(job, kinds, tallest);
    return Some((sorted, tallest));
  }

  lemma OneMoreClass(job: Job, kinds: seq<nat>, k: nat)
    ensures ClassesOf(job, kinds + [k]) == ClassesOf(job, kinds) + [ClassOf(job, k)]
    ensures ClassOf(job, k) !in ClassesOf(job, kinds) ==> forall i ::
            0 <= i < |kinds| ==> ClassOf(job, kinds[i]) != ClassOf(job, k)
  {
    hide ClassOf;
    forall i | 0 <= i < |kinds| ensures ClassOf(job, kinds[i]) in ClassesOf(job, kinds) {
      assert ClassesOf(job, kinds)[i] == ClassOf(job, kinds[i]);
    }
  }

  lemma SortOne<T>(le: (T, T) -> bool, a: T)
    ensures SortBy(le, [a]) == [a]
  {
    assert [a][..0] == [];
    assert SortBy(le, []) == [];
  }

  lemma SortTwo<T>(le: (T, T) -> bool, a: T, b: T)
    ensures SortBy(le, [a, b]) == if le(a, b) then [a, b] else [b, a]
  {
    SortOne(le, a);
    assert [a, b][..1] == [a];
    assert [a][..0] == [];
  }

  lemma SwappedClasses(job: Job, a: nat, b: nat, height: int)
    requires TallestClasses([a, b], height, job)
    ensures TallestClasses([b, a], height, job)
  {
    hide RegionOf, ClassOf;
    assert ClassesOf(job, [a, b]) == [ClassOf(job, a), ClassOf(job, b)];
    assert ClassesOf(job, [b, a]) == [ClassOf(job, b), ClassOf(job, a)];
    assert [a, b][0] == a && [a, b][1] == b;
  }

  lemma SameKindsListed(a: seq<nat>, b: seq<nat>)
    requires multiset(a) == multiset(b)
    ensures forall k :: k in a <==> k in b
  {
    forall k ensures k in a <==> k in b { assert k in a <==> k in multiset(a); }
  }

  /** Sorting at most two classes. */
  lemma SortedClasses(job: Job, kinds: seq<nat>, height: int)
    requires TallestClasses(kinds, height, job) && 0 < |kinds| <= 2
    ensures var sorted := SortBy(WidestFirst(job), kinds);
            && TallestClasses(sorted, height, job) && (forall k :: k in sorted <==> k in kinds)
            && forall i, j :: 0 <= i < j < |sorted| ==> WidestFirst(job)(sorted[i], sorted[j])
  {
    hide RegionOf, TallestClasses, SortBy;
    var le := WidestFirst(job);
    var sorted := SortBy(le, kinds);
    SameKindsListed(sorted, kinds);
    if |kinds| == 1 {
      SortOne(le, kinds[0]);
      assert kinds == [kinds[0]];
    } else {
      var a, b := kinds[0], kinds[1];
      assert kinds == [a, b];
      SortTwo(le, a, b);
      SwappedClasses(job, a, b, height);
    }
  }

  // ---- one sheet, step by step --------------------------------------------------------------

  datatype Orders = Orders(stack: seq<Item> -> seq<Item>, lanes: seq<Lane> -> seq<Lane>,
                           strips: seq<seq<Piece> -> seq<Piece>>)

  ghost predicate HonestOrders(o: Orders) {
    && IsItemOrder(o.stack) && (forall lanes :: multiset(o.lanes(lanes)) == multiset(lanes))
    && forall s :: s in o.strips ==> IsOrder(s)
  }

  predicate AllItemsOk(items: seq<Item>) {
    forall it :: it in items ==> ItemOk(it)
  }

  /** The room above the lanes. */
  function RoomAbove(r: Box, lanes: seq<Lane>, kerf: nat): int {
    Height(r) - BandHeight(lanes) - kerf
  }

  /** The strip above the lanes, and the items left for the next sheet. */
  function StripAbove(r: Box, lanes: seq<Lane>, remaining: seq<Item>, kerf: nat, minRect: int, o: Orders):
    (BinFill, seq<Item>)
  {
    var free := RoomAbove(r, lanes, kerf);
    if free > 0 && remaining != [] then FilledStrip(remaining, Width(r), free, kerf, minRect, o.strips)
    else (NOFILL, remaining)
  }

  function SheetMade(job: Job, k: nat, lanes: seq<Lane>, remaining: seq<Item>, minRect: int, o: Orders):
    (Fill, seq<Item>)
    requires k < |job.specs|
  {
    var r := RegionOf(job, k);
    var (strip, rest) := StripAbove(r, lanes, remaining, job.p.kerf, minRect, o);
    (Fill(k, Emitted(lanes, strip, r, job.p.kerf, minRect)), rest)
  }

  /** The strip fills the room above the lanes; it holds nothing only if nothing left fits
      there. */
  method MakeStrip(r: Box, lanes: seq<Lane>, remaining: seq<Item>, kerf: nat, minRect: int, o: Orders)
    returns (strip: BinFill, rest: seq<Item>)
    requires HonestOrders(o) && DistinctItems(remaining) && AllItemsOk(remaining)
    ensures (strip, rest) == StripAbove(r, lanes, remaining, kerf, minRect, o)
    ensures StripUsed(strip) ==>
              RoomAbove(r, lanes, kerf) > 0 && exists u ::
                Realizes(u, Box(0, 0, Width(r), RoomAbove(r, lanes, kerf)), strip, Config(kerf, minRect, 0))
    ensures strip.placed == [] && o.strips != [] ==>
              forall it :: it in rest ==> it.width > Width(r) || it.height > RoomAbove(r, lanes, kerf)
    ensures multiset(PiecesOf(strip.placed)) + multiset(ItemPieces(rest)) == multiset(ItemPieces(remaining))
    ensures DistinctItems(rest) && AllItemsOk(rest) && (forall it :: it in rest ==> it in remaining)
    ensures NoneGoesIn(rest, strip.remainders)
  {
    hide DistinctItems, ItemOk, ItemPieces, PiecesOf, BandHeight, Realizes, IsItemOrder, FilledStrip, NoneGoesIn;
    strip, rest := NOFILL, remaining;
    var free := RoomAbove(r, lanes, kerf);
    NoPieces();
    NoGaps(remaining);
    NoneTooSmall(remaining, Width(r), free);
    if free > 0 && remaining != [] {
      strip, rest := FillStrip(remaining, Width(r), free, kerf, minRect, o.strips);
    }
  }

  /** One sheet of lanes and as much of the strip items as fits above them. */
  method MakeSheet(job: Job, k: nat, lanes: seq<Lane>, remaining: seq<Item>, minRect: int, o: Orders)
    returns (fill: Fill, rest: seq<Item>)
    requires k < |job.specs| && Solid(RegionOf(job, k)) && LanesOk(lanes, RegionOf(job, k), job.p.kerf)
    requires HonestOrders(o) && DistinctItems(remaining) && AllItemsOk(remaining)
    ensures (fill, rest) == SheetMade(job, k, lanes, remaining, minRect, o)
    ensures fill.kind == k && FillSound(fill, job)
    ensures NoneGoesIn(rest, StripAbove(RegionOf(job, k), lanes, remaining, job.p.kerf, minRect, o).0.remainders)
    ensures DistinctItems(rest) && AllItemsOk(rest) && forall it :: it in rest ==> it in remaining
    ensures multiset(PlacedIn(fill)) + multiset(ItemPieces(rest)) ==
            multiset(ItemPieces(AllItems(lanes))) + multiset(ItemPieces(remaining))
  {
    hide LanesOk, DistinctItems, ItemOk, ItemPieces, AllItems, PiecesOf, FillSound, BandHeight, Realizes, Emitted,
         Unlisted, IsItemOrder, FilledStrip, NoneGoesIn, StripAbove;
    var r, kerf := RegionOf(job, k), job.p.kerf;
    var g := Config(kerf, minRect, 0);
    var strip, left := MakeStrip(r, lanes, remaining, kerf, minRect, o);
    rest := left;
    assert StripOk(lanes, strip, r, g) by { assert FreeAbove(lanes, r, kerf) == RoomAbove(r, lanes, kerf); }
    var sheet := Emit(lanes, strip, r, kerf, minRect);
    fill := Fill(k, sheet);
    ghost var all := sheet.(cuts := sheet.cuts + Unlisted(lanes, strip, r, kerf));
    ghost var t :| Realizes(t, r, all, g);
    RealizedIsSawable(t, job, k, all, g);
    CutsDoNotMatter(Fill(k, all), fill, job);
    EmittedPieces(lanes, strip, r, kerf, minRect);
  }

  lemma CutsDoNotMatter(f: Fill, f': Fill, job: Job)
    requires FillSound(f, job) && f'.kind == f.kind && f'.sheet.placed == f.sheet.placed
    ensures FillSound(f', job)
  {
    hide Cuttable;
  }
}
