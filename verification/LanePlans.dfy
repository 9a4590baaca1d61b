/**
The lane planner of lanes.py end to end.
*/
module LanePlans {
  import opened Geometry
  import opened Guillotine
  import opened Plans
  import opened Sequences
  import opened Sheets
  import opened Constructors
  import opened Bounds
  import Strips
  import opened SearchPlans
  import opened HandSheet
  import opened Improving
  import opened Incumbents
  import opened Repairs
  import opened LaneSheets
  import opened LaneStacks
  import opened LaneAssignment
  import opened LanePlanning
  import C = LaneCombos
  import P = LanePacking

  // ---- all lanes -------------------------------------------------------------------------

  /** Distinct widths, ascending. */
  function WidthsIn(items: seq<Item>): (ws: seq<int>)
    ensures Ascending(ws) && forall w :: w in ws <==> exists it :: it in items && it.width == w
  {
    if items == [] then []
    else
      assert items == items[..|items|-1] + [items[|items|-1]];
      Insert(WidthsIn(items[..|items|-1]), items[|items|-1].width)
  }

  /** The items whose width is one of these. */
  function OfWidths(items: seq<Item>, ws: seq<int>): (r: seq<Item>)
    ensures forall it :: it in r ==> it in items && it.width in ws
  {
    if items == [] then []
    else OfWidths(items[..|items|-1], ws) + if items[|items|-1].width in ws then [items[|items|-1]] else []
  }

  lemma OfNoItems(ws: seq<int>)
    ensures OfWidths([], ws) == []
  {
  }

  lemma OfWidthsLast(items: seq<Item>, it: Item, ws: seq<int>)
    ensures OfWidths(items + [it], ws) == if it.width in ws then OfWidths(items, ws) + [it] else OfWidths(items, ws)
  {
    assert (items + [it])[..|items|] == items;
  }

  lemma {:induction false} OneMoreWidth(items: seq<Item>, ws: seq<int>, w: int)
    requires w !in ws
    ensures multiset(OfWidths(items, [w] + ws)) == multiset(OfWidths(items, ws)) + multiset(OfWidths(items, [w]))
  {
    hide OfWidths;
    if items == [] {
      OfNoItems([w] + ws);
      OfNoItems(ws);
      OfNoItems([w]);
    } else {
      var init, last := items[..|items|-1], items[|items|-1];
      assert items == init + [last];
      OneMoreWidth(init, ws, w);
      OfWidthsLast(init, last, [w] + ws);
      OfWidthsLast(init, last, ws);
      OfWidthsLast(init, last, [w]);
    }
  }

  lemma {:induction false} WidthTaken(items: seq<Item>, ws: seq<int>, it: Item)
    requires it in items && it.width in ws
    ensures it in OfWidths(items, ws)
  {
    var init, last := items[..|items|-1], items[|items|-1];
    if it != last {
      assert items == init + [last];
      WidthTaken(init, ws, it);
    }
  }

  lemma {:induction false} EveryWidth(items: seq<Item>, ws: seq<int>)
    requires forall it :: it in items ==> it.width in ws
    ensures OfWidths(items, ws) == items && OfWidths(items, []) == []
  {
    hide OfWidths;
    if items == [] {
      OfNoItems(ws);
      OfNoItems([]);
    } else {
      var init, last := items[..|items|-1], items[|items|-1];
      assert items == init + [last] && last in items;
      EveryWidth(init, ws);
      OfWidthsLast(init, last, ws);
      OfWidthsLast(init, last, []);
    }
  }

  lemma {:induction false} AllItemsConcat(a: seq<Lane>, b: seq<Lane>)
    ensures AllItems(a + b) == AllItems(a) + AllItems(b)
  {
    if b == [] {
      assert a + b == a;
    } else {
      assert (a + b)[..|a + b|-1] == a + b[..|b|-1];
      AllItemsConcat(a, b[..|b|-1]);
    }
  }

  ghost function ItemsIn(l: Lane): multiset<Item> {
    multiset(l.items)
  }

  lemma {:induction false} AllItemsAre(lanes: seq<Lane>)
    ensures multiset(AllItems(lanes)) == UnionBy(ItemsIn, lanes)
  {
    if lanes != [] { AllItemsAre(lanes[..|lanes|-1]); }
  }

  lemma AllItemsPermuted(a: seq<Lane>, b: seq<Lane>)
    requires multiset(a) == multiset(b)
    ensures multiset(AllItems(a)) == multiset(AllItems(b))
  {
    AllItemsAre(a);
    AllItemsAre(b);
    UnionByPermuted(ItemsIn, a, b);
  }

  /** The items of each of these widths stacked, the last width first; nothing when an item
      is too tall. */
  function StackedWidths(items: seq<Item>, ws: seq<int>, limit: int, kerf: nat, o: Orders): Option<seq<Lane>> {
    if ws == [] then Some([])
    else
      var built := StackedOn([], o.stack(OfWidths(items, [ws[|ws|-1]])), limit, kerf);
      if built == [] then None else Before(built, StackedWidths(items, ws[..|ws|-1], limit, kerf, o))
  }

  function Before(lanes: seq<Lane>, more: Option<seq<Lane>>): Option<seq<Lane>> {
    if more.None? then None else Some(lanes + more.value)
  }

  function StackedAll(items: seq<Item>, limit: int, kerf: nat, o: Orders): Option<seq<Lane>> {
    var lanes := StackedWidths(items, WidthsIn(items), limit, kerf, o);
    if lanes.None? then None else Some(o.lanes(lanes.value))
  }

  lemma StackedWidthsNext(items: seq<Item>, ws: seq<int>, i: nat, limit: int, kerf: nat, o: Orders, lanes: seq<Lane>)
    requires i < |ws|
    ensures var built := StackedOn([], o.stack(OfWidths(items, [ws[i]])), limit, kerf);
            Before(lanes, StackedWidths(items, ws[..i+1], limit, kerf, o)) ==
            if built == [] then None else Before(lanes + built, StackedWidths(items, ws[..i], limit, kerf, o))
  {
    hide StackedOn, OfWidths;
    assert ws[..i+1][..i] == ws[..i] && ws[..i+1][i] == ws[i];
    var built, more := StackedOn([], o.stack(OfWidths(items, [ws[i]])), limit, kerf),
        StackedWidths(items, ws[..i], limit, kerf, o);
    if more.Some? { assert lanes + (built + more.value) == (lanes + built) + more.value; }
  }

  lemma NoWidthsStacked(items: seq<Item>, ws: seq<int>, limit: int, kerf: nat, o: Orders, lanes: seq<Lane>)
    ensures StackedWidths(items, ws[..0], limit, kerf, o) == Some([])
    ensures Before(lanes, StackedWidths(items, ws[..0], limit, kerf, o)) == Some(lanes)
    ensures Before([], StackedWidths(items, ws, limit, kerf, o)) == StackedWidths(items, ws, limit, kerf, o)
  {
    var r := StackedWidths(items, ws, limit, kerf, o);
    var none: seq<Lane> := [];
    assert lanes + none == lanes;
    if r.Some? { assert none + r.value == r.value; }
  }

  /** Every item stacked, widest first; no answer when one is too tall. */
  method StackAll(items: seq<Item>, limit: int, kerf: nat, o: Orders) returns (r: Option<seq<Lane>>)
    requires HonestOrders(o) && AllItemsOk(items)
    ensures r == StackedAll(items, limit, kerf, o)
    ensures r.Some? ==>
            (forall l :: l in r.value ==> LaneOk(l, limit, kerf)) && multiset(AllItems(r.value)) == multiset(items)
    ensures r.None? ==> exists it :: it in items && it.height > limit
  {
    hide LaneOk, ItemOk, AllItems, OfWidths, WidthsIn, StackedOn, StackedWidths, Before;
    var ws := WidthsIn(items);
    var lanes: seq<Lane> := [];
    EveryWidth(items, ws);
    NoLaneItems();
    NoWidthsStacked(items, ws, limit, kerf, o, []);
    assert ws[|ws|..] == [] && ws[..|ws|] == ws;
    for i := |ws| downto 0
      invariant forall l :: l in lanes ==> LaneOk(l, limit, kerf)
      invariant multiset(AllItems(lanes)) == multiset(OfWidths(items, ws[i..]))
      invariant Before(lanes, StackedWidths(items, ws[..i], limit, kerf, o)) == StackedWidths(items, ws, limit, kerf, o)
    {
      var group := OfWidths(items, [ws[i]]);
      var built := Stack(group, ws[i], limit, kerf, o.stack);
      StackedWidthsNext(items, ws, i, limit, kerf, o, lanes);
      if built == [] {
        assert ws[i] in ws;
        ghost var it :| it in items && it.width == ws[i];
        WidthTaken(items, [ws[i]], it);
        return None;
      }
      assert ws[i..] == [ws[i]] + ws[i+1..];
      OneMoreWidth(items, ws[i+1..], ws[i]);
      AllItemsConcat(lanes, built);
      lanes := lanes + built;
    }
    NoWidthsStacked(items, ws, limit, kerf, o, lanes);
    assert ws[0..] == ws;
    var sorted := o.lanes(lanes);
    assert multiset(sorted) == multiset(lanes);
    AllItemsPermuted(sorted, lanes);
    forall l | l in sorted ensures LaneOk(l, limit, kerf) { assert l in multiset(lanes); }
    return Some(sorted);
  }

  lemma NoLaneItems()
    ensures AllItems([]) == []
  {
  }

  // ---- the sheets of a plan ---------------------------------------------------------------------

  /** Sheets already made: sound, of the planned types, billing at most the classes used. */
  ghost predicate Made(fills: seq<Fill>, kinds: seq<nat>, classes: seq<C.SheetClass>, job: Job) {
    && AllSound(fills, job) && (forall f :: f in fills ==> f.kind in kinds)
    && CostOf(fills, job) <= SumBy(LaneAssignment.CostIn, classes)
  }

  lemma NothingMade(kinds: seq<nat>, job: Job)
    ensures Made([], kinds, [], job) && AllPieces([]) == []
  {
  }

  lemma MadeSkip(fills: seq<Fill>, kinds: seq<nat>, classes: seq<C.SheetClass>, c: C.SheetClass, job: Job)
    requires Made(fills, kinds, classes, job) && c.cost >= 0
    ensures Made(fills, kinds, classes + [c], job)
  {
    hide CostOf, AllSound;
    SumByLast(LaneAssignment.CostIn, classes, c);
  }

  lemma MadeNext(fills: seq<Fill>, kinds: seq<nat>, classes: seq<C.SheetClass>, c: C.SheetClass, f: Fill, job: Job)
    requires Made(fills, kinds, classes, job) && FillSound(f, job) && f.kind in kinds && ClassOf(job, f.kind) == c
    ensures Made(fills + [f], kinds, classes + [c], job)
    ensures multiset(AllPieces(fills + [f])) == multiset(AllPieces(fills)) + multiset(PlacedIn(f))
  {
    hide FillSound, AllPieces, PlacedIn;
    assert f.kind < |job.specs| by { SoundKind(f, job); }
    SumByLast(LaneAssignment.CostIn, classes, c);
    OneMoreFill(fills, f, [], job);
  }

  lemma SoundKind(f: Fill, job: Job)
    requires FillSound(f, job)
    ensures f.kind < |job.specs|
  {
  }

  lemma SheetKind(job: Job, kinds: seq<nat>, height: int, k: nat)
    requires KindsOk(kinds, height, job) && k in kinds
    ensures k < |job.specs| && Solid(RegionOf(job, k)) && Height(RegionOf(job, k)) == height
    ensures ClassOf(job, k).cost >= 0 && ClassOf(job, k).width == Width(RegionOf(job, k))
  {
  }

  /** The lanes of one sheet stand in its region. */
  lemma SheetLanes(lanes: seq<Lane>, idxs: seq<nat>, job: Job, k: nat, height: int)
    requires k < |job.specs| && Height(RegionOf(job, k)) == height
    requires forall l :: l in lanes ==> LaneOk(l, height, job.p.kerf)
    requires P.Indices(idxs, |lanes|) && idxs != []
    requires P.Load(0, P.WidthsOf(idxs, LaneWidthsOf(lanes)), job.p.kerf) <= Width(RegionOf(job, k))
    ensures var sorted := SortBy(Ascends, idxs);
            P.Indices(sorted, |lanes|) && LanesOk(Select(lanes, sorted), RegionOf(job, k), job.p.kerf)
  {
    hide LaneOk, LanesWidth;
    PackedLanesFit(lanes, idxs, Width(RegionOf(job, k)), job.p.kerf);
    var sorted := SortBy(Ascends, idxs);
    NothingElse(sorted, idxs);
    var some := Select(lanes, sorted);
    forall l | l in some ensures LaneOk(l, height, job.p.kerf) {
      var i :| 0 <= i < |some| && some[i] == l;
      assert lanes[sorted[i]] in lanes;
    }
  }

  lemma BinOf(bins: seq<seq<nat>>, j: nat, lanes: seq<Lane>, sheets: seq<C.SheetClass>, kerf: nat)
    requires P.Packs(bins, UpTo(|lanes|), LaneWidthsOf(lanes), C.CapsOf(sheets), kerf) && j < |sheets|
    ensures |bins| == |sheets| && P.Indices(bins[j], |lanes|)
    ensures P.Load(0, P.WidthsOf(bins[j], LaneWidthsOf(lanes)), kerf) <= sheets[j].width
    ensures P.UnionOf(bins[..j+1]) == P.UnionOf(bins[..j]) + multiset(bins[j])
  {
    assert bins[..j+1][..j] == bins[..j];
    assert P.Indices(bins[j], |LaneWidthsOf(lanes)|);
  }

  lemma BinsAre(bins: seq<seq<nat>>, lanes: seq<Lane>, sheets: seq<C.SheetClass>, kerf: nat)
    requires P.Packs(bins, UpTo(|lanes|), LaneWidthsOf(lanes), C.CapsOf(sheets), kerf)
    ensures |bins| == |sheets| && P.UnionOf(bins) == multiset(UpTo(|lanes|))
  {
  }

  lemma SortedIndices(idxs: seq<nat>, n: nat)
    requires P.Indices(idxs, n)
    ensures P.Indices(SortBy(Ascends, idxs), n)
  {
    var sorted := SortBy(Ascends, idxs);
    NothingElse(sorted, idxs);
    forall k | 0 <= k < |sorted| ensures sorted[k] < n {
      assert sorted[k] in multiset(idxs);
      var i :| 0 <= i < |idxs| && idxs[i] == sorted[k];
    }
  }

  /** The lanes of one sheet in order. */
  function LanesAt(lanes: seq<Lane>, idxs: seq<nat>): seq<Lane>
    requires P.Indices(idxs, |lanes|)
  {
    SortedIndices(idxs, |lanes|);
    Select(lanes, SortBy(Ascends, idxs))
  }

  /** Sheets of these types, and lanes for each. */
  predicate Assignable(job: Job, kinds: seq<nat>, lanes: seq<Lane>, sheets: seq<C.SheetClass>, bins: seq<seq<nat>>) {
    && (forall k :: k in kinds ==> k < |job.specs|) && (forall c :: c in sheets ==> c in ClassesOf(job, kinds))
    && |bins| == |sheets| && forall j :: 0 <= j < |bins| ==> P.Indices(bins[j], |lanes|)
  }

  function KindAt(job: Job, kinds: seq<nat>, c: C.SheetClass): (k: nat)
    requires c in ClassesOf(job, kinds)
    ensures k in kinds
  {
    assert kinds[0..] == kinds;
    FirstKind(job, kinds, c, 0)
  }

  /** The first `n` sheets in turn, and the strip items then left. */
  function SheetsMade(job: Job, kinds: seq<nat>, lanes: seq<Lane>, sheets: seq<C.SheetClass>, bins: seq<seq<nat>>,
                      strips: seq<Item>, minRect: int, o: Orders, n: nat): (seq<Fill>, seq<Item>)
    requires Assignable(job, kinds, lanes, sheets, bins) && n <= |sheets|
    decreases n
  {
    if n == 0 then ([], strips)
    else
      var made := SheetsMade(job, kinds, lanes, sheets, bins, strips, minRect, o, n - 1);
      if bins[n-1] == [] then made
      else
        assert sheets[n-1] in sheets;
        var (fill, rest) := SheetMade(job, KindAt(job, kinds, sheets[n-1]), LanesAt(lanes, bins[n-1]), made.1, minRect,
                                      o);
        (made.0 + [fill], rest)
  }

  /** The gaps of the strip on sheet number `n`. */
  function GapsOn(job: Job, kinds: seq<nat>, lanes: seq<Lane>, sheets: seq<C.SheetClass>, bins: seq<seq<nat>>,
                  strips: seq<Item>, minRect: int, o: Orders, n: nat): seq<Box>
    requires Assignable(job, kinds, lanes, sheets, bins) && n < |sheets|
  {
    assert sheets[n] in sheets;
    StripAbove(RegionOf(job, KindAt(job, kinds, sheets[n])), LanesAt(lanes, bins[n]),
               SheetsMade(job, kinds, lanes, sheets, bins, strips, minRect, o, n).1, job.p.kerf, minRect,
               o).0.remainders
  }

  /** The first `n` sheets are made, and what is left fits no gap of their strips. */
  ghost predicate LaidSoFar(job: Job, kinds: seq<nat>, lanes: seq<Lane>, sheets: seq<C.SheetClass>, bins: seq<seq<nat>>,
                            strips: seq<Item>, minRect: int, o: Orders, n: nat, fills: seq<Fill>, rest: seq<Item>)
    requires Assignable(job, kinds, lanes, sheets, bins) && n <= |sheets|
  {
    && (fills, rest) == SheetsMade(job, kinds, lanes, sheets, bins, strips, minRect, o, n)
    && forall m: nat :: m < n && bins[m] != [] ==>
         NoneGoesIn(rest, GapsOn(job, kinds, lanes, sheets, bins, strips, minRect, o, m))
  }

  lemma LaidNext(job: Job, kinds: seq<nat>, lanes: seq<Lane>, sheets: seq<C.SheetClass>, bins: seq<seq<nat>>,
                 strips: seq<Item>, minRect: int, o: Orders, n: nat, fills: seq<Fill>, remaining: seq<Item>, k: nat,
                 some: seq<Lane>, fill: Fill, rest: seq<Item>)
    requires Assignable(job, kinds, lanes, sheets, bins) && n < |sheets| && bins[n] != []
    requires LaidSoFar(job, kinds, lanes, sheets, bins, strips, minRect, o, n, fills, remaining)
    requires sheets[n] in ClassesOf(job, kinds) && k == KindAt(job, kinds, sheets[n]) && some == LanesAt(lanes, bins[n])
    requires k < |job.specs| && (fill, rest) == SheetMade(job, k, some, remaining, minRect, o)
    requires NoneGoesIn(rest, StripAbove(RegionOf(job, k), some, remaining, job.p.kerf, minRect, o).0.remainders)
    requires forall it :: it in rest ==> it in remaining
    ensures LaidSoFar(job, kinds, lanes, sheets, bins, strips, minRect, o, n + 1, fills + [fill], rest)
  {
    hide NoneGoesIn, KindAt, LanesAt, SheetMade, StripAbove, RegionOf, ClassesOf;
    forall m: nat | m < n && bins[m] != []
      ensures NoneGoesIn(rest, GapsOn(job, kinds, lanes, sheets, bins, strips, minRect, o, m))
    {
      FewerGoNowhere(remaining, rest, GapsOn(job, kinds, lanes, sheets, bins, strips, minRect, o, m));
    }
  }

  lemma NothingLaid(job: Job, kinds: seq<nat>, lanes: seq<Lane>, sheets: seq<C.SheetClass>, bins: seq<seq<nat>>,
                    strips: seq<Item>, minRect: int, o: Orders)
    requires Assignable(job, kinds, lanes, sheets, bins)
    ensures LaidSoFar(job, kinds, lanes, sheets, bins, strips, minRect, o, 0, [], strips)
  {
  }

  lemma TheyAre(job: Job, kinds: seq<nat>, lanes: seq<Lane>, c: C.SheetClass, idxs: seq<nat>)
    requires c in ClassesOf(job, kinds) && P.Indices(idxs, |lanes|)
    ensures kinds[0..] == kinds && KindAt(job, kinds, c) == FirstKind(job, kinds, c, 0)
    ensures P.Indices(SortBy(Ascends, idxs), |lanes|) && LanesAt(lanes, idxs) == Select(lanes, SortBy(Ascends, idxs))
  {
    assert kinds[0..] == kinds;
    SortedIndices(idxs, |lanes|);
  }

  lemma LaidSkip(job: Job, kinds: seq<nat>, lanes: seq<Lane>, sheets: seq<C.SheetClass>, bins: seq<seq<nat>>,
                 strips: seq<Item>, minRect: int, o: Orders, n: nat, fills: seq<Fill>, remaining: seq<Item>)
    requires Assignable(job, kinds, lanes, sheets, bins) && n < |sheets| && bins[n] == []
    requires LaidSoFar(job, kinds, lanes, sheets, bins, strips, minRect, o, n, fills, remaining)
    ensures LaidSoFar(job, kinds, lanes, sheets, bins, strips, minRect, o, n + 1, fills, remaining)
  {
    hide GapsOn, NoneGoesIn;
  }

  lemma FewerGoNowhere(items: seq<Item>, fewer: seq<Item>, gaps: seq<Box>)
    requires NoneGoesIn(items, gaps) && forall it :: it in fewer ==> it in items
    ensures NoneGoesIn(fewer, gaps)
  {
  }

  /** Every sheet in turn: its lanes, then strips from what is left of the strip items. What
      is left over in the end fits no gap of any of these strips. */
  method MakeSheets(job: Job, kinds: seq<nat>, height: int, lanes: seq<Lane>, sheets: seq<C.SheetClass>,
                    bins: seq<seq<nat>>, strips: seq<Item>, minRect: int,
                    o: Orders) returns (fills: seq<Fill>, remaining: seq<Item>)
    requires KindsOk(kinds, height, job) && HonestOrders(o) && DistinctItems(strips) && AllItemsOk(strips)
    requires forall l :: l in lanes ==> LaneOk(l, height, job.p.kerf)
    requires forall c :: c in sheets ==> c in ClassesOf(job, kinds)
    requires P.Packs(bins, UpTo(|lanes|), LaneWidthsOf(lanes), C.CapsOf(sheets), job.p.kerf)
    ensures Assignable(job, kinds, lanes, sheets, bins)
    ensures LaidSoFar(job, kinds, lanes, sheets, bins, strips, minRect, o, |sheets|, fills, remaining)
    ensures Made(fills, kinds, sheets, job)
    ensures multiset(AllPieces(fills)) + multiset(ItemPieces(remaining)) ==
            multiset(ItemPieces(AllItems(lanes))) + multiset(ItemPieces(strips))
  {
    hide KindsOk, LaneOk, ItemOk, AllItems, ItemPieces, AllPieces, PlacedIn, FillSound, Made, LanesOk, ClassOf,
         RegionOf, Assigned, P.Packs, P.UnionOf, P.Load, DistinctItems, AllItemsOk, HonestOrders, Select, SheetMade,
         StripAbove, NoneGoesIn, LaidSoFar, ClassesOf, Assignable, KindAt, LanesAt;
    fills, remaining := [], strips;
    NothingMade(kinds, job);
    IsAssignable(job, kinds, height, lanes, sheets, bins);
    NothingLaid(job, kinds, lanes, sheets, bins, strips, minRect, o);
    AssignedAll(lanes);
    BinsAre(bins, lanes, sheets, job.p.kerf);
    NoBins();
    for j := 0 to |sheets|
      invariant Made(fills, kinds, sheets[..j], job) && DistinctItems(remaining) && AllItemsOk(remaining)
      invariant multiset(AllPieces(fills)) + multiset(ItemPieces(remaining)) ==
                Assigned(lanes, P.UnionOf(bins[..j])) + multiset(ItemPieces(strips))
      invariant LaidSoFar(job, kinds, lanes, sheets, bins, strips, minRect, o, j, fills, remaining)
    {
      var c, idxs := sheets[j], bins[j];
      assert c in sheets && sheets[..j+1] == sheets[..j] + [c];
      BinOf(bins, j, lanes, sheets, job.p.kerf);
      var k := KindOf(job, kinds, c);
      TheyAre(job, kinds, lanes, c, idxs);
      SheetKind(job, kinds, height, k);
      if idxs == [] {
        MadeSkip(fills, kinds, sheets[..j], c, job);
        LaidSkip(job, kinds, lanes, sheets, bins, strips, minRect, o, j, fills, remaining);
        assert P.UnionOf(bins[..j+1]) == P.UnionOf(bins[..j]);
        continue;
      }
      SheetLanes(lanes, idxs, job, k, height);
      var sorted := SortBy(Ascends, idxs);
      var some := Select(lanes, sorted);
      ghost var m := P.UnionOf(bins[..j]);
      AssignedMore(lanes, m, sorted);
      assert P.UnionOf(bins[..j+1]) == m + multiset(sorted);
      var fill, rest := MakeSheet(job, k, some, remaining, minRect, o);
      MadeNext(fills, kinds, sheets[..j], c, fill, job);
      Ledger(multiset(AllPieces(fills)), multiset(ItemPieces(remaining)), Assigned(lanes, m),
             multiset(ItemPieces(strips)), multiset(PlacedIn(fill)), multiset(ItemPieces(rest)),
             multiset(ItemPieces(AllItems(some))));
      LaidNext(job, kinds, lanes, sheets, bins, strips, minRect, o, j, fills, remaining, k, some, fill, rest);
      fills, remaining := fills + [fill], rest;
    }
    assert sheets[..|sheets|] == sheets && bins[..|bins|] == bins;
  }

  lemma Ledger<T>(placed: multiset<T>, left: multiset<T>, lanes: multiset<T>, strips: multiset<T>,
                  more: multiset<T>, left': multiset<T>, lane: multiset<T>)
    requires placed + left == lanes + strips && more + left' == lane + left
    ensures placed + more + left' == lanes + lane + strips
  {
    forall x ensures (placed + more + left')[x] == (lanes + lane + strips)[x] {
      assert (placed + left)[x] == (lanes + strips)[x] && (more + left')[x] == (lane + left)[x];
    }
  }

  lemma IsAssignable(job: Job, kinds: seq<nat>, height: int, lanes: seq<Lane>, sheets: seq<C.SheetClass>,
                     bins: seq<seq<nat>>)
    requires KindsOk(kinds, height, job) && (forall c :: c in sheets ==> c in ClassesOf(job, kinds))
    requires P.Packs(bins, UpTo(|lanes|), LaneWidthsOf(lanes), C.CapsOf(sheets), job.p.kerf)
    ensures Assignable(job, kinds, lanes, sheets, bins)
  {
    hide RegionOf, ClassOf;
    forall j | 0 <= j < |bins| ensures P.Indices(bins[j], |lanes|) { assert P.Indices(bins[j], |LaneWidthsOf(lanes)|); }
  }

  lemma NoBins()
    ensures forall bins: seq<seq<nat>> :: P.UnionOf(bins[..0]) == multiset{}
  {
  }

  // ---- one split into lanes and strips -------------------------------------------------------------

  /** Lanes from some items and strips from the others: sound sheets that hold all of
      them, of the planned types, and that bill less than the plan to beat. */
  ghost predicate PlanOk(fills: seq<Fill>, pieces: multiset<Piece>, kinds: seq<nat>, belowCost: int, job: Job) {
    && AllSound(fills, job) && (forall f :: f in fills ==> f.kind in kinds)
    && multiset(AllPieces(fills)) == pieces && CostOf(fills, job) < belowCost
  }

  /** What all splits of one plan have in common. */
  datatype Planner = Planner(job: Job, kinds: seq<nat>, height: int, maxSheets: nat, minRect: int, o: Orders)

  predicate IsPlanner(x: Planner) {
    forall k :: k in x.kinds ==> k < |x.job.specs|
  }

  /** Which sheets the lanes go on. */
  function WidthsQuestion(x: Planner, lanes: seq<Lane>, belowCost: int): C.Question {
    C.Question(UpTo(|lanes|), LaneWidthsOf(lanes), ClassesOf(x.job, x.kinds), x.job.p.kerf, belowCost, x.maxSheets)
  }

  function WidthsAnswer(x: Planner, lanes: seq<Lane>, belowCost: int, budget: int): (r: C.Answer)
    ensures C.IsAnswer(WidthsQuestion(x, lanes, belowCost), r)
  {
    C.PackedWidths(WidthsQuestion(x, lanes, belowCost), budget)
  }

  /** The sheets of a combination. */
  function SheetsFor(x: Planner, combo: C.Combo): seq<C.SheetClass>
    requires |combo| == |x.kinds|
  {
    C.SheetsOf(combo, ClassesOf(x.job, x.kinds))
  }

  /** The sheets the lanes are packed on, made, and the strip items left over. */
  function Laid(x: Planner, lanes: seq<Lane>, choice: (C.Combo, seq<seq<nat>>), strips: seq<Item>):
    (seq<Fill>, seq<Item>)
    requires IsPlanner(x) && |choice.0| == |x.kinds|
    requires P.AreBins(C.TaskFor(WidthsQuestion(x, lanes, 0), choice.0), choice.1)
  {
    var sheets := SheetsFor(x, choice.0);
    SheetsMade(x.job, x.kinds, lanes, sheets, choice.1, strips, x.minRect, x.o, |sheets|)
  }

  /** The plan from these lanes, and the nodes then left. */
  function PlanFrom(x: Planner, lanes: seq<Lane>, strips: seq<Item>, belowCost: int, budget: int):
    (Option<seq<Fill>>, int)
    requires IsPlanner(x)
  {
    var r := WidthsAnswer(x, lanes, belowCost, budget);
    if r.choice.None? then (None, r.left)
    else
      var (fills, over) := Laid(x, lanes, r.choice.value, strips);
      (if fills == [] || over != [] then None else Some(fills), r.left)
  }

  /** The plan of one split of the items into lanes and strips, and the nodes then left. */
  function SplitPlan(x: Planner, standing: seq<Item>, strips: seq<Item>, belowCost: int, budget: int):
    (Option<seq<Fill>>, int)
    requires IsPlanner(x)
  {
    var lanes := StackedAll(standing, x.height, x.job.p.kerf, x.o);
    if standing == [] || lanes.None? then (None, budget) else PlanFrom(x, lanes.value, strips, belowCost, budget)
  }

  /** No combination of sheets that bills less and is within the limit can carry the lanes. */
  ghost predicate NoneCarries(x: Planner, lanes: seq<Lane>, belowCost: int) {
    var q := WidthsQuestion(x, lanes, belowCost);
    forall c :: C.Eligible(c, q.classes, belowCost, x.maxSheets) ==>
        !C.Feasible(c, q.classes, q.order, q.widths, q.kerf)
  }

  /** The nodes are spent that packing these lanes may take, which is not enough for all the
      ways to place them. */
  ghost predicate NodesSpent(x: Planner, lanes: seq<Lane>, belowCost: int, budget: int, left: int) {
    var q := WidthsQuestion(x, lanes, belowCost);
    && (left <= 0 || budget - left > P.PACK_NODE_BUDGET)
    && !C.AffordsAll(q, C.CombosFor(q), budget)
  }

  /** Strip items are left over, and none of them fits a gap of any sheet's strip. */
  ghost predicate NoPlaceFor(x: Planner, lanes: seq<Lane>, choice: (C.Combo, seq<seq<nat>>), strips: seq<Item>)
    requires IsPlanner(x) && |choice.0| == |x.kinds|
    requires P.AreBins(C.TaskFor(WidthsQuestion(x, lanes, 0), choice.0), choice.1)
  {
    var sheets, over := SheetsFor(x, choice.0), Laid(x, lanes, choice, strips).1;
    && over != []
    && forall n: nat :: n < |sheets| && choice.1[n] != [] ==>
         NoneGoesIn(over, GapsOn(x.job, x.kinds, lanes, sheets, choice.1, strips, x.minRect, x.o, n))
  }

  /** Why there is no plan with these lanes. */
  ghost predicate GivenUp(x: Planner, lanes: seq<Lane>, strips: seq<Item>, belowCost: int, budget: int)
    requires IsPlanner(x)
  {
    var r := WidthsAnswer(x, lanes, belowCost, budget);
    if r.choice.Some? then NoPlaceFor(x, lanes, r.choice.value, strips)
    else if r.cutOff then NodesSpent(x, lanes, belowCost, budget, r.left)
    else NoneCarries(x, lanes, belowCost)
  }

  /** The lanes on the cheapest sheets they pack on, and strips from the other items. */
  method PlanLanes(x: Planner, lanes: seq<Lane>, ghost standing: seq<Item>, strips: seq<Item>, belowCost: int,
                   budget: int) returns (plan: Option<seq<Fill>>, left: int)
    requires KindsOk(x.kinds, x.height, x.job) && HonestOrders(x.o) && DistinctItems(strips) && AllItemsOk(strips)
    requires forall l :: l in lanes ==> LaneOk(l, x.height, x.job.p.kerf)
    requires multiset(AllItems(lanes)) == multiset(standing) && standing != []
    ensures IsPlanner(x) && (plan, left) == PlanFrom(x, lanes, strips, belowCost, budget) && left <= budget
    ensures plan.Some? ==>
              PlanOk(plan.value, multiset(ItemPieces(standing)) + multiset(ItemPieces(strips)), x.kinds, belowCost,
                     x.job)
    ensures plan.None? ==> GivenUp(x, lanes, strips, belowCost, budget)
  {
    hide LaneOk, ItemOk, AllItems, ItemPieces, AllPieces, FillSound, ClassOf, RegionOf, C.SheetsOf, C.CostOf,
         P.Packs, DistinctItems, AllItemsOk, HonestOrders, AllSound, CostOf, C.Feasible, ClassesOf, C.PackedWidths,
         C.AffordsAll, C.CombosFor, C.AllNodes, SheetsMade, GapsOn, NoneGoesIn;
    plan := None;
    var Planner(job, kinds, height, maxSheets, minRect, o) := x;
    KindsAreThere(x);
    NoItems();
    var q := WidthsQuestion(x, lanes, belowCost);
    ClassesPositive(job, kinds, height);
    LanesPositive(lanes, height, job.p.kerf);
    PiecesPermutedItems(AllItems(lanes), standing);
    SomeLane(lanes, standing);
    var assignment, rest, early := C.PackWidths(q, budget);
    left := rest;
    if assignment.None? { return; }
    var combo, bins := assignment.value.0, assignment.value.1;
    assert C.Proposal(combo, bins, q.classes, q.order, q.widths, q.kerf, belowCost, maxSheets);
    var sheets := C.SheetsOf(combo, q.classes);
    var fills, remaining := MakeSheets(job, kinds, height, lanes, sheets, bins, strips, minRect, o);
    if fills == [] { NoSheetsNoItems(standing, remaining, multiset(ItemPieces(strips))); }
    if fills == [] || remaining != [] { return; }
    SheetsCost(combo, q.classes);
    MadeBills(fills, kinds, sheets, job);
    plan := Some(fills);
  }

  lemma KindsAreThere(x: Planner)
    requires KindsOk(x.kinds, x.height, x.job)
    ensures IsPlanner(x)
  {
  }

  /** One split of the items into lanes and strips. A plan is given up only when an item is
      too tall for a lane, when no combination of sheets carries the lanes or the nodes to
      look for one are spent, or when strip items fit no gap. */
  method PlanSplit(x: Planner, standing: seq<Item>, strips: seq<Item>, belowCost: int, budget: int)
    returns (plan: Option<seq<Fill>>, left: int)
    requires KindsOk(x.kinds, x.height, x.job) && HonestOrders(x.o) && DistinctItems(strips)
    requires AllItemsOk(standing) && AllItemsOk(strips)
    ensures IsPlanner(x) && (plan, left) == SplitPlan(x, standing, strips, belowCost, budget) && left <= budget
    ensures plan.Some? ==>
              PlanOk(plan.value, multiset(ItemPieces(standing)) + multiset(ItemPieces(strips)), x.kinds, belowCost,
                     x.job)
    ensures plan.None? && standing != [] && (forall it :: it in standing ==> it.height <= x.height) ==>
              var lanes := StackedAll(standing, x.height, x.job.p.kerf, x.o);
              && lanes.Some? && (forall l :: l in lanes.value ==> LaneOk(l, x.height, x.job.p.kerf))
              && multiset(AllItems(lanes.value)) == multiset(standing)
              && GivenUp(x, lanes.value, strips, belowCost, budget)
  {
    hide LaneOk, ItemOk, AllItems, ItemPieces, KindsOk, DistinctItems, AllItemsOk, HonestOrders, PlanOk, GivenUp,
         PlanFrom, StackedAll;
    KindsAreThere(x);
    plan, left := None, budget;
    if standing == [] { return; }
    var stacked := StackAll(standing, x.height, x.job.p.kerf, x.o);
    if stacked.None? { return; }
    plan, left := PlanLanes(x, stacked.value, standing, strips, belowCost, budget);
  }

  lemma SomeLane(lanes: seq<Lane>, standing: seq<Item>)
    requires multiset(AllItems(lanes)) == multiset(standing) && standing != []
    ensures LaneWidthsOf(lanes) != []
  {
    NoLaneItems();
    assert standing[0] in multiset(standing);
  }

  lemma NoSheetsNoItems(standing: seq<Item>, over: seq<Item>, strips: multiset<Piece>)
    requires standing != []
    requires multiset(AllPieces([])) + multiset(ItemPieces(over)) == multiset(ItemPieces(standing)) + strips
    ensures over != []
  {
    NoItems();
    NoFillsNoPieces();
    assert multiset(AllPieces([])) == multiset{};
    assert ItemPieces(standing)[0] in multiset(ItemPieces(standing));
    assert ItemPieces(standing)[0] in multiset(ItemPieces(standing)) + strips;
  }

  lemma NoItems()
    ensures multiset(ItemPieces([])) == multiset{}
  {
  }

  lemma PiecesPermutedItems(a: seq<Item>, b: seq<Item>)
    requires multiset(a) == multiset(b)
    ensures multiset(ItemPieces(a)) == multiset(ItemPieces(b))
  {
    MapByPermuted(PieceIn, a, b);
  }

  lemma MadeBills(fills: seq<Fill>, kinds: seq<nat>, classes: seq<C.SheetClass>, job: Job)
    requires Made(fills, kinds, classes, job)
    ensures AllSound(fills, job) && (forall f :: f in fills ==> f.kind in kinds)
    ensures CostOf(fills, job) <= SumBy(LaneAssignment.CostIn, classes)
  {
  }

  lemma ClassesPositive(job: Job, kinds: seq<nat>, height: int)
    requires KindsOk(kinds, height, job)
    ensures forall c :: c in ClassesOf(job, kinds) ==> c.width > 0 && c.cost >= 0
  {
    var classes := ClassesOf(job, kinds);
    forall c | c in classes ensures c.width > 0 && c.cost >= 0 {
      var i :| 0 <= i < |classes| && classes[i] == c;
      assert kinds[i] in kinds;
    }
  }

  lemma LanesPositive(lanes: seq<Lane>, limit: int, kerf: nat)
    requires forall l :: l in lanes ==> LaneOk(l, limit, kerf)
    ensures P.AllPositive(LaneWidthsOf(lanes))
  {
    forall k | 0 <= k < |lanes| ensures lanes[k].width > 0 { assert lanes[k] in lanes; }
  }

  // ---- the planner ------------------------------------------------------------------------------------

  /** Ways a piece may lie, the narrow side down first. */
  function WaysOf(p: Piece): (r: seq<Item>)
    ensures 1 <= |r| <= 2 && forall it :: it in r ==> it.piece == p && (ValidPiece(p) ==> ItemOk(it))
    ensures p.canRotate ==> r[0].width <= r[0].height
    ensures |r| == 2 ==> r[0].rotated != r[1].rotated
    ensures |r| == 2 <==> p.canRotate && p.width != p.height
  {
    var drawn, turned := Item(p, p.width, p.height, false), Item(p, p.height, p.width, true);
    if !p.canRotate || p.width == p.height then [drawn]
    else if p.width <= p.height then [drawn, turned]
    else [turned, drawn]
  }

  /** How wide a piece is on its narrow side, if it may be turned; else as drawn. */
  function NarrowOf(p: Piece): int {
    if p.canRotate then Min(p.width, p.height) else p.width
  }

  function TallOf(p: Piece): int {
    if p.canRotate then Max(p.width, p.height) else p.height
  }

  /** The piece stood up: on its narrow side whenever that fits the widest sheet, else the
      other way round if it may be turned and that fits. */
  function Stand(p: Piece, widest: int, height: int): (r: Option<Item>)
    ensures r.Some? ==> r.value in WaysOf(p)
    ensures if NarrowOf(p) <= widest && TallOf(p) <= height
            then r.Some? && r.value.width == NarrowOf(p) && r.value.height == TallOf(p)
            else if p.canRotate && TallOf(p) <= widest && NarrowOf(p) <= height
            then r.Some? && r.value.width == TallOf(p) && r.value.height == NarrowOf(p)
            else r.None?
  {
    var ways := WaysOf(p);
    if ways[0].width <= widest && ways[0].height <= height then Some(ways[0])
    else if |ways| == 2 && ways[1].width <= widest && ways[1].height <= height then Some(ways[1])
    else None
  }

  /** The same piece the other way round, when there is another way. */
  predicate TurnedOver(it: Item, r: Item) {
    if it.piece.canRotate && it.width != it.height
        then r.piece == it.piece && r.width == it.height && r.height == it.width && r.rotated != it.rotated
    else r == it
  }

  function Lie(it: Item): (r: Item)
    requires it in WaysOf(it.piece)
    ensures TurnedOver(it, r) && r in WaysOf(it.piece)
  {
    var ways := WaysOf(it.piece);
    if |ways| == 1 then ways[0] else if ways[0].rotated == it.rotated then ways[1] else ways[0]
  }

  predicate AllWays(items: seq<Item>) {
    forall it :: it in items ==> it in WaysOf(it.piece)
  }

  lemma NothingStands()
    ensures ItemPieces([]) == [] && AllWays([]) && AllItemsOk([])
    ensures forall widest, height :: StoodAll([], widest, height) == Some([])
  {
  }

  lemma OneMoreStands(items: seq<Item>, it: Item, pieces: seq<Piece>, i: nat)
    requires i < |pieces| && AllValid(pieces) && it in WaysOf(pieces[i])
    requires ItemPieces(items) == pieces[..i] && AllWays(items) && AllItemsOk(items)
    ensures ItemPieces(items + [it]) == pieces[..i+1] && AllWays(items + [it]) && AllItemsOk(items + [it])
  {
    hide ItemOk, WaysOf, ItemPieces;
    assert pieces[i] in pieces;
    WayIsOk(it, pieces[i]);
    ItemPiecesConcat(items, [it]);
    assert pieces[..i+1] == pieces[..i] + [pieces[i]];
  }

  lemma WayIsOk(it: Item, p: Piece)
    requires ValidPiece(p) && it in WaysOf(p)
    ensures it in WaysOf(it.piece) && ItemOk(it) && ItemPieces([it]) == [p]
  {
  }

  function StoodAll(pieces: seq<Piece>, widest: int, height: int): Option<seq<Item>> {
    if pieces == [] then Some([])
    else
      var init, it := StoodAll(pieces[..|pieces|-1], widest, height), Stand(pieces[|pieces|-1], widest, height);
      if init.None? || it.None? then None else Some(init.value + [it.value])
  }

  lemma {:induction false} OneCannotStand(pieces: seq<Piece>, widest: int, height: int, i: nat)
    requires i < |pieces| && StoodAll(pieces[..i+1], widest, height).None?
    ensures StoodAll(pieces, widest, height).None?
  {
    hide Stand;
    if i == |pieces| - 1 {
      assert pieces[..i+1] == pieces;
    } else {
      var init := pieces[..|pieces|-1];
      assert init[..i+1] == pieces[..i+1];
      OneCannotStand(init, widest, height, i);
    }
  }

  lemma StoodNext(pieces: seq<Piece>, widest: int, height: int, i: nat)
    requires i < |pieces|
    ensures var init, it := StoodAll(pieces[..i], widest, height), Stand(pieces[i], widest, height);
            StoodAll(pieces[..i+1], widest, height) ==
            if init.None? || it.None? then None else Some(init.value + [it.value])
  {
    hide Stand;
    assert pieces[..i+1][..i] == pieces[..i];
  }

  /** Every piece stood up, or nothing when one cannot stand. */
  method StandAll(pieces: seq<Piece>, widest: int, height: int) returns (r: Option<seq<Item>>)
    requires AllValid(pieces)
    ensures r == StoodAll(pieces, widest, height)
    ensures r.Some? ==> ItemPieces(r.value) == pieces && AllWays(r.value) && AllItemsOk(r.value)
    ensures r.None? ==> exists p :: p in pieces && Stand(p, widest, height).None?
  {
    hide ItemOk, WaysOf, Stand, ItemPieces, AllWays, AllItemsOk, StoodAll;
    var items: seq<Item> := [];
    NothingStands();
    for i := 0 to |pieces|
      invariant ItemPieces(items) == pieces[..i] && AllWays(items) && AllItemsOk(items)
      invariant StoodAll(pieces[..i], widest, height) == Some(items)
    {
      var it := Stand(pieces[i], widest, height);
      StoodNext(pieces, widest, height, i);
      if it.None? {
        OneCannotStand(pieces, widest, height, i);
        return None;
      }
      OneMoreStands(items, it.value, pieces, i);
      items := items + [it.value];
    }
    assert pieces[..|pieces|] == pieces;
    return Some(items);
  }

  /** The items not sent to the strips, as they stand. */
  function Standing(items: seq<Item>, lying: set<nat>): (r: seq<Item>)
    ensures forall it :: it in r ==> it in items
  {
    if items == [] then []
    else Standing(items[..|items|-1], lying) + if |items| - 1 in lying then [] else [items[|items|-1]]
  }

  /** The items sent to the strips, lying down. */
  function Lying(items: seq<Item>, lying: set<nat>): (r: seq<Item>)
    requires AllWays(items)
    ensures AllWays(r)
  {
    if items == [] then []
    else
      assert items[|items|-1] in items && forall it :: it in items[..|items|-1] ==> it in items;
      Lying(items[..|items|-1], lying) + if |items| - 1 in lying then [Lie(items[|items|-1])] else []
  }

  /** The item is one of those not in `lying`. */
  predicate StaysUp(items: seq<Item>, lying: set<nat>, it: Item) {
    exists i :: 0 <= i < |items| && i !in lying && items[i] == it
  }

  /** The item is one of the others, turned over. */
  predicate LiesDown(items: seq<Item>, lying: set<nat>, r: Item) {
    exists i :: 0 <= i < |items| && i in lying && TurnedOver(items[i], r)
  }

  lemma StaysUpLast(items: seq<Item>, lying: set<nat>, it: Item)
    requires items != []
    ensures var n := |items| - 1;
            StaysUp(items, lying, it) <==> StaysUp(items[..n], lying, it) || (n !in lying && it == items[n])
  {
    var n := |items| - 1;
    if StaysUp(items[..n], lying, it) {
      var i :| 0 <= i < n && i !in lying && items[..n][i] == it;
      assert items[i] == it;
    }
    if StaysUp(items, lying, it) {
      var i :| 0 <= i < |items| && i !in lying && items[i] == it;
      if i < n { assert items[..n][i] == it; }
    }
  }

  lemma LiesDownLast(items: seq<Item>, lying: set<nat>, r: Item)
    requires items != []
    ensures var n := |items| - 1;
            LiesDown(items, lying, r) <==> LiesDown(items[..n], lying, r) || (n in lying && TurnedOver(items[n], r))
  {
    hide TurnedOver;
    var n := |items| - 1;
    if LiesDown(items[..n], lying, r) {
      var i :| 0 <= i < n && i in lying && TurnedOver(items[..n][i], r);
      assert items[i] == items[..n][i];
    }
    if LiesDown(items, lying, r) {
      var i :| 0 <= i < |items| && i in lying && TurnedOver(items[i], r);
      if i < n { assert items[..n][i] == items[i]; }
    }
  }

  lemma OnlyWayOver(it: Item, r: Item)
    requires it in WaysOf(it.piece) && TurnedOver(it, r)
    ensures r == Lie(it)
  {
  }

  /** Exactly the items not in `lying` stand, and exactly the others lie, turned over. */
  lemma {:induction false} SplitIs(items: seq<Item>, lying: set<nat>)
    requires AllWays(items)
    ensures forall it :: it in Standing(items, lying) <==> StaysUp(items, lying, it)
    ensures forall r :: r in Lying(items, lying) <==> LiesDown(items, lying, r)
  {
    hide Lie, WaysOf, TurnedOver, StaysUp, LiesDown, Standing, Lying, AllWays;
    if items == [] {
      NobodySplit(lying);
    } else {
      var n := |items| - 1;
      SplitLast(items, lying);
      SplitIs(items[..n], lying);
      forall it ensures it in Standing(items, lying) <==> StaysUp(items, lying, it) { StaysUpLast(items, lying, it); }
      forall r ensures r in Lying(items, lying) <==> LiesDown(items, lying, r) {
        LiesDownLast(items, lying, r);
        if TurnedOver(items[n], r) { OnlyWayOver(items[n], r); }
      }
    }
  }

  lemma NobodySplit(lying: set<nat>)
    ensures Standing([], lying) == [] && AllWays([]) && Lying([], lying) == []
    ensures forall it :: !StaysUp([], lying, it) && !LiesDown([], lying, it)
  {
  }

  /** What stood on its narrow side lies on its wide one. */
  lemma LyingIsWide(items: seq<Item>, lying: set<nat>)
    requires AllWays(items) && forall it :: it in items && it.piece.canRotate ==> it.width <= it.height
    ensures forall r :: r in Lying(items, lying) && r.piece.canRotate ==> r.width >= r.height
  {
    hide Standing, Lying, AllWays;
    SplitIs(items, lying);
    assert forall r :: r in Lying(items, lying) ==> LiesDown(items, lying, r);
    forall r | r in Lying(items, lying) && r.piece.canRotate ensures r.width >= r.height {
      var i :| 0 <= i < |items| && i in lying && TurnedOver(items[i], r);
      assert items[i] in items;
    }
  }

  lemma OneMorePiece(items: seq<Item>, it: Item)
    ensures multiset(ItemPieces(items + [it])) == multiset(ItemPieces(items)) + multiset{it.piece}
  {
    ItemPiecesConcat(items, [it]);
    assert ItemPieces([it]) == [it.piece];
  }

  lemma SplitLast(items: seq<Item>, lying: set<nat>)
    requires AllWays(items) && items != []
    ensures var init, last := items[..|items|-1], items[|items|-1];
            && AllWays(init) && last in WaysOf(last.piece) && TurnedOver(last, Lie(last))
            && Standing(items, lying) ==
               (if |items| - 1 in lying then Standing(init, lying) else Standing(init, lying) + [last])
            && Lying(items, lying) ==
               (if |items| - 1 in lying then Lying(init, lying) + [Lie(last)] else Lying(init, lying))
  {
    hide Lie, WaysOf;
    assert items[|items|-1] in items && forall it :: it in items[..|items|-1] ==> it in items;
  }

  /** Standing and lying, every piece is there once. */
  lemma {:induction false} SplitPieces(items: seq<Item>, lying: set<nat>)
    requires AllWays(items)
    ensures multiset(ItemPieces(Standing(items, lying))) + multiset(ItemPieces(Lying(items, lying))) ==
            multiset(ItemPieces(items))
  {
    hide Lie, WaysOf, ItemPieces, Standing, Lying, AllWays, TurnedOver;
    if items == [] {
      NothingSplit(lying);
    } else {
      var init, last := items[..|items|-1], items[|items|-1];
      SplitLast(items, lying);
      SplitPieces(init, lying);
      assert items == init + [last];
      OneMorePiece(init, last);
      OneMorePiece(Standing(init, lying), last);
      OneMorePiece(Lying(init, lying), Lie(last));
    }
  }

  lemma NothingSplit(lying: set<nat>)
    ensures AllWays([])
    ensures multiset(ItemPieces(Standing([], lying))) + multiset(ItemPieces(Lying([], lying))) ==
            multiset(ItemPieces([]))
  {
  }

  lemma {:induction false} LyingOk(items: seq<Item>, lying: set<nat>)
    requires AllWays(items) && AllItemsOk(items)
    ensures AllItemsOk(Standing(items, lying)) && AllItemsOk(Lying(items, lying))
  {
    hide ItemOk;
    if items != [] {
      SplitLast(items, lying);
      var init, last := items[..|items|-1], items[|items|-1];
      assert last in items && forall it :: it in init ==> it in items;
      LyingOk(init, lying);
      LieOk(last);
    }
  }

  lemma LieOk(it: Item)
    requires it in WaysOf(it.piece) && ItemOk(it)
    ensures ItemOk(Lie(it))
  {
    var r := Lie(it);
    assert r in WaysOf(r.piece);
  }

  lemma LyingDistinct(items: seq<Item>, lying: set<nat>, pieces: seq<Piece>)
    requires AllWays(items) && Distinct(pieces) && multiset(ItemPieces(items)) == multiset(pieces)
    ensures DistinctItems(Lying(items, lying))
  {
    hide WaysOf, AllWays, Standing, Lying, Distinct;
    SplitPieces(items, lying);
    var some := Lying(items, lying);
    SubpoolDistinct(ItemPieces(some), pieces);
    DistinctBack(some);
  }

  lemma DistinctBack(items: seq<Item>)
    requires Distinct(ItemPieces(items))
    ensures DistinctItems(items)
  {
    forall i, j | 0 <= i < j < |items| ensures items[i].piece.id != items[j].piece.id {
      assert ItemPieces(items)[i].id != ItemPieces(items)[j].id;
    }
  }

  /** A sheet the saw can make passes the inspection of a hand-edited sheet. */
  lemma SawableIsInOrder(f: Fill, job: Job)
    requires FillSound(f, job)
    ensures InOrder(f.sheet.placed, [], RegionOf(job, f.kind), job.p.kerf)
  {
    hide Frees, Offcuts;
    var S := BoxesOf(f.sheet.placed);
    var t :| Frees(t, RegionOf(job, f.kind), S, job.p.kerf);
    Strips.LegalSolid(f.sheet.placed);
    FreedPiecesAreApart(t, RegionOf(job, f.kind), S, job.p.kerf);
    forall q | q in f.sheet.placed ensures Inside(BoxOf(q), RegionOf(job, f.kind)) {
      var i :| 0 <= i < |f.sheet.placed| && f.sheet.placed[i] == q;
      assert S[i] in S;
    }
  }

  /** The inspection before a plan is adopted. It never rejects one. */
  method CanBeCut(fills: seq<Fill>, job: Job) returns (ok: bool)
    requires AllSound(fills, job)
    ensures ok
  {
    hide InOrder, FillSound;
    for i := 0 to |fills| {
      var f := fills[i];
      assert f in fills;
      SoundKind(f, job);
      SawableIsInOrder(f, job);
      var spec := job.specs[f.kind];
      var violations := IterViolations(spec.width, spec.height, f.sheet.placed, job.p, []);
      if violations != [] { return false; }
    }
    return true;
  }

  lemma LanesAreHonest(fills: seq<Fill>, pieces: seq<Piece>, kinds: seq<nat>, height: int, belowCost: int, job: Job)
    requires KindsOk(kinds, height, job) && PlanOk(fills, multiset(pieces), kinds, belowCost, job)
    ensures WithinStock(fills, Improving.Zeros(job), job)
  {
    hide CostOf, AllPieces;
    forall k: nat | k < |job.specs| && job.specs[k].count.Some? ensures Times(fills, k) == 0 {
      NeverUsed(fills, k);
    }
  }

  function Widest(job: Job, kinds: seq<nat>): (w: int)
    ensures w >= 0 && forall i :: 0 <= i < |kinds| ==> ClassOf(job, kinds[i]).width <= w
    ensures w == 0 || exists i :: 0 <= i < |kinds| && ClassOf(job, kinds[i]).width == w
  {
    if kinds == [] then 0 else Max(Widest(job, kinds[..|kinds|-1]), ClassOf(job, kinds[|kinds|-1]).width)
  }

  /** The best plan so far, what the next must bill less than, and the nodes left. */
  datatype Progress = Progress(best: Option<seq<Fill>>, below: int, left: int)

  /** The plan the next split gives. */
  function NextPlan(x: Planner, items: seq<Item>, lying: set<nat>, p: Progress): (Option<seq<Fill>>, int)
    requires IsPlanner(x) && AllWays(items)
  {
    SplitPlan(x, Standing(items, lying), Lying(items, lying), p.below, p.left)
  }

  /** Split after split until the nodes are spent; a plan that bills less than the best so
      far takes its place. */
  function Progressed(x: Planner, items: seq<Item>, candidates: seq<set<nat>>, p: Progress): Progress
    requires IsPlanner(x) && AllWays(items)
  {
    if candidates == [] || p.left <= 0 then p
    else
      var (plan, left) := NextPlan(x, items, candidates[0], p);
      Progressed(x, items, candidates[1..],
                 if plan.Some? && CostOf(plan.value, x.job) < p.below
                 then Progress(plan, CostOf(plan.value, x.job), left) else p.(left := left))
  }

  /** What `lane_plan` comes to. */
  function LanesPlanned(pieces: seq<Piece>, job: Job, belowCost: int, maxSheets: nat, minRect: int,
                        candidates: seq<set<nat>>, budget: int, o: Orders): Option<seq<Fill>>
  {
    var found := FoundClasses(job);
    if pieces == [] || job.specs == [] || found.None? then None
    else
      var (kinds, height) := found.value;
      var stood := StoodAll(pieces, Widest(job, kinds), height);
      if stood.None? then None
      else
        StoodInWays(pieces, Widest(job, kinds), height);
        Progressed(Planner(job, kinds, height, maxSheets, minRect, o), stood.value, candidates,
                   Progress(None, belowCost, budget)).best
  }

  lemma {:induction false} StoodInWays(pieces: seq<Piece>, widest: int, height: int)
    ensures var r := StoodAll(pieces, widest, height); r.Some? ==> AllWays(r.value)
  {
    hide WaysOf;
    if pieces != [] {
      StoodInWays(pieces[..|pieces|-1], widest, height);
      InItsWays(pieces[|pieces|-1], widest, height);
    }
  }

  lemma InItsWays(p: Piece, widest: int, height: int)
    ensures var it := Stand(p, widest, height); it.Some? ==> it.value in WaysOf(it.value.piece)
  {
  }

  /** The plans of the splits, each sought below the best before it. */
  function Tries(x: Planner, items: seq<Item>, candidates: seq<set<nat>>, p: Progress): seq<Option<seq<Fill>>>
    requires IsPlanner(x) && AllWays(items)
  {
    if candidates == [] || p.left <= 0 then []
    else
      var (plan, left) := NextPlan(x, items, candidates[0], p);
      [plan] + Tries(x, items, candidates[1..],
                     if plan.Some? && CostOf(plan.value, x.job) < p.below
                     then Progress(plan, CostOf(plan.value, x.job), left) else p.(left := left))
  }

  /** The final plan is one of them, and none of them bills less. */
  lemma {:induction false} CheapestOfTries(x: Planner, items: seq<Item>, candidates: seq<set<nat>>, p: Progress)
    requires IsPlanner(x) && AllWays(items)
    requires p.best.Some? ==> p.below == CostOf(p.best.value, x.job)
    ensures var r := Progressed(x, items, candidates, p);
            && (r == p.(left := r.left)
                || (r.best.Some? && r.best in Tries(x, items, candidates, p) && r.below < p.below))
            && (r.best.Some? ==> r.below == CostOf(r.best.value, x.job))
            && (forall t :: t in Tries(x, items, candidates, p) && t.Some? ==> CostOf(t.value, x.job) >= r.below)
  {
    hide CostOf, NextPlan;
    if candidates != [] && p.left > 0 {
      var (plan, left) := NextPlan(x, items, candidates[0], p);
      CheapestOfTries(x, items, candidates[1..],
                      if plan.Some? && CostOf(plan.value, x.job) < p.below
                      then Progress(plan, CostOf(plan.value, x.job), left) else p.(left := left));
    }
  }

  lemma ProgressNext(x: Planner, items: seq<Item>, candidates: seq<set<nat>>, i: nat, p: Progress)
    requires IsPlanner(x) && AllWays(items) && i < |candidates|
    ensures Progressed(x, items, candidates[i..], p) ==
            if p.left <= 0 then p
            else
              var (plan, left) := NextPlan(x, items, candidates[i], p);
              Progressed(x, items, candidates[i+1..],
                         if plan.Some? && CostOf(plan.value, x.job) < p.below
                         then Progress(plan, CostOf(plan.value, x.job), left) else p.(left := left))
  {
    hide CostOf, NextPlan;
    assert candidates[i..][1..] == candidates[i+1..];
  }

  /** A complete plan of lanes and strips that bills strictly less than `belowCost`, or
      none: what the repairs of the search take a lane plan to be. Of the plans the splits
      give, one after the other until the budget is spent, it is the cheapest. */
  method LanePlan(pieces: seq<Piece>, job: Job, belowCost: int, maxSheets: nat, minRect: int, candidates: seq<set<nat>>,
                  budget: int, byId: seq<Piece> -> seq<Piece>, o: Orders) returns (best: Option<seq<Fill>>)
    requires AllValid(pieces) && Distinct(pieces) && Bounds.NoneNegative(job.specs) && HonestOrders(o) && IsOrder(byId)
    ensures best == LanesPlanned(byId(pieces), job, belowCost, maxSheets, minRect, candidates, budget, o)
    ensures best.Some? ==> PlanFor(best.value, pieces, job) && CostOf(best.value, job) < belowCost
    ensures HonestLanes(best, pieces, job)
  {
    hide AllValid, Distinct, HonestOrders, KindsOk, AllWays, AllItemsOk, CostOf, AllPieces, AllSound, ItemPieces,
         DistinctItems, Bounds.NoneNegative, WithinStock, Standing, Lying, ClassOf, RegionOf, Stand, SplitPlan,
         StoodAll, FoundClasses, Widest, Progressed, IsOrder;
    best := None;
    var ordered := byId(pieces);
    OrderedValid(byId, pieces);
    NothingElse(ordered, pieces);
    if pieces == [] || job.specs == [] { return; }
    var resolved := FindClasses(job);
    if resolved.None? { return; }
    var kinds, height := resolved.value.0, resolved.value.1;
    var x := Planner(job, kinds, height, maxSheets, minRect, o);
    KindsAreThere(x);
    var widest := WidestOf(job, kinds);
    var stood := StandAll(ordered, widest, height);
    if stood.None? { return; }
    var items, left, bestCost := stood.value, budget, belowCost;
    assert candidates[0..] == candidates;
    for i := 0 to |candidates|
      invariant bestCost <= belowCost
      invariant best.Some? ==> PlanOk(best.value, multiset(pieces), kinds, belowCost, job)
      invariant Progressed(x, items, candidates[i..], Progress(best, bestCost, left))
             == Progressed(x, items, candidates, Progress(None, belowCost, budget))
    {
      ProgressNext(x, items, candidates, i, Progress(best, bestCost, left));
      if left <= 0 { break; }
      LyingOk(items, candidates[i]);
      LyingDistinct(items, candidates[i], pieces);
      SplitPieces(items, candidates[i]);
      var plan, rest := PlanSplit(x, Standing(items, candidates[i]), Lying(items, candidates[i]), bestCost, left);
      left := rest;
      if plan.Some? {
        var cost := CostOf(plan.value, job);
        var cuttable := CanBeCut(plan.value, job);
        if cost < bestCost && cuttable { best, bestCost := plan, cost; }
      }
    }
    NoMoreSplits(x, items, candidates, Progress(best, bestCost, left));
    if best.Some? { LanesAreHonest(best.value, pieces, kinds, height, belowCost, job); }
  }

  lemma NoMoreSplits(x: Planner, items: seq<Item>, candidates: seq<set<nat>>, p: Progress)
    requires IsPlanner(x) && AllWays(items)
    ensures Progressed(x, items, candidates[|candidates|..], p) == p
  {
  }

  method WidestOf(job: Job, kinds: seq<nat>) returns (widest: int)
    ensures widest == Widest(job, kinds)
  {
    hide ClassOf;
    widest := 0;
    for i := 0 to |kinds|
      invariant widest == Widest(job, kinds[..i])
    {
      assert kinds[..i+1][..i] == kinds[..i];
      widest := Max(widest, ClassOf(job, kinds[i]).width);
    }
    assert kinds[..|kinds|] == kinds;
  }
}
