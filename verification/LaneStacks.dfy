/**
How lanes.py stacks pieces into lanes and fills the strip above them.
*/
module LaneStacks {
  import opened Geometry
  import opened Guillotine
  import opened Plans
  import opened Sequences
  import opened Sheets
  import opened Packer
  import opened Constructors
  import opened Strips
  import opened SearchPlans
  import opened Incumbents
  import opened Improving
  import opened ExactLayout
  import opened LaneSheets
  import opened LaneEmission

  function PieceIn(it: Item): Piece {
    it.piece
  }

  function ItemPieces(items: seq<Item>): seq<Piece> {
    MapBy(PieceIn, items)
  }

  function AllItems(lanes: seq<Lane>): seq<Item> {
    if lanes == [] then [] else AllItems(lanes[..|lanes|-1]) + lanes[|lanes|-1].items
  }

  ghost predicate IsItemOrder(order: seq<Item> -> seq<Item>) {
    forall items :: multiset(order(items)) == multiset(items)
  }

  lemma StackOneMore(items: seq<Item>, it: Item, kerf: nat)
    ensures StackHeight(items + [it], kerf) == StackHeight(items, kerf) + it.height + if items != [] then kerf else 0
  {
    assert (items + [it])[..|items|] == items;
  }

  lemma {:induction false} AllItemsUpdate(lanes: seq<Lane>, j: nat, l: Lane, it: Item)
    requires j < |lanes| && l.items == lanes[j].items + [it]
    ensures multiset(AllItems(lanes[j := l])) == multiset(AllItems(lanes)) + multiset{it}
  {
    var n := |lanes| - 1;
    if j == n {
      assert lanes[j := l][..n] == lanes[..n];
    } else {
      AllItemsUpdate(lanes[..n], j, l, it);
      assert lanes[j := l][..n] == lanes[..n][j := l];
    }
  }

  lemma AllItemsLast(lanes: seq<Lane>, l: Lane)
    ensures AllItems(lanes + [l]) == AllItems(lanes) + l.items
  {
    assert (lanes + [l])[..|lanes|] == lanes;
  }

  /** The first lane from `i` on that the item still fits on. */
  function LaneWithRoom(lanes: seq<Lane>, it: Item, limit: int, kerf: nat, i: nat): (j: nat)
    requires i <= |lanes|
    ensures i <= j <= |lanes|
    decreases |lanes| - i
  {
    if i == |lanes| || lanes[i].height + kerf + it.height <= limit then i
    else LaneWithRoom(lanes, it, limit, kerf, i + 1)
  }

  /** The first lane the item still fits on, if any. */
  method FirstLane(lanes: seq<Lane>, it: Item, limit: int, kerf: nat) returns (j: int)
    ensures -1 <= j < |lanes|
    ensures j >= 0 ==> lanes[j].height + kerf + it.height <= limit
    ensures forall i :: 0 <= i < (if j >= 0 then j else |lanes|) ==> lanes[i].height + kerf + it.height > limit
    ensures LaneWithRoom(lanes, it, limit, kerf, 0) == if j >= 0 then j else |lanes|
  {
    for i := 0 to |lanes|
      invariant forall k :: 0 <= k < i ==> lanes[k].height + kerf + it.height > limit
      invariant LaneWithRoom(lanes, it, limit, kerf, i) == LaneWithRoom(lanes, it, limit, kerf, 0)
    {
      if lanes[i].height + kerf + it.height <= limit { return i; }
    }
    return -1;
  }

  /** One more item on the lanes. */
  function WithItem(lanes: seq<Lane>, it: Item, limit: int, kerf: nat): seq<Lane> {
    var j := LaneWithRoom(lanes, it, limit, kerf, 0);
    if j == |lanes| then lanes + [Lane(it.width, [it], it.height)]
    else lanes[j := Lane(lanes[j].width, lanes[j].items + [it], lanes[j].height + kerf + it.height)]
  }

  /** Item after item into the first lane with room; no lanes when one is too tall. */
  function StackedOn(lanes: seq<Lane>, sorted: seq<Item>, limit: int, kerf: nat): seq<Lane>
    decreases |sorted|
  {
    if sorted == [] then lanes
    else if sorted[0].height > limit then []
    else StackedOn(WithItem(lanes, sorted[0], limit, kerf), sorted[1..], limit, kerf)
  }

  lemma LaneExtends(l: Lane, it: Item, limit: int, kerf: nat)
    requires LaneOk(l, limit, kerf) && ItemOk(it) && it.width == l.width && l.height + kerf + it.height <= limit
    ensures LaneOk(Lane(l.width, l.items + [it], l.height + kerf + it.height), limit, kerf)
  {
    StackOneMore(l.items, it, kerf);
  }

  lemma LaneOfOne(it: Item, limit: int, kerf: nat)
    requires ItemOk(it) && it.height <= limit
    ensures LaneOk(Lane(it.width, [it], it.height), limit, kerf)
  {
    StackOneMore([], it, kerf);
    assert [] + [it] == [it];
  }

  predicate LanesOf(lanes: seq<Lane>, width: int, limit: int, kerf: nat) {
    forall l :: l in lanes ==> LaneOk(l, limit, kerf) && l.width == width
  }

  /** First fit: no item of a later lane fits on an earlier one. */
  predicate FirstFitted(lanes: seq<Lane>, limit: int, kerf: nat) {
    forall a, b, it :: 0 <= a < b < |lanes| && it in lanes[b].items ==> lanes[a].height + kerf + it.height > limit
  }

  lemma {:induction false} NoneBefore(lanes: seq<Lane>, it: Item, limit: int, kerf: nat, i: nat)
    requires i <= |lanes|
    ensures forall a :: i <= a < LaneWithRoom(lanes, it, limit, kerf, i) ==> lanes[a].height + kerf + it.height > limit
    decreases |lanes| - i
  {
    if i < |lanes| && lanes[i].height + kerf + it.height > limit { NoneBefore(lanes, it, limit, kerf, i + 1); }
  }

  lemma StillFirstFit(lanes: seq<Lane>, it: Item, limit: int, kerf: nat)
    requires FirstFitted(lanes, limit, kerf) && it.height > 0
    ensures FirstFitted(WithItem(lanes, it, limit, kerf), limit, kerf)
  {
    hide LaneWithRoom;
    NoneBefore(lanes, it, limit, kerf, 0);
    var r, j := WithItem(lanes, it, limit, kerf), LaneWithRoom(lanes, it, limit, kerf, 0);
    forall a, b, x | 0 <= a < b < |r| && x in r[b].items ensures r[a].height + kerf + x.height > limit {
      assert a < |lanes|;
      if b == j {
        if x != it { assert b < |lanes| && x in lanes[b].items; }
      } else {
        assert r[b] == lanes[b];
      }
    }
  }

  lemma WithItemIsOk(lanes: seq<Lane>, it: Item, width: int, limit: int, kerf: nat)
    requires LanesOf(lanes, width, limit, kerf) && ItemOk(it) && it.width == width && it.height <= limit
    ensures var r := WithItem(lanes, it, limit, kerf);
            && r != [] && LanesOf(r, width, limit, kerf)
            && multiset(AllItems(r)) == multiset(AllItems(lanes)) + multiset{it}
  {
    hide LaneOk, ItemOk, AllItems;
    var j := LaneWithRoom(lanes, it, limit, kerf, 0);
    if j < |lanes| {
      var l := lanes[j];
      assert l in lanes;
      HasRoomThere(lanes, it, limit, kerf, 0);
      LaneExtends(l, it, limit, kerf);
      AllItemsUpdate(lanes, j, Lane(l.width, l.items + [it], l.height + kerf + it.height), it);
    } else {
      LaneOfOne(it, limit, kerf);
      AllItemsLast(lanes, Lane(it.width, [it], it.height));
    }
  }

  lemma {:induction false} HasRoomThere(lanes: seq<Lane>, it: Item, limit: int, kerf: nat, i: nat)
    requires i <= |lanes|
    ensures var j := LaneWithRoom(lanes, it, limit, kerf, i);
            j < |lanes| ==> lanes[j].height + kerf + it.height <= limit
    decreases |lanes| - i
  {
    if i < |lanes| && lanes[i].height + kerf + it.height > limit { HasRoomThere(lanes, it, limit, kerf, i + 1); }
  }

  lemma StackedNext(lanes: seq<Lane>, sorted: seq<Item>, i: nat, limit: int, kerf: nat)
    requires i < |sorted|
    ensures StackedOn(lanes, sorted[i..], limit, kerf) ==
            if sorted[i].height > limit then []
            else StackedOn(WithItem(lanes, sorted[i], limit, kerf), sorted[i+1..], limit, kerf)
  {
    hide WithItem;
    assert sorted[i..][0] == sorted[i] && sorted[i..][1..] == sorted[i+1..];
  }

  /** Items of one width stacked into lanes, first fit: no item of a later lane fits on an
      earlier one. Every item is in exactly one lane; no lanes at all when one is too tall. */
  method Stack(items: seq<Item>, width: int, limit: int, kerf: nat, order: seq<Item> -> seq<Item>)
    returns (lanes: seq<Lane>)
    requires IsItemOrder(order) && forall it :: it in items ==> ItemOk(it) && it.width == width
    ensures lanes == StackedOn([], order(items), limit, kerf) && FirstFitted(lanes, limit, kerf)
    ensures forall l :: l in lanes ==> LaneOk(l, limit, kerf)
    ensures lanes != [] ==> multiset(AllItems(lanes)) == multiset(items)
    ensures lanes == [] ==> items == [] || exists it :: it in items && it.height > limit
  {
    hide LaneOk, AllItems, StackedOn, LaneWithRoom, FirstFitted;
    var sorted := order(items);
    assert multiset(sorted) == multiset(items);
    lanes := [];
    NoItemsStacked(sorted, limit, kerf);
    for i := 0 to |sorted|
      invariant LanesOf(lanes, width, limit, kerf) && multiset(AllItems(lanes)) == multiset(sorted[..i])
      invariant (i > 0 ==> lanes != []) && FirstFitted(lanes, limit, kerf)
      invariant StackedOn(lanes, sorted[i..], limit, kerf) == StackedOn([], sorted, limit, kerf)
    {
      var it := sorted[i];
      assert it in multiset(items);
      StackedNext(lanes, sorted, i, limit, kerf);
      if it.height > limit { return []; }
      assert sorted[..i+1] == sorted[..i] + [it];
      WithItemIsOk(lanes, it, width, limit, kerf);
      StillFirstFit(lanes, it, limit, kerf);
      var j := FirstLane(lanes, it, limit, kerf);
      if j >= 0 {
        var l := lanes[j];
        lanes := lanes[j := Lane(l.width, l.items + [it], l.height + kerf + it.height)];
      } else {
        lanes := lanes + [Lane(it.width, [it], it.height)];
      }
    }
    assert sorted[..|sorted|] == sorted && sorted[|sorted|..] == [];
    NothingMoreStacked(lanes, limit, kerf);
    if lanes == [] { NothingElse(sorted, items); }
  }

  lemma NoItemsStacked(sorted: seq<Item>, limit: int, kerf: nat)
    ensures sorted[0..] == sorted && AllItems([]) == [] && LanesOf([], 0, limit, kerf) && FirstFitted([], limit, kerf)
  {
  }

  lemma NothingMoreStacked(lanes: seq<Lane>, limit: int, kerf: nat)
    ensures StackedOn(lanes, [], limit, kerf) == lanes
  {
  }

  // ---- the strip above the lanes ---------------------------------------------------------

  predicate DistinctItems(items: seq<Item>) {
    forall i, j :: 0 <= i < j < |items| ==> items[i].piece.id != items[j].piece.id
  }

  /** What the packer is given for an item: its chosen size, not to be turned. */
  function StandIn(it: Item): Piece {
    Piece(it.piece.id, it.width, it.height, false, it.piece.priority)
  }

  /** The item with this id, or a stand-in for none. */
  function Lookup(items: seq<Item>, q: Piece): (it: Item)
    ensures (exists i :: 0 <= i < |items| && items[i].piece.id == q.id) ==> it in items && it.piece.id == q.id
  {
    if items == [] then Item(q, q.width, q.height, false)
    else if items[|items|-1].piece.id == q.id then items[|items|-1]
    else Lookup(items[..|items|-1], q)
  }

  function Restored(items: seq<Item>): Piece -> Piece {
    (q: Piece) => Lookup(items, q).piece
  }

  lemma LookupFinds(items: seq<Item>, i: nat)
    requires i < |items| && DistinctItems(items)
    ensures Lookup(items, StandIn(items[i])) == items[i]
  {
    var it := Lookup(items, StandIn(items[i]));
    assert items[i].piece.id == StandIn(items[i]).id;
    var j :| 0 <= j < |items| && items[j] == it;
  }

  /** The items none of whose ids was placed. */
  function Left(items: seq<Item>, placed: seq<Placed>): (r: seq<Item>)
    ensures forall it :: it in r ==> it in items
  {
    if items == [] then []
    else
      var it := items[|items|-1];
      Left(items[..|items|-1], placed) + if HasId(placed, it.piece.id) then [] else [it]
  }

  lemma {:induction false} LeftIsDropped(items: seq<Item>, placed: seq<Placed>)
    ensures DropPlaced(MapBy(StandIn, items), placed) == MapBy(StandIn, Left(items, placed))
  {
    if items != [] {
      var n := |items| - 1;
      LeftIsDropped(items[..n], placed);
      assert MapBy(StandIn, items)[..n] == MapBy(StandIn, items[..n]);
      var rest := Left(items[..n], placed);
      assert MapBy(StandIn, rest + [items[n]]) == MapBy(StandIn, rest) + [StandIn(items[n])];
      assert rest + [] == rest;
    }
  }

  lemma RestoredStandIns(items: seq<Item>, some: seq<Item>)
    requires DistinctItems(items) && forall it :: it in some ==> it in items
    ensures MapBy(Restored(items), MapBy(StandIn, some)) == ItemPieces(some)
  {
    hide MapBy, DistinctItems, Lookup;
    var a, b := MapBy(Restored(items), MapBy(StandIn, some)), ItemPieces(some);
    forall k | 0 <= k < |some| ensures a[k] == b[k] {
      assert some[k] in items;
      RestoredOne(items, some[k]);
      assert a[k] == Restored(items)(StandIn(some[k]));
    }
  }

  lemma RestoredOne(items: seq<Item>, it: Item)
    requires DistinctItems(items) && it in items
    ensures Restored(items)(StandIn(it)) == it.piece
  {
    var i :| 0 <= i < |items| && items[i] == it;
    LookupFinds(items, i);
  }

  /** The placements of the stand-ins with the real pieces back in. */
  function Restore(items: seq<Item>, placed: seq<Placed>): (r: seq<Placed>)
    ensures |r| == |placed|
    ensures forall k :: 0 <= k < |r| ==>
      var it := Lookup(items, placed[k].piece);
      r[k] == placed[k].(piece := it.piece, rotated := it.rotated)
  {
    seq(|placed|, k requires 0 <= k < |placed| =>
      var it := Lookup(items, placed[k].piece);
      placed[k].(piece := it.piece, rotated := it.rotated))
  }

  lemma RestoreMaps(items: seq<Item>, placed: seq<Placed>)
    ensures MapBy(Restored(items), PiecesOf(placed)) == PiecesOf(Restore(items, placed))
  {
    hide Lookup;
    var a, b := MapBy(Restored(items), PiecesOf(placed)), PiecesOf(Restore(items, placed));
    forall k | 0 <= k < |placed| ensures a[k] == b[k] {
      assert a[k] == Restored(items)(placed[k].piece);
    }
  }

  lemma MapBoth<T, U>(f: T -> U, a: seq<T>, b: seq<T>, c: seq<T>)
    requires multiset(a) + multiset(b) == multiset(c)
    ensures multiset(MapBy(f, a)) + multiset(MapBy(f, b)) == multiset(MapBy(f, c))
  {
    MapByPermuted(f, a + b, c);
    assert MapBy(f, a + b) == MapBy(f, a) + MapBy(f, b);
  }

  /** No item is lost or used twice when stand-ins are exchanged for pieces. */
  lemma RestoreConserves(items: seq<Item>, placed: seq<Placed>)
    requires DistinctItems(items) && multiset(PiecesOf(placed)) <= multiset(MapBy(StandIn, items))
    ensures multiset(PiecesOf(Restore(items, placed))) + multiset(ItemPieces(Left(items, placed))) ==
            multiset(ItemPieces(items))
  {
    hide DropPlaced, Left, Restored, MapBy, PiecesOf, Restore, DistinctItems, ItemPieces;
    var pool, f := MapBy(StandIn, items), Restored(items);
    StandInsDistinct(items);
    DropPlacedExactly(pool, placed);
    LeftIsDropped(items, placed);
    var rest := MapBy(StandIn, Left(items, placed));
    MapBoth(f, PiecesOf(placed), rest, pool);
    RestoredStandIns(items, items);
    RestoredStandIns(items, Left(items, placed));
    RestoreMaps(items, placed);
  }

  lemma StandInsDistinct(items: seq<Item>)
    requires DistinctItems(items)
    ensures Distinct(MapBy(StandIn, items))
  {
  }

  lemma RestoredLegal(items: seq<Item>, placed: seq<Placed>)
    requires DistinctItems(items) && multiset(PiecesOf(placed)) <= multiset(MapBy(StandIn, items))
    requires forall it :: it in items ==> ItemOk(it)
    requires forall q :: q in placed ==> Legal(q) && ValidPiece(q.piece)
    ensures forall q :: q in Restore(items, placed) ==> Legal(q) && ValidPiece(q.piece)
  {
    hide Lookup, DistinctItems, MapBy, Legal, ItemOk, StandIn;
    var r := Restore(items, placed);
    forall q | q in r ensures Legal(q) && ValidPiece(q.piece) {
      var k :| 0 <= k < |r| && r[k] == q;
      assert PiecesOf(placed)[k] == placed[k].piece && placed[k] in placed;
      assert placed[k].piece in multiset(MapBy(StandIn, items));
      var i :| 0 <= i < |items| && MapBy(StandIn, items)[i] == placed[k].piece;
      LookupFinds(items, i);
      assert items[i] in items;
      RestoredOneLegal(placed[k], items[i]);
    }
  }

  lemma RestoredOneLegal(q: Placed, it: Item)
    requires Legal(q) && ItemOk(it) && q.piece == StandIn(it)
    ensures var r := q.(piece := it.piece, rotated := it.rotated);
            Legal(r) && ValidPiece(r.piece)
  {
  }

  /** Which leftovers are worth reporting changes no cut. */
  lemma {:induction false} CutsIgnoreThresholds(t: GTree, r: Box, g: Config, g': Config)
    requires g.kerf == g'.kerf
    ensures PlanOf(t, r, g).cuts == PlanOf(t, r, g').cuts
  {
    if t.Cut? {
      var Cut(h, at, near, far) := t;
      CutsIgnoreThresholds(near, NearRegion(r, h, at), g, g');
      CutsIgnoreThresholds(far, FarRegion(r, h, at, g.kerf), g, g');
    }
  }

  /** A strip of stand-ins, cut and all, is a strip of the real pieces. */
  lemma RestoredRealizes(t: GTree, r: Box, items: seq<Item>, strip: BinFill, g: Config, g': Config)
    requires Realizes(t, r, strip, g) && g.kerf == g'.kerf
    requires DistinctItems(items) && multiset(PiecesOf(strip.placed)) <= multiset(MapBy(StandIn, items))
    requires forall it :: it in items ==> ItemOk(it)
    ensures Realizes(t, r, strip.(placed := Restore(items, strip.placed)), g')
  {
    hide Frees, PlanOf, Offcuts, Lookup, ItemOk, DistinctItems, Legal, ValidPiece, PiecesOf, MapBy;
    RestoredLegal(items, strip.placed);
    CutsIgnoreThresholds(t, r, g, g');
    assert BoxesOf(Restore(items, strip.placed)) == BoxesOf(strip.placed);
  }

  /** The packer run on a strip, in its own coordinates. */
  function PackedBy(pool: seq<Piece>, width: int, height: int, g: Config, order: seq<Piece> -> seq<Piece>): BinFill {
    var s := PackAll(Packing([Box(0, 0, width, height)], [], []), order(pool), ShorterLeftoverAxis, BestAreaFit, g);
    BinFill(s.placed, s.gaps, s.cuts)
  }

  /** One packed strip: placements of stand-ins, with their tree. */
  method PackOrder(pool: seq<Piece>, width: int, height: int, kerf: nat, minRect: int, order: seq<Piece> -> seq<Piece>)
    returns (strip: BinFill, ghost t: GTree)
    requires width > 0 && height > 0 && AllValid(pool) && IsOrder(order)
    ensures strip == PackedBy(pool, width, height, Config(kerf, Max(1, minRect), 0), order)
    ensures multiset(PiecesOf(strip.placed)) <= multiset(pool) && Strips.Filled(strip, pool)
    ensures Realizes(t, Box(0, 0, width, height), strip, Config(kerf, Max(1, minRect), 0))
    ensures strip.placed == [] ==> NoneFits(pool, [Box(0, 0, width, height)])
  {
    hide Realizes, Tracks, PiecesOf, FitsPiece, PackAll, Strips.Filled;
    var packer := new GuillotineOptimizer(width, height, Params(kerf, 0, 0, 0, 0), ShorterLeftoverAxis, minRect,
                                          BestAreaFit);
    assert packer.bounds == Box(0, 0, width, height) && packer.State() == Packing([packer.bounds], [], []);
    OrderedValid(order, pool);
    NoPieces();
    var rest := packer.Optimize(order(pool));
    strip := BinFill(packer.placed, packer.remainders, packer.cuts);
    t := packer.tree;
    TracksRealizes(packer.tree, packer.bounds, packer.placed, packer.remainders, packer.cuts, packer.g);
    assert multiset(PiecesOf(packer.placed)) + multiset(rest) == multiset(pool);
    PartOf(multiset(PiecesOf(packer.placed)), multiset(rest), multiset(pool), multiset(pool));
    FilledBy(strip, rest, pool);
    if packer.placed == [] {
      assert packer.bounds in packer.remainders && packer.bounds == Box(0, 0, width, height);
      forall q | q in pool ensures !FitsPiece(packer.bounds, q) { assert q in multiset(pool) && q in multiset(rest); }
    }
  }

  lemma StandInsValid(items: seq<Item>)
    requires forall it :: it in items ==> ItemOk(it)
    ensures AllValid(MapBy(StandIn, items))
  {
    var pool := MapBy(StandIn, items);
    forall p | p in pool ensures ValidPiece(p) {
      var i :| 0 <= i < |pool| && pool[i] == p;
      assert items[i] in items;
    }
  }

  lemma {:induction false} SubItems(items: seq<Item>, placed: seq<Placed>)
    requires DistinctItems(items)
    ensures DistinctItems(Left(items, placed))
  {
    if items != [] {
      var init, last := items[..|items|-1], items[|items|-1];
      SubItems(init, placed);
      var rest := Left(init, placed);
      forall i | 0 <= i < |rest| ensures rest[i].piece.id != last.piece.id {
        assert rest[i] in init;
        var j :| 0 <= j < |init| && init[j] == rest[i];
      }
    }
  }

  lemma NoItemFits(items: seq<Item>, width: int, height: int)
    requires NoneFits(MapBy(StandIn, items), [Box(0, 0, width, height)])
    ensures forall it :: it in items ==> it.width > width || it.height > height
  {
    var pool := MapBy(StandIn, items);
    forall it | it in items ensures it.width > width || it.height > height {
      var i :| 0 <= i < |items| && items[i] == it;
      assert pool[i] in pool && Box(0, 0, width, height) in [Box(0, 0, width, height)];
      assert !FitsPiece(Box(0, 0, width, height), pool[i]);
    }
  }

  lemma NoneTooSmall(items: seq<Item>, width: int, height: int)
    requires forall it :: it in items ==> ItemOk(it)
    ensures width <= 0 || height <= 0 ==> forall it :: it in items ==> it.width > width || it.height > height
  {
  }

  /** The strip packed in each of the orders. */
  function AllPacked(pool: seq<Piece>, width: int, height: int, g: Config, orders: seq<seq<Piece> -> seq<Piece>>):
    (r: seq<BinFill>)
    ensures |r| == |orders| && forall k :: 0 <= k < |r| ==> r[k] == PackedBy(pool, width, height, g, orders[k])
  {
    seq(|orders|, k requires 0 <= k < |orders| => PackedBy(pool, width, height, g, orders[k]))
  }

  /** The first of those that cover most. */
  predicate FirstFullest(tried: seq<BinFill>, won: nat) {
    && won < |tried|
    && forall k :: 0 <= k < |tried| ==>
         if k < won then UsedArea(tried[k].placed) < UsedArea(tried[won].placed)
         else UsedArea(tried[k].placed) <= UsedArea(tried[won].placed)
  }

  function FullestOf(tried: seq<BinFill>): (won: nat)
    requires tried != []
    ensures FirstFullest(tried, won)
  {
    if |tried| == 1 then 0
    else
      var n := |tried| - 1;
      var won := FullestOf(tried[..n]);
      OneMoreTried(tried[..n], won, tried[n]);
      assert tried == tried[..n] + [tried[n]];
      if UsedArea(tried[n].placed) > UsedArea(tried[won].placed) then n else won
  }

  lemma OneMoreTried(tried: seq<BinFill>, won: nat, other: BinFill)
    requires FirstFullest(tried, won)
    ensures FirstFullest(tried + [other], if UsedArea(other.placed) > UsedArea(tried[won].placed) then |tried| else won)
  {
    hide UsedArea;
  }

  lemma FullestOfOne(tried: seq<BinFill>)
    requires tried != []
    ensures FullestOf(tried[..1]) == 0
  {
  }

  lemma FullestNext(tried: seq<BinFill>, i: nat)
    requires 0 < i < |tried|
    ensures var won := FullestOf(tried[..i]);
            FullestOf(tried[..i+1]) == if UsedArea(tried[i].placed) > UsedArea(tried[won].placed) then i else won
  {
    hide UsedArea;
    assert FirstFullest(tried[..i], FullestOf(tried[..i]));
    assert tried[..i+1][..i] == tried[..i];
  }

  /** The strip with what it packs of the items, and the items left. */
  function FilledStrip(items: seq<Item>, width: int, height: int, kerf: nat, minRect: int,
                       orders: seq<seq<Piece> -> seq<Piece>>): (BinFill, seq<Item>)
  {
    if items == [] || width <= 0 || height <= 0 || orders == [] then (NOFILL, items)
    else
      var tried := AllPacked(MapBy(StandIn, items), width, height, Config(kerf, Max(1, minRect), 0), orders);
      var best := tried[FullestOf(tried)];
      (best.(placed := Restore(items, best.placed)), Left(items, best.placed))
  }

  /** No item fits a gap the way it lies. */
  predicate NoneGoesIn(items: seq<Item>, gaps: seq<Box>) {
    forall it, r :: it in items && r in gaps ==> it.width > Width(r) || it.height > Height(r)
  }

  lemma {:induction false} LeftOver(items: seq<Item>, placed: seq<Placed>, it: Item)
    requires it in Left(items, placed)
    ensures it in items && !HasId(placed, it.piece.id)
  {
    if it in Left(items[..|items|-1], placed) { LeftOver(items[..|items|-1], placed, it); }
  }

  /** What is left over fits no gap. */
  lemma LeftGoesNowhere(items: seq<Item>, best: BinFill)
    requires Strips.Filled(best, MapBy(StandIn, items))
    ensures NoneGoesIn(Left(items, best.placed), best.remainders)
  {
    hide Left, MapBy, PiecesOf, HasId;
    var pool := MapBy(StandIn, items);
    forall it, r | it in Left(items, best.placed) && r in best.remainders
      ensures it.width > Width(r) || it.height > Height(r)
    {
      LeftOver(items, best.placed, it);
      var i :| 0 <= i < |items| && items[i] == it;
      var q := StandIn(it);
      assert pool[i] == q;
      if q in PiecesOf(best.placed) { PlacedPieceHasId(best.placed, q); }
      assert q in multiset(pool) && q !in multiset(PiecesOf(best.placed));
      assert q in multiset(pool) - multiset(PiecesOf(best.placed));
      assert !FitsPiece(r, q);
    }
  }

  /** Packs what it can of the items, in the order that covers most, the first of those
      that cover the same; what it packed and what is left are together the items, and
      nothing left fits a gap. It packs nothing only when nothing fits. */
  method FillStrip(items: seq<Item>, width: int, height: int, kerf: nat, minRect: int,
                   orders: seq<seq<Piece> -> seq<Piece>>) returns (strip: BinFill, left: seq<Item>)
    requires DistinctItems(items) && (forall it :: it in items ==> ItemOk(it)) && forall o :: o in orders ==> IsOrder(o)
    ensures (strip, left) == FilledStrip(items, width, height, kerf, minRect, orders)
    ensures multiset(PiecesOf(strip.placed)) + multiset(ItemPieces(left)) == multiset(ItemPieces(items))
    ensures DistinctItems(left) && (forall it :: it in left ==> it in items) && NoneGoesIn(left, strip.remainders)
    ensures StripUsed(strip) ==>
              width > 0 && height > 0 && exists u ::
                  Realizes(u, Box(0, 0, width, height), strip, Config(kerf, minRect, 0))
    ensures strip.placed == [] && orders != [] ==> forall it :: it in items ==> it.width > width || it.height > height
  {
    hide Realizes, NoneFits, PiecesOf, MapBy, ItemOk, DistinctItems, IsOrder, AllValid, ItemPieces, Left, Restore,
         UsedArea, FullestOf, PackedBy, Strips.Filled, NoneGoesIn;
    strip, left := NOFILL, items;
    NoPieces();
    if items == [] || width <= 0 || height <= 0 || orders == [] {
      NoneTooSmall(items, width, height);
      NoGaps(items);
      return;
    }
    StandInsValid(items);
    var pool := MapBy(StandIn, items);
    ghost var g := Config(kerf, Max(1, minRect), 0);
    ghost var tried := AllPacked(pool, width, height, g, orders);
    assert orders[0] in orders;
    FullestOfOne(tried);
    var best, t := PackOrder(pool, width, height, kerf, minRect, orders[0]);
    for i := 1 to |orders|
      invariant FullestOf(tried[..i]) < i && best == tried[FullestOf(tried[..i])]
      invariant multiset(PiecesOf(best.placed)) <= multiset(pool) && Realizes(t, Box(0, 0, width, height), best, g)
      invariant best.placed == [] ==> NoneFits(pool, [Box(0, 0, width, height)])
      invariant Strips.Filled(best, pool)
    {
      assert orders[i] in orders;
      FullestNext(tried, i);
      var other, u := PackOrder(pool, width, height, kerf, minRect, orders[i]);
      if UsedArea(other.placed) > UsedArea(best.placed) { best, t := other, u; }
    }
    assert tried[..|orders|] == tried;
    if best.placed == [] { NoItemFits(items, width, height); }
    strip := best.(placed := Restore(items, best.placed));
    left := Left(items, best.placed);
    SubItems(items, best.placed);
    LeftGoesNowhere(items, best);
    RestoreConserves(items, best.placed);
    RestoredRealizes(t, Box(0, 0, width, height), items, best, g, Config(kerf, minRect, 0));
  }

  lemma NoGaps(items: seq<Item>)
    ensures NoneGoesIn(items, NOFILL.remainders)
  {
  }
}
