/**
From an assignment of lane widths to sheets back to lanes: each sheet's lanes stand
side by side, every lane stands on one sheet, and the sheets bill what was promised.
*/
module LaneAssignment {
  import opened Geometry
  import opened Sequences
  import opened Sheets
  import opened LaneSheets
  import opened LaneStacks
  import P = LanePacking
  import C = LaneCombos

  /** The lanes at these places. */
  function Select(lanes: seq<Lane>, idxs: seq<nat>): (r: seq<Lane>)
    requires P.Indices(idxs, |lanes|)
    ensures |r| == |idxs| && forall k :: 0 <= k < |r| ==> r[k] == lanes[idxs[k]]
  {
    seq(|idxs|, k requires 0 <= k < |idxs| => lanes[idxs[k]])
  }

  function WidthIn(l: Lane): int {
    l.width
  }

  function LaneWidthsOf(lanes: seq<Lane>): (ws: seq<int>)
    ensures |ws| == |lanes| && forall k :: 0 <= k < |ws| ==> ws[k] == lanes[k].width
  {
    MapBy(WidthIn, lanes)
  }

  function Ascends(a: nat, b: nat): bool {
    a <= b
  }

  lemma {:induction false} BladesAre(kerf: nat, n: nat)
    ensures P.Blades(kerf, n) == kerf * n
  {
    if n > 0 { BladesAre(kerf, n - 1); }
  }

  function WidthAt(lanes: seq<Lane>): nat -> int {
    (i: nat) => if i < |lanes| then lanes[i].width else 0
  }

  lemma {:induction false} SumOfWidths(lanes: seq<Lane>, idxs: seq<nat>)
    requires P.Indices(idxs, |lanes|)
    ensures P.Sum(P.WidthsOf(idxs, LaneWidthsOf(lanes))) == SumBy(WidthAt(lanes), idxs)
  {
    if idxs != [] {
      SumOfWidths(lanes, idxs[1..]);
      assert P.WidthsOf(idxs, LaneWidthsOf(lanes))[1..] == P.WidthsOf(idxs[1..], LaneWidthsOf(lanes));
      assert idxs == [idxs[0]] + idxs[1..];
      SumByConcat(WidthAt(lanes), [idxs[0]], idxs[1..]);
      assert [idxs[0]][..0] == [];
    }
  }

  lemma {:induction false} WidthOfSelected(lanes: seq<Lane>, idxs: seq<nat>, kerf: nat)
    requires P.Indices(idxs, |lanes|)
    ensures LanesWidth(Select(lanes, idxs), kerf) == SumBy(WidthAt(lanes), idxs) + kerf * |idxs|
  {
    if idxs != [] {
      var n := |idxs| - 1;
      WidthOfSelected(lanes, idxs[..n], kerf);
      assert Select(lanes, idxs)[..n] == Select(lanes, idxs[..n]);
      TimesNext(kerf, n);
    }
  }

  lemma TimesNext(kerf: nat, n: nat)
    ensures kerf * (n + 1) == kerf * n + kerf
  {
  }

  lemma IndicesPermuted(a: seq<nat>, b: seq<nat>, n: nat)
    requires multiset(a) == multiset(b) && P.Indices(b, n)
    ensures P.Indices(a, n)
  {
    forall k | 0 <= k < |a| ensures a[k] < n { assert a[k] in multiset(b); }
  }

  /** Lanes whose widths were packed onto a sheet fit it side by side. */
  lemma PackedLanesFit(lanes: seq<Lane>, idxs: seq<nat>, cap: int, kerf: nat)
    requires P.Indices(idxs, |lanes|) && idxs != []
    requires P.Load(0, P.WidthsOf(idxs, LaneWidthsOf(lanes)), kerf) <= cap
    ensures var sorted := SortBy(Ascends, idxs);
            P.Indices(sorted, |lanes|) && LanesWidth(Select(lanes, sorted), kerf) <= cap + kerf
  {
    var sorted := SortBy(Ascends, idxs);
    IndicesPermuted(sorted, idxs, |lanes|);
    NothingElse(sorted, idxs);
    SumOfWidths(lanes, idxs);
    SumByPermuted(WidthAt(lanes), sorted, idxs);
    WidthOfSelected(lanes, sorted, kerf);
    BladesAre(kerf, |idxs|);
  }

  // ---- every lane once -----------------------------------------------------------------

  ghost function ContentOf(lanes: seq<Lane>): nat -> multiset<Piece> {
    (i: nat) => if i < |lanes| then multiset(ItemPieces(lanes[i].items)) else multiset{}
  }

  lemma {:induction false} SelectedPieces(lanes: seq<Lane>, idxs: seq<nat>)
    requires P.Indices(idxs, |lanes|)
    ensures multiset(ItemPieces(AllItems(Select(lanes, idxs)))) == UnionBy(ContentOf(lanes), idxs)
  {
    if idxs != [] {
      var n := |idxs| - 1;
      SelectedPieces(lanes, idxs[..n]);
      var some := Select(lanes, idxs);
      assert some[..n] == Select(lanes, idxs[..n]);
      ItemPiecesConcat(AllItems(some[..n]), some[n].items);
    }
  }

  lemma ItemPiecesConcat(a: seq<Item>, b: seq<Item>)
    ensures ItemPieces(a + b) == ItemPieces(a) + ItemPieces(b)
  {
  }

  function UpTo(n: nat): (r: seq<nat>)
    ensures |r| == n && forall i :: 0 <= i < n ==> r[i] == i
  {
    seq(n, i => i)
  }

  lemma AllSelected(lanes: seq<Lane>)
    ensures Select(lanes, UpTo(|lanes|)) == lanes
  {
  }

  /** The pieces of the lanes assigned to the first sheets. */
  ghost function Assigned(lanes: seq<Lane>, m: multiset<nat>): multiset<Piece> {
    UnionBy(ContentOf(lanes), AnyListing(m))
  }

  lemma AssignedMore(lanes: seq<Lane>, m: multiset<nat>, idxs: seq<nat>)
    requires P.Indices(idxs, |lanes|)
    ensures Assigned(lanes, m + multiset(idxs)) ==
            Assigned(lanes, m) + multiset(ItemPieces(AllItems(Select(lanes, idxs))))
  {
    UnionByPermuted(ContentOf(lanes), AnyListing(m + multiset(idxs)), AnyListing(m) + idxs);
    UnionByConcat(ContentOf(lanes), AnyListing(m), idxs);
    SelectedPieces(lanes, idxs);
  }

  lemma AssignedAll(lanes: seq<Lane>)
    ensures Assigned(lanes, multiset(UpTo(|lanes|))) == multiset(ItemPieces(AllItems(lanes)))
    ensures Assigned(lanes, multiset{}) == multiset{}
  {
    UnionByPermuted(ContentOf(lanes), AnyListing(multiset(UpTo(|lanes|))), UpTo(|lanes|));
    SelectedPieces(lanes, UpTo(|lanes|));
    AllSelected(lanes);
    NothingElse<nat>(AnyListing<nat>(multiset{}), []);
  }

  // ---- what the sheets bill ---------------------------------------------------------------

  function CostIn(s: C.SheetClass): int {
    s.cost
  }

  lemma {:induction false} RepeatCost(c: C.SheetClass, n: nat)
    ensures SumBy(CostIn, C.Repeat(c, n)) == n * c.cost
  {
    if n > 0 {
      RepeatCost(c, n - 1);
      assert C.Repeat(c, n)[..n-1] == C.Repeat(c, n - 1);
      TimesMore(n - 1, c.cost);
    }
  }

  lemma TimesMore(n: nat, c: int)
    ensures (n + 1) * c == n * c + c
  {
  }

  lemma {:induction false} ExpandCost(combo: C.Combo, classes: seq<C.SheetClass>)
    requires |combo| == |classes|
    ensures SumBy(CostIn, C.Expand(combo, classes)) == C.CostOf(combo, classes)
  {
    if combo != [] {
      var n := |combo| - 1;
      ExpandCost(combo[..n], classes[..n]);
      RepeatCost(classes[n], combo[n]);
      SumByConcat(CostIn, C.Expand(combo[..n], classes[..n]), C.Repeat(classes[n], combo[n]));
    }
  }

  /** The sheets of a combination together cost what the combination does. */
  lemma SheetsCost(combo: C.Combo, classes: seq<C.SheetClass>)
    requires |combo| == |classes|
    ensures SumBy(CostIn, C.SheetsOf(combo, classes)) == C.CostOf(combo, classes)
  {
    ExpandCost(combo, classes);
    SumByPermuted(CostIn, C.SheetsOf(combo, classes), C.Expand(combo, classes)) by { SheetsListed(combo, classes); }
  }

  lemma SheetsListed(combo: C.Combo, classes: seq<C.SheetClass>)
    requires |combo| == |classes|
    ensures multiset(C.SheetsOf(combo, classes)) == multiset(C.Expand(combo, classes))
  {
  }
}
