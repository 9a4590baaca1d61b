/**
What it means for a tree of edge-to-edge cuts to free a set of pieces, and the
laws of that relation that hold for cuts placed anywhere in their region.

This is the reference the search of consolidate.py is measured against: it knows
nothing of candidate positions, memos or budgets.
*/
module Guillotine {
  import opened Geometry
  import Sequences

  /** `Empty` leaves its region as an offcut, `Whole` is a piece that fills its
      region, and `Cut` runs the saw at `at` and treats both sides in turn. */
  datatype GTree =
    | Empty
    | Whole
    | Cut(horizontal: bool, at: int, near: GTree, far: GTree)

  function Size(t: GTree): nat {
    match t
    case Empty => 0
    case Whole => 0
    case Cut(_, _, n, f) => 1 + Size(n) + Size(f)
  }

  /** `far` asks for boxes starting at or after `q`, otherwise ending at or before it. */
  predicate OnSide(b: Box, horizontal: bool, q: int, far: bool) {
    if far then Lo(b, horizontal) >= q else Hi(b, horizontal) <= q
  }

  function Side(S: seq<Box>, horizontal: bool, q: int, far: bool): (r: seq<Box>)
    ensures |r| <= |S|
    ensures forall b :: b in r <==> b in S && OnSide(b, horizontal, q, far)
  {
    if S == [] then []
    else
      Side(S[..|S|-1], horizontal, q, far)
      + if OnSide(S[|S|-1], horizontal, q, far) then [S[|S|-1]] else []
  }

  function Near(S: seq<Box>, horizontal: bool, at: int): seq<Box> {
    Side(S, horizontal, at, false)
  }

  function Far(S: seq<Box>, horizontal: bool, at: int, kerf: nat): seq<Box> {
    Side(S, horizontal, at + kerf, true)
  }

  /** The blade, `kerf` wide from `at` on, touches no piece. */
  predicate Clear(S: seq<Box>, horizontal: bool, at: int, kerf: nat) {
    forall b :: b in S ==> OnSide(b, horizontal, at, false) || OnSide(b, horizontal, at + kerf, true)
  }

  function NearRegion(r: Box, horizontal: bool, at: int): Box {
    WithHi(r, horizontal, at)
  }

  /** What the blade leaves on the far side; it may overhang the far edge. */
  function FarRegion(r: Box, horizontal: bool, at: int, kerf: nat): Box {
    WithLo(r, horizontal, Min(at + kerf, Hi(r, horizontal)))
  }

  /** The tree frees exactly the pieces `S` out of region `r` with a `kerf` wide blade. */
  predicate Frees(t: GTree, r: Box, S: seq<Box>, kerf: nat) {
    match t
    case Empty => S == []
    case Whole => S == [r]
    case Cut(h, at, near, far) =>
      && Lo(r, h) < at < Hi(r, h)
      && Clear(S, h, at, kerf)
      && Frees(near, NearRegion(r, h, at), Near(S, h, at), kerf)
      && Frees(far, FarRegion(r, h, at, kerf), Far(S, h, at, kerf), kerf)
      && (Solid(FarRegion(r, h, at, kerf)) || far == Empty)
  }

  lemma FreesLeaf(t: GTree, r: Box, S: seq<Box>, kerf: nat)
    requires !t.Cut?
    ensures Frees(t, r, S, kerf) <==> S == if t == Empty then [] else [r]
  {
  }

  lemma CutFrees(h: bool, at: int, near: GTree, far: GTree, r: Box, S: seq<Box>, kerf: nat)
    requires Lo(r, h) < at < Hi(r, h) && Clear(S, h, at, kerf)
    requires Frees(near, NearRegion(r, h, at), Near(S, h, at), kerf)
    requires Frees(far, FarRegion(r, h, at, kerf), Far(S, h, at, kerf), kerf)
    requires Solid(FarRegion(r, h, at, kerf)) || far == Empty
    ensures Frees(Cut(h, at, near, far), r, S, kerf)
  {
  }

  lemma FreesCut(h: bool, at: int, near: GTree, far: GTree, r: Box, S: seq<Box>, kerf: nat)
    requires Frees(Cut(h, at, near, far), r, S, kerf)
    ensures Lo(r, h) < at < Hi(r, h) && Clear(S, h, at, kerf)
    ensures Frees(near, NearRegion(r, h, at), Near(S, h, at), kerf)
    ensures Frees(far, FarRegion(r, h, at, kerf), Far(S, h, at, kerf), kerf)
    ensures Solid(FarRegion(r, h, at, kerf)) || far == Empty
  {
  }

  ghost predicate Cuttable(r: Box, S: seq<Box>, kerf: nat) {
    exists t :: Frees(t, r, S, kerf)
  }

  // ---- sides of a cut ----------------------------------------------------

  lemma {:induction false} SideConcat(S: seq<Box>, B: seq<Box>, h: bool, q: int, far: bool)
    ensures Side(S + B, h, q, far) == Side(S, h, q, far) + Side(B, h, q, far)
  {
    if B == [] {
      assert S + B == S;
    } else {
      var C := B[..|B|-1];
      assert (S + B)[..|S + B|-1] == S + C;
      SideConcat(S, C, h, q, far);
    }
  }

  lemma SideLast(B: seq<Box>, b: Box, h: bool, q: int, far: bool)
    ensures Side(B + [b], h, q, far) == Side(B, h, q, far) + if OnSide(b, h, q, far) then [b] else []
  {
    assert (B + [b])[..|B|] == B;
  }

  lemma {:induction false} SideAll(S: seq<Box>, h: bool, q: int, far: bool)
    requires forall b :: b in S ==> OnSide(b, h, q, far)
    ensures Side(S, h, q, far) == S
  {
    hide OnSide, Side;
    if S != [] {
      var init, last := S[..|S|-1], S[|S|-1];
      assert S == init + [last];
      SideAll(init, h, q, far);
      SideLast(init, last, h, q, far);
    }
  }

  lemma SideNone(S: seq<Box>, h: bool, q: int, far: bool)
    requires forall b :: b in S ==> !OnSide(b, h, q, far)
    ensures Side(S, h, q, far) == []
  {
    if Side(S, h, q, far) != [] {
      assert Side(S, h, q, far)[0] in Side(S, h, q, far);
    }
  }

  lemma {:induction false} SideSame(S: seq<Box>, h: bool, q: int, h': bool, q': int, far: bool)
    requires forall b :: b in S ==> (OnSide(b, h, q, far) <==> OnSide(b, h', q', far))
    ensures Side(S, h, q, far) == Side(S, h', q', far)
  {
    if S != [] {
      assert S[|S|-1] in S;
      SideSame(S[..|S|-1], h, q, h', q', far);
    }
  }

  lemma {:induction false} SideMultiset(S: seq<Box>, b: Box, h: bool, q: int, far: bool)
    ensures multiset(Side(S, h, q, far))[b] == if OnSide(b, h, q, far) then multiset(S)[b] else 0
  {
    if S != [] {
      SideMultiset(S[..|S|-1], b, h, q, far);
      assert S == S[..|S|-1] + [S[|S|-1]];
    }
  }

  lemma SideSubset(S: seq<Box>, S': seq<Box>, h: bool, q: int, far: bool)
    requires multiset(S') <= multiset(S)
    ensures multiset(Side(S', h, q, far)) <= multiset(Side(S, h, q, far))
  {
    forall b ensures multiset(Side(S', h, q, far))[b] <= multiset(Side(S, h, q, far))[b] {
      SideMultiset(S, b, h, q, far);
      SideMultiset(S', b, h, q, far);
    }
  }

  lemma FarSubset(S: seq<Box>, S': seq<Box>, h: bool, at: int, kerf: nat)
    requires multiset(S') <= multiset(S)
    ensures multiset(Far(S', h, at, kerf)) <= multiset(Far(S, h, at, kerf))
  {
    SideSubset(S, S', h, at + kerf, true);
  }

  // ---- what a tree guarantees about its pieces ---------------------------

  /** Pieces a tree frees lie inside its region. */
  lemma {:induction false} FreesInside(t: GTree, r: Box, S: seq<Box>, kerf: nat, b: Box)
    requires Frees(t, r, S, kerf) && b in S
    ensures Inside(b, r)
  {
    match t
    case Empty =>
    case Whole =>
    case Cut(h, at, near, far) =>
      if b in Near(S, h, at) {
        FreesInside(near, NearRegion(r, h, at), Near(S, h, at), kerf, b);
      } else {
        FreesInside(far, FarRegion(r, h, at, kerf), Far(S, h, at, kerf), kerf, b);
      }
  }

  lemma SubsetMembers(S: seq<Box>, S': seq<Box>)
    requires multiset(S') <= multiset(S)
    ensures forall b :: b in S' ==> b in S
    ensures S == [] ==> S' == []
  {
    forall b | b in S' ensures b in S { assert b in multiset(S'); }
    if S' != [] { assert S'[0] in S'; }
  }

  lemma SubsetOfOne(r: Box, S': seq<Box>)
    requires multiset(S') <= multiset([r])
    ensures S' == [] || S' == [r]
  {
    SubsetMembers([r], S');
    assert |multiset(S')| <= |multiset([r])| by {
      assert multiset([r]) == multiset(S') + (multiset([r]) - multiset(S'));
    }
  }

  /** Freeing depends on which pieces there are, not on their order, and a tree
      for some pieces becomes one for any part of them: a freed piece that is
      gone leaves its region as an offcut. */
  function Without(t: GTree, r: Box, S: seq<Box>, kerf: nat): GTree {
    match t
    case Empty => Empty
    case Whole => if S == [] then Empty else Whole
    case Cut(h, at, near, far) =>
      Cut(h, at,
          Without(near, NearRegion(r, h, at), Near(S, h, at), kerf),
          Without(far, FarRegion(r, h, at, kerf), Far(S, h, at, kerf), kerf))
  }

  lemma {:induction false} WithoutFrees(t: GTree, r: Box, S: seq<Box>, S': seq<Box>, kerf: nat)
    requires Frees(t, r, S, kerf)
    requires multiset(S') <= multiset(S)
    ensures Frees(Without(t, r, S', kerf), r, S', kerf)
  {
    match t
    case Empty =>
      SubsetMembers(S, S');
    case Whole =>
      SubsetOfOne(r, S');
    case Cut(h, at, near, far) =>
      var N, F := Near(S, h, at), Far(S, h, at, kerf);
      var N', F' := Near(S', h, at), Far(S', h, at, kerf);
      SideSubset(S, S', h, at, false);
      FarSubset(S, S', h, at, kerf);
      WithoutFrees(near, NearRegion(r, h, at), N, N', kerf);
      WithoutFrees(far, FarRegion(r, h, at, kerf), F, F', kerf);
      SubsetMembers(S, S');
  }

  /** Cuttability is hereditary, and in particular blind to the order of the pieces. */
  lemma CuttableHereditary(r: Box, S: seq<Box>, S': seq<Box>, kerf: nat)
    requires Cuttable(r, S, kerf)
    requires multiset(S') <= multiset(S)
    ensures Cuttable(r, S', kerf)
  {
    var t :| Frees(t, r, S, kerf);
    WithoutFrees(t, r, S, S', kerf);
  }

  /** Out of a solid region only solid pieces are freed. */
  lemma {:induction false} FreesSolid(t: GTree, r: Box, S: seq<Box>, kerf: nat)
    requires Frees(t, r, S, kerf) && Solid(r)
    ensures AllSolid(S)
  {
    match t
    case Empty =>
    case Whole =>
    case Cut(h, at, near, far) =>
      FreesSolid(near, NearRegion(r, h, at), Near(S, h, at), kerf);
      if Solid(FarRegion(r, h, at, kerf)) {
        FreesSolid(far, FarRegion(r, h, at, kerf), Far(S, h, at, kerf), kerf);
      }
      forall b | b in S ensures Solid(b) {
        assert b in Near(S, h, at) || b in Far(S, h, at, kerf);
      }
  }

  lemma CutSplitsAt(S: seq<Box>, b: Box, h: bool, at: int, kerf: nat)
    requires AllSolid(S) && Clear(S, h, at, kerf)
    ensures multiset(S)[b] == multiset(Near(S, h, at))[b] + multiset(Far(S, h, at, kerf))[b]
  {
    SideMultiset(S, b, h, at, false);
    SideMultiset(S, b, h, at + kerf, true);
    hide Side;
    if multiset(S)[b] > 0 { assert b in S; }
  }

  /** A clear cut sends every solid piece to exactly one side. */
  lemma CutSplits(S: seq<Box>, h: bool, at: int, kerf: nat)
    requires AllSolid(S) && Clear(S, h, at, kerf)
    ensures multiset(S) == multiset(Near(S, h, at)) + multiset(Far(S, h, at, kerf))
    ensures |S| == |Near(S, h, at)| + |Far(S, h, at, kerf)|
  {
    var N, F := Near(S, h, at), Far(S, h, at, kerf);
    forall b ensures multiset(S)[b] == (multiset(N) + multiset(F))[b] { CutSplitsAt(S, b, h, at, kerf); }
    hide *;
    Sequences.NothingElse(S, N + F);
  }

  lemma PairNotInOne<T>(a: T, b: T, c: T)
    ensures !(multiset{a, b} <= multiset{c})
  {
  }

  lemma PairAt<T>(S: seq<T>, i: nat, j: nat)
    requires i < j < |S|
    ensures multiset{S[i], S[j]} <= multiset(S)
  {
    assert S == S[..i] + [S[i]] + S[i+1..j] + [S[j]] + S[j+1..];
  }

  lemma PairInSum<T>(a: T, b: T, M: multiset<T>, N: multiset<T>)
    requires multiset{a, b} <= M + N
    ensures multiset{a, b} <= M || multiset{a, b} <= N || (a in M && b in N) || (b in M && a in N)
  {
    if a == b {
      assert (multiset{a, b})[a] == 2;
      assert (M + N)[a] >= 2;
    } else {
      assert (multiset{a, b})[a] == 1 && (multiset{a, b})[b] == 1;
    }
  }

  // ---- the offcuts of a tree ---------------------------------------------

  /** Regions a tree leaves over, in tree order; a far side the blade consumes leaves none. */
  function Offcuts(t: GTree, r: Box, kerf: nat): seq<Box> {
    match t
    case Empty => [r]
    case Whole => []
    case Cut(h, at, near, far) =>
      Offcuts(near, NearRegion(r, h, at), kerf)
      + if Solid(FarRegion(r, h, at, kerf)) then Offcuts(far, FarRegion(r, h, at, kerf), kerf) else []
  }

  /** Everything a tree yields: the pieces and the offcuts. */
  ghost function Yield(t: GTree, r: Box, S: seq<Box>, kerf: nat): multiset<Box> {
    multiset(S) + multiset(Offcuts(t, r, kerf))
  }

  lemma {:induction false} YieldInside(t: GTree, r: Box, S: seq<Box>, kerf: nat, b: Box)
    requires Frees(t, r, S, kerf) && b in Yield(t, r, S, kerf)
    ensures Inside(b, r)
  {
    if b in S {
      FreesInside(t, r, S, kerf, b);
    } else if t.Cut? {
      var Cut(h, at, near, far) := t;
      if b in Offcuts(near, NearRegion(r, h, at), kerf) {
        YieldInside(near, NearRegion(r, h, at), Near(S, h, at), kerf, b);
      } else {
        YieldInside(far, FarRegion(r, h, at, kerf), Far(S, h, at, kerf), kerf, b);
      }
    }
  }

  lemma YieldSplits(t: GTree, r: Box, S: seq<Box>, kerf: nat)
    requires t.Cut? && Frees(t, r, S, kerf) && AllSolid(S)
    ensures var Cut(h, at, near, far) := t;
            Yield(t, r, S, kerf) ==
              Yield(near, NearRegion(r, h, at), Near(S, h, at), kerf)
              + if Solid(FarRegion(r, h, at, kerf))
                then Yield(far, FarRegion(r, h, at, kerf), Far(S, h, at, kerf), kerf)
                else multiset{}
  {
    CutSplits(S, t.horizontal, t.at, kerf);
  }

  lemma AcrossBlade(a: Box, b: Box, r: Box, h: bool, at: int, kerf: nat)
    requires Inside(a, NearRegion(r, h, at))
    requires Inside(b, FarRegion(r, h, at, kerf)) && Solid(FarRegion(r, h, at, kerf))
    ensures Separation(a, b) >= kerf && Separation(b, a) >= kerf
  {
  }

  /** Any two things a tree yields are a blade apart. */
  lemma {:induction false} YieldApart(t: GTree, r: Box, S: seq<Box>, kerf: nat, a: Box, b: Box)
    requires Frees(t, r, S, kerf) && AllSolid(S)
    requires multiset{a, b} <= Yield(t, r, S, kerf)
    ensures Separation(a, b) >= kerf
  {
    match t
    case Empty =>
      PairNotInOne(a, b, r);
    case Whole =>
      PairNotInOne(a, b, r);
    case Cut(h, at, near, far) =>
      YieldSplits(t, r, S, kerf);
      var n, f := NearRegion(r, h, at), FarRegion(r, h, at, kerf);
      var N, F := Near(S, h, at), Far(S, h, at, kerf);
      assert Frees(near, n, N, kerf) && Frees(far, f, F, kerf) && AllSolid(N) && AllSolid(F);
      hide Side, Frees, Offcuts, Yield;
      var YN := Yield(near, n, N, kerf);
      var YF := if Solid(f) then Yield(far, f, F, kerf) else multiset{};
      PairInSum(a, b, YN, YF);
      if multiset{a, b} <= YN {
        YieldApart(near, n, N, kerf, a, b);
      } else if multiset{a, b} <= YF {
        YieldApart(far, f, F, kerf, a, b);
      } else if a in YN && b in YF {
        YieldInside(near, n, N, kerf, a);
        YieldInside(far, f, F, kerf, b);
        AcrossBlade(a, b, r, h, at, kerf);
      } else {
        YieldInside(near, n, N, kerf, b);
        YieldInside(far, f, F, kerf, a);
        AcrossBlade(b, a, r, h, at, kerf);
      }
  }

  /** What sheet_check.iter_violations demands of a sheet follows from its tree:
      pieces inside the region and pairwise a blade apart. */
  lemma FreedPiecesAreApart(t: GTree, r: Box, S: seq<Box>, kerf: nat)
    requires Frees(t, r, S, kerf) && AllSolid(S)
    ensures PairwiseApart(S, kerf)
    ensures forall b :: b in S ==> Inside(b, r)
    ensures forall b, c :: b in S && c in Offcuts(t, r, kerf) ==> Separation(b, c) >= kerf
  {
    hide Frees, Offcuts, Separation;
    forall i, j | 0 <= i < j < |S| ensures Separation(S[i], S[j]) >= kerf {
      PairAt(S, i, j);
      YieldApart(t, r, S, kerf, S[i], S[j]);
    }
    forall b | b in S ensures Inside(b, r) { FreesInside(t, r, S, kerf, b); }
    forall b, c | b in S && c in Offcuts(t, r, kerf) ensures Separation(b, c) >= kerf {
      assert b in multiset(S) && c in multiset(Offcuts(t, r, kerf));
      YieldApart(t, r, S, kerf, b, c);
    }
  }

  // ---- conservation of area ----------------------------------------------

  function SumArea(S: seq<Box>): int {
    if S == [] then 0 else SumArea(S[..|S|-1]) + Area(S[|S|-1])
  }

  lemma {:induction false} SumAreaConcat(S: seq<Box>, B: seq<Box>)
    ensures SumArea(S + B) == SumArea(S) + SumArea(B)
  {
    if B == [] {
      assert S + B == S;
    } else {
      assert (S + B)[..|S + B|-1] == S + B[..|B|-1];
      SumAreaConcat(S, B[..|B|-1]);
    }
  }

  lemma {:induction false} SumAreaSplits(S: seq<Box>, h: bool, at: int, kerf: nat)
    requires AllSolid(S) && Clear(S, h, at, kerf)
    ensures SumArea(S) == SumArea(Near(S, h, at)) + SumArea(Far(S, h, at, kerf))
  {
    if S != [] {
      var B, b := S[..|S|-1], S[|S|-1];
      assert S == B + [b] && b in S;
      SumAreaSplits(B, h, at, kerf);
      SideLast(B, b, h, at, false);
      SideLast(B, b, h, at + kerf, true);
      hide Area, Side;
      SumAreaConcat(Near(B, h, at), if OnSide(b, h, at, false) then [b] else []);
      SumAreaConcat(Far(B, h, at, kerf), if OnSide(b, h, at + kerf, true) then [b] else []);
    }
  }

  function Strip(r: Box, h: bool, at: int, kerf: nat): int {
    Area(WithLo(WithHi(r, h, Min(at + kerf, Hi(r, h))), h, at))
  }

  /** Area the blade turns into dust, overhang excluded. */
  function Dust(t: GTree, r: Box, kerf: nat): int {
    match t
    case Empty => 0
    case Whole => 0
    case Cut(h, at, near, far) =>
      Strip(r, h, at, kerf)
      + Dust(near, NearRegion(r, h, at), kerf)
      + if Solid(FarRegion(r, h, at, kerf)) then Dust(far, FarRegion(r, h, at, kerf), kerf) else 0
  }

  /** The blade takes a strip out of a solid region; what it consumes has no area left. */
  lemma CutArea(r: Box, h: bool, at: int, kerf: nat)
    requires Solid(r) && Lo(r, h) < at < Hi(r, h)
    ensures Solid(NearRegion(r, h, at))
    ensures Area(r) == Area(NearRegion(r, h, at)) + Strip(r, h, at, kerf) + Area(FarRegion(r, h, at, kerf))
    ensures Strip(r, h, at, kerf) >= 0
    ensures Solid(FarRegion(r, h, at, kerf)) || Area(FarRegion(r, h, at, kerf)) == 0
  {
  }

  /** A region is its pieces, its offcuts and the dust of its cuts, to the last unit. */
  lemma {:induction false} AreaConserved(t: GTree, r: Box, S: seq<Box>, kerf: nat)
    requires Frees(t, r, S, kerf) && Solid(r)
    ensures Area(r) == SumArea(S) + SumArea(Offcuts(t, r, kerf)) + Dust(t, r, kerf)
    ensures Dust(t, r, kerf) >= 0 && SumArea(Offcuts(t, r, kerf)) >= 0
  {
    match t
    case Empty =>
      SumAreaOne(r);
    case Whole =>
      SumAreaOne(r);
    case Cut(h, at, near, far) =>
      hide Area, Strip;
      var n, f := NearRegion(r, h, at), FarRegion(r, h, at, kerf);
      FreesSolid(t, r, S, kerf);
      SumAreaSplits(S, h, at, kerf);
      CutArea(r, h, at, kerf);
      AreaConserved(near, n, Near(S, h, at), kerf);
      SumAreaConcat(Offcuts(near, n, kerf), if Solid(f) then Offcuts(far, f, kerf) else []);
      if Solid(f) {
        AreaConserved(far, f, Far(S, h, at, kerf), kerf);
      }
  }

  lemma SumAreaOne(r: Box)
    ensures SumArea([r]) == Area(r) && SumArea([]) == 0
  {
    assert [r][..0] == [];
  }
}
