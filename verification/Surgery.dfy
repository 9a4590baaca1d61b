/**
Ways to change a cut tree that keep it freeing its pieces: moving an edge of the
region, thinning the blade, moving the whole sheet, and filling an offcut.
*/
module Surgery {
  import opened Geometry
  import opened Guillotine

  // ---- moving an edge of the region ---------------------------------------

  /** No piece starts flush with the near edge of the region. */
  predicate NoneFlush(S: seq<Box>, h: bool, lo: int) {
    forall b :: b in S ==> Lo(b, h) > lo
  }

  /** A region may grow on its near side when no piece is flush with that side:
      the very same tree still frees the pieces. */
  lemma {:induction false} GrowNear(t: GTree, r: Box, S: seq<Box>, kerf: nat, h: bool, lo: int)
    requires Frees(t, r, S, kerf) && NoneFlush(S, h, Lo(r, h)) && lo <= Lo(r, h)
    ensures Frees(t, WithLo(r, h, lo), S, kerf)
  {
    match t
    case Empty =>
    case Whole =>
    case Cut(g, at, near, far) =>
      FreesCut(g, at, near, far, r, S, kerf);
      hide Frees, Side;
      var n, f := NearRegion(r, g, at), FarRegion(r, g, at, kerf);
      var N, F := Near(S, g, at), Far(S, g, at, kerf);
      var grown := WithLo(r, h, lo);
      GrowNear(near, n, N, kerf, h, lo);
      assert NearRegion(grown, g, at) == WithLo(n, h, lo);
      if g != h {
        GrowNear(far, f, F, kerf, h, lo);
        assert FarRegion(grown, g, at, kerf) == WithLo(f, h, lo);
      }
      CutFrees(g, at, near, far, grown, S, kerf);
  }

  /** A region may shrink on its far side down to its pieces. Cuts beyond the new
      edge disappear, and a far side that vanishes takes its tree along. */
  lemma {:induction false} ShrinkFar(t: GTree, r: Box, S: seq<Box>, kerf: nat, h: bool, hi: int) returns (t': GTree)
    requires Frees(t, r, S, kerf) && AllSolid(S)
    requires Lo(r, h) < hi <= Hi(r, h)
    requires forall b :: b in S ==> Hi(b, h) <= hi
    ensures Frees(t', WithHi(r, h, hi), S, kerf)
    ensures Size(t') <= Size(t) && (t == Empty ==> t' == Empty)
    decreases t, 1
  {
    hide Frees, Side;
    if !t.Cut? {
      FreesLeaf(t, r, S, kerf);
      FreesLeaf(t, WithHi(r, h, hi), S, kerf);
      assert t == Whole ==> r in S;
      t' := t;
    } else {
      var Cut(g, at, near, far) := t;
      FreesCut(g, at, near, far, r, S, kerf);
      var n, f := NearRegion(r, g, at), FarRegion(r, g, at, kerf);
      var shrunk := WithHi(r, h, hi);
      if g != h {
        t' := ShrinkBothSides(g, at, near, far, r, S, kerf, h, hi);
      } else if at >= hi {
        SideAll(S, g, at, false);
        t' := ShrinkFar(near, n, S, kerf, h, hi);
        assert WithHi(n, h, hi) == shrunk;
      } else {
        assert NearRegion(shrunk, g, at) == n;
        var f' := Empty;
        if at + kerf < hi {
          f' := ShrinkFar(far, f, Far(S, g, at, kerf), kerf, h, hi);
          assert FarRegion(shrunk, g, at, kerf) == WithHi(f, h, hi);
        } else {
          SideNone(S, g, at + kerf, true);
          NothingLeft(FarRegion(shrunk, g, at, kerf), kerf);
        }
        t' := Cut(g, at, near, f');
        CutFrees(g, at, near, f', shrunk, S, kerf);
      }
    }
  }

  lemma {:induction false} ShrinkBothSides(g: bool, at: int, near: GTree, far: GTree, r: Box, S: seq<Box>, kerf: nat,
                                           h: bool, hi: int)
    returns (t': GTree)
    requires Frees(Cut(g, at, near, far), r, S, kerf) && AllSolid(S) && g != h
    requires Lo(r, h) < hi <= Hi(r, h)
    requires forall b :: b in S ==> Hi(b, h) <= hi
    ensures Frees(t', WithHi(r, h, hi), S, kerf)
    ensures Size(t') <= 1 + Size(near) + Size(far)
    decreases Cut(g, at, near, far), 0
  {
    FreesCut(g, at, near, far, r, S, kerf);
    hide Frees, Side;
    var n, f := NearRegion(r, g, at), FarRegion(r, g, at, kerf);
    var shrunk := WithHi(r, h, hi);
    var n' := ShrinkFar(near, n, Near(S, g, at), kerf, h, hi);
    var f' := ShrinkFar(far, f, Far(S, g, at, kerf), kerf, h, hi);
    assert NearRegion(shrunk, g, at) == WithHi(n, h, hi);
    assert FarRegion(shrunk, g, at, kerf) == WithHi(f, h, hi);
    t' := Cut(g, at, n', f');
    CutFrees(g, at, n', f', shrunk, S, kerf);
  }

  lemma NothingLeft(r: Box, kerf: nat)
    ensures Frees(Empty, r, [], kerf)
  {
  }

  // ---- a thinner blade -----------------------------------------------------

  /** The same sheet can be cut with a thinner blade. */
  lemma {:induction false} ThinBlade(t: GTree, r: Box, S: seq<Box>, kerf: nat, thin: nat) returns (t': GTree)
    requires thin <= kerf && Frees(t, r, S, kerf) && Solid(r)
    ensures Frees(t', r, S, thin)
  {
    if thin == kerf || !t.Cut? {
      t' := t;
    } else {
      var Cut(h, at, near, far) := t;
      FreesCut(h, at, near, far, r, S, kerf);
      FreesSolid(t, r, S, kerf);
      var n, f := NearRegion(r, h, at), FarRegion(r, h, at, kerf);
      var N, F := Near(S, h, at), Far(S, h, at, kerf);
      var n' := ThinBlade(near, n, N, kerf, thin);
      if F == [] {
        NothingFar(S, h, at, kerf, thin);
        t' := TrimFar(n', r, S, thin, h, at);
      } else {
        FreesSomething(far, f, F, kerf);
        var f' := ThinBlade(far, f, F, kerf, thin);
        t' := ThinCut(n', f', r, S, kerf, thin, h, at);
      }
    }
  }

  lemma NothingFar(S: seq<Box>, h: bool, at: int, kerf: nat, thin: nat)
    requires Clear(S, h, at, kerf) && AllSolid(S) && Far(S, h, at, kerf) == [] && thin <= kerf
    ensures Clear(S, h, at, thin) && Far(S, h, at, thin) == []
  {
    assert forall b :: b in S ==> b !in Far(S, h, at, kerf);
    SideNone(S, h, at + thin, true);
  }

  /** Far pieces may lean on the old blade's far edge, so the cut moves over, and
      what it gives up is trimmed off the near side. */
  lemma ThinCut(near: GTree, far: GTree, r: Box, S: seq<Box>, kerf: nat, thin: nat, h: bool, at: int)
    returns (t': GTree)
    requires Lo(r, h) < at < Hi(r, h) && Clear(S, h, at, kerf) && AllSolid(S) && thin < kerf
    requires Solid(FarRegion(r, h, at, kerf))
    requires Frees(near, NearRegion(r, h, at), Near(S, h, at), thin)
    requires Frees(far, FarRegion(r, h, at, kerf), Far(S, h, at, kerf), thin)
    ensures Frees(t', r, S, thin)
  {
    hide Frees, Side;
    var q, N := at + kerf - thin, Near(S, h, at);
    SideSame(S, h, q, h, at, false);
    SideAll(N, h, at, false);
    SideNone(N, h, at + thin, true);
    assert NearRegion(NearRegion(r, h, q), h, at) == NearRegion(r, h, at);
    var trimmed := TrimFar(near, NearRegion(r, h, q), N, thin, h, at);
    assert q + thin == at + kerf;
    t' := Cut(h, q, trimmed, far);
    CutFrees(h, q, trimmed, far, r, S, thin);
  }

  /** One more cut drops what lies beyond `at`, where no piece is. */
  lemma TrimFar(t: GTree, r: Box, S: seq<Box>, kerf: nat, h: bool, at: int) returns (t': GTree)
    requires Lo(r, h) < at < Hi(r, h) && Clear(S, h, at, kerf)
    requires Frees(t, NearRegion(r, h, at), Near(S, h, at), kerf) && Far(S, h, at, kerf) == []
    ensures Frees(t', r, S, kerf)
  {
    NothingLeft(FarRegion(r, h, at, kerf), kerf);
    t' := Cut(h, at, t, Empty);
    CutFrees(h, at, t, Empty, r, S, kerf);
  }

  lemma FreesSomething(t: GTree, r: Box, S: seq<Box>, kerf: nat)
    requires Frees(t, r, S, kerf) && S != []
    ensures t != Empty
  {
  }

  // ---- moving the whole sheet ----------------------------------------------

  function ShiftTree(t: GTree, dx: int, dy: int): GTree {
    match t
    case Empty => Empty
    case Whole => Whole
    case Cut(h, at, near, far) =>
      Cut(h, at + (if h then dy else dx), ShiftTree(near, dx, dy), ShiftTree(far, dx, dy))
  }

  lemma ShiftAllLast(B: seq<Box>, b: Box, dx: int, dy: int)
    ensures ShiftAll(B + [b], dx, dy) == ShiftAll(B, dx, dy) + [Shift(b, dx, dy)]
    ensures ShiftAll(B + [], dx, dy) == ShiftAll(B, dx, dy)
  {
    assert B + [] == B;
  }

  lemma {:induction false} SideShift(S: seq<Box>, h: bool, q: int, far: bool, dx: int, dy: int)
    ensures Side(ShiftAll(S, dx, dy), h, q + (if h then dy else dx), far) == ShiftAll(Side(S, h, q, far), dx, dy)
  {
    if S != [] {
      var B, b := S[..|S|-1], S[|S|-1];
      assert S == B + [b];
      var d := if h then dy else dx;
      SideShift(B, h, q, far, dx, dy);
      SideLast(B, b, h, q, far);
      SideLast(ShiftAll(B, dx, dy), Shift(b, dx, dy), h, q + d, far);
      ShiftAllLast(B, b, dx, dy);
      ShiftAllLast(Side(B, h, q, far), b, dx, dy);
      assert OnSide(Shift(b, dx, dy), h, q + d, far) <==> OnSide(b, h, q, far);
      hide *;
    }
  }

  lemma ClearShift(S: seq<Box>, h: bool, at: int, kerf: nat, dx: int, dy: int)
    requires Clear(S, h, at, kerf)
    ensures Clear(ShiftAll(S, dx, dy), h, at + (if h then dy else dx), kerf)
  {
    var S' := ShiftAll(S, dx, dy);
    forall b | b in S'
      ensures OnSide(b, h, at + (if h then dy else dx), false) || OnSide(b, h, at + (if h then dy else dx) + kerf, true)
    {
      var i :| 0 <= i < |S'| && S'[i] == b;
      assert S[i] in S && b == Shift(S[i], dx, dy);
    }
  }

  lemma ShiftLeaf(t: GTree, r: Box, S: seq<Box>, kerf: nat, dx: int, dy: int)
    requires Frees(t, r, S, kerf) && !t.Cut?
    ensures ShiftTree(t, dx, dy) == t
    ensures Frees(t, Shift(r, dx, dy), ShiftAll(S, dx, dy), kerf)
  {
    assert ShiftAll([r], dx, dy) == [Shift(r, dx, dy)];
    assert ShiftAll([], dx, dy) == [];
  }

  lemma {:induction false} ShiftFrees(t: GTree, r: Box, S: seq<Box>, kerf: nat, dx: int, dy: int)
    requires Frees(t, r, S, kerf)
    ensures Frees(ShiftTree(t, dx, dy), Shift(r, dx, dy), ShiftAll(S, dx, dy), kerf)
  {
    hide Frees, Side, ShiftAll;
    if !t.Cut? {
      ShiftLeaf(t, r, S, kerf, dx, dy);
    } else {
      var Cut(h, at, near, far) := t;
      FreesCut(h, at, near, far, r, S, kerf);
      ShiftFrees(near, NearRegion(r, h, at), Near(S, h, at), kerf, dx, dy);
      ShiftFrees(far, FarRegion(r, h, at, kerf), Far(S, h, at, kerf), kerf, dx, dy);
      var near', far' := ShiftTree(near, dx, dy), ShiftTree(far, dx, dy);
      ShiftCut(h, at, near', far', r, S, kerf, dx, dy);
      assert ShiftTree(t, dx, dy) == Cut(h, at + (if h then dy else dx), near', far');
    }
  }

  lemma ShiftCut(h: bool, at: int, near: GTree, far: GTree, r: Box, S: seq<Box>, kerf: nat, dx: int, dy: int)
    requires Lo(r, h) < at < Hi(r, h) && Clear(S, h, at, kerf)
    requires Frees(near, Shift(NearRegion(r, h, at), dx, dy), ShiftAll(Near(S, h, at), dx, dy), kerf)
    requires Frees(far, Shift(FarRegion(r, h, at, kerf), dx, dy), ShiftAll(Far(S, h, at, kerf), dx, dy), kerf)
    requires Solid(FarRegion(r, h, at, kerf)) || far == Empty
    ensures Frees(Cut(h, at + (if h then dy else dx), near, far), Shift(r, dx, dy), ShiftAll(S, dx, dy), kerf)
  {
    hide Frees, Side;
    var d := if h then dy else dx;
    SideShift(S, h, at, false, dx, dy);
    SideShift(S, h, at + kerf, true, dx, dy);
    assert at + kerf + d == at + d + kerf;
    ClearShift(S, h, at, kerf, dx, dy);
    assert NearRegion(Shift(r, dx, dy), h, at + d) == Shift(NearRegion(r, h, at), dx, dy);
    assert FarRegion(Shift(r, dx, dy), h, at + d, kerf) == Shift(FarRegion(r, h, at, kerf), dx, dy);
    CutFrees(h, at + d, near, far, Shift(r, dx, dy), ShiftAll(S, dx, dy), kerf);
  }

  // ---- filling an offcut -----------------------------------------------------

  /** `t` with the offcut `leaf` cut further by `u`. */
  function Graft(t: GTree, r: Box, kerf: nat, leaf: Box, u: GTree): GTree {
    match t
    case Empty => if leaf == r then u else Empty
    case Whole => Whole
    case Cut(h, at, near, far) =>
      if leaf in Offcuts(near, NearRegion(r, h, at), kerf) then
        Cut(h, at, Graft(near, NearRegion(r, h, at), kerf, leaf, u), far)
      else
        Cut(h, at, near, Graft(far, FarRegion(r, h, at, kerf), kerf, leaf, u))
  }

  lemma {:induction false} OffcutInside(t: GTree, r: Box, S: seq<Box>, kerf: nat, leaf: Box)
    requires Frees(t, r, S, kerf) && leaf in Offcuts(t, r, kerf)
    ensures Inside(leaf, r)
  {
    assert leaf in Yield(t, r, S, kerf);
    YieldInside(t, r, S, kerf, leaf);
  }

  /** New pieces `B` may be cut out of any offcut, whatever else the tree does. */
  lemma {:induction false} GraftFrees(t: GTree, r: Box, S: seq<Box>, kerf: nat, leaf: Box, u: GTree, B: seq<Box>)
    requires Frees(t, r, S, kerf) && leaf in Offcuts(t, r, kerf)
    requires Frees(u, leaf, B, kerf) && AllSolid(B)
    ensures Frees(Graft(t, r, kerf, leaf, u), r, S + B, kerf)
  {
    match t
    case Empty =>
      assert S + B == B;
    case Cut(h, at, near, far) =>
      FreesCut(h, at, near, far, r, S, kerf);
      var n, f := NearRegion(r, h, at), FarRegion(r, h, at, kerf);
      var N, F := Near(S, h, at), Far(S, h, at, kerf);
      if leaf in Offcuts(near, n, kerf) {
        OffcutInside(near, n, N, kerf, leaf);
        GraftFrees(near, n, N, kerf, leaf, u, B);
        SidesOfNearLeaf(leaf, u, B, r, S, kerf, h, at);
        hide Frees, Side;
        CutFrees(h, at, Graft(near, n, kerf, leaf, u), far, r, S + B, kerf);
      } else {
        OffcutInside(far, f, F, kerf, leaf);
        GraftFrees(far, f, F, kerf, leaf, u, B);
        SidesOfFarLeaf(leaf, u, B, r, S, kerf, h, at);
        hide Frees, Side;
        CutFrees(h, at, near, Graft(far, f, kerf, leaf, u), r, S + B, kerf);
      }
  }

  /** Pieces cut out of an offcut are on the same side of a cut as the offcut. */
  lemma SidesOfNearLeaf(leaf: Box, u: GTree, B: seq<Box>, r: Box, S: seq<Box>, kerf: nat, h: bool, at: int)
    requires Frees(u, leaf, B, kerf) && AllSolid(B) && Clear(S, h, at, kerf)
    requires Inside(leaf, NearRegion(r, h, at))
    ensures Clear(S + B, h, at, kerf)
    ensures Near(S + B, h, at) == Near(S, h, at) + B
    ensures Far(S + B, h, at, kerf) == Far(S, h, at, kerf)
  {
    hide Frees, Side;
    forall b | b in B ensures OnSide(b, h, at, false) && !OnSide(b, h, at + kerf, true) {
      FreesInside(u, leaf, B, kerf, b);
    }
    SideConcat(S, B, h, at, false);
    SideConcat(S, B, h, at + kerf, true);
    SideAll(B, h, at, false);
    SideNone(B, h, at + kerf, true);
    assert Far(S, h, at, kerf) + [] == Far(S, h, at, kerf);
  }

  lemma SidesOfFarLeaf(leaf: Box, u: GTree, B: seq<Box>, r: Box, S: seq<Box>, kerf: nat, h: bool, at: int)
    requires Frees(u, leaf, B, kerf) && AllSolid(B) && Clear(S, h, at, kerf)
    requires Solid(FarRegion(r, h, at, kerf)) && Inside(leaf, FarRegion(r, h, at, kerf))
    ensures Clear(S + B, h, at, kerf)
    ensures Near(S + B, h, at) == Near(S, h, at)
    ensures Far(S + B, h, at, kerf) == Far(S, h, at, kerf) + B
  {
    hide Frees, Side;
    forall b | b in B ensures !OnSide(b, h, at, false) && OnSide(b, h, at + kerf, true) {
      FreesInside(u, leaf, B, kerf, b);
    }
    SideConcat(S, B, h, at, false);
    SideConcat(S, B, h, at + kerf, true);
    SideNone(B, h, at, false);
    SideAll(B, h, at + kerf, true);
    assert Near(S, h, at) + [] == Near(S, h, at);
  }

  lemma TradeInSum<T>(A: seq<T>, A': seq<T>, B: seq<T>, x: T, X: seq<T>)
    requires x in A && multiset(A') == multiset(A) - multiset{x} + multiset(X)
    ensures multiset(A' + B) == multiset(A + B) - multiset{x} + multiset(X)
    ensures multiset(B + A') == multiset(B + A) - multiset{x} + multiset(X)
  {
    assert x in multiset(A);
  }

  /** Grafting trades the offcut for the ones the new cuts leave. */
  lemma {:induction false} GraftOffcuts(t: GTree, r: Box, kerf: nat, leaf: Box, u: GTree)
    requires leaf in Offcuts(t, r, kerf)
    ensures multiset(Offcuts(Graft(t, r, kerf, leaf, u), r, kerf)) ==
            multiset(Offcuts(t, r, kerf)) - multiset{leaf} + multiset(Offcuts(u, leaf, kerf))
  {
    if t == Empty {
      assert multiset([r]) - multiset{leaf} == multiset{};
    } else {
      var Cut(h, at, near, far) := t;
      var n, f := NearRegion(r, h, at), FarRegion(r, h, at, kerf);
      var ON := Offcuts(near, n, kerf);
      var OF := if Solid(f) then Offcuts(far, f, kerf) else [];
      var O, O', U := Offcuts(t, r, kerf), Offcuts(Graft(t, r, kerf, leaf, u), r, kerf), Offcuts(u, leaf, kerf);
      assert O == ON + OF;
      if leaf in ON {
        GraftOffcuts(near, n, kerf, leaf, u);
        var ON' := Offcuts(Graft(near, n, kerf, leaf, u), n, kerf);
        assert O' == ON' + OF;
        TradeInSum(ON, ON', OF, leaf, U);
      } else {
        GraftOffcuts(far, f, kerf, leaf, u);
        var OF' := Offcuts(Graft(far, f, kerf, leaf, u), f, kerf);
        assert O' == ON + OF';
        TradeInSum(OF, OF', ON, leaf, U);
      }
      hide Offcuts, Graft;
    }
  }
}
