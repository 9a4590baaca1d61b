/**
The cut positions consolidate.py tries, and why trying only those loses nothing.

The search looks at two positions per piece and axis: flush past a piece's far
edge, or one blade before its near edge. Whatever any guillotine tree can free,
a tree of such cuts can free as well.
*/
module CandidateCuts {
  import opened Geometry
  import opened Guillotine
  import opened Surgery

  /** A position the search tries in region `r`: next to a piece, strictly inside
      the region and clear of every piece. */
  predicate IsCandidate(r: Box, S: seq<Box>, kerf: nat, h: bool, at: int) {
    && Lo(r, h) < at < Hi(r, h)
    && (exists b :: b in S && (at == Hi(b, h) || at == Lo(b, h) - kerf))
    && Clear(S, h, at, kerf)
  }

  /** The trees in the search space: an empty region is left alone, a piece that is
      its region is taken, and every cut is a candidate. */
  predicate Searchable(t: GTree, r: Box, S: seq<Box>, kerf: nat) {
    if S == [] then t == Empty
    else if S == [r] then t == Whole
    else
      match t
      case Empty => false
      case Whole => false
      case Cut(h, at, near, far) =>
        && IsCandidate(r, S, kerf, h, at)
        && Searchable(near, NearRegion(r, h, at), Near(S, h, at), kerf)
        && Searchable(far, FarRegion(r, h, at, kerf), Far(S, h, at, kerf), kerf)
        && (Solid(FarRegion(r, h, at, kerf)) || far == Empty)
  }

  lemma SearchableCut(h: bool, at: int, near: GTree, far: GTree, r: Box, S: seq<Box>, kerf: nat)
    requires S != [] && S != [r] && IsCandidate(r, S, kerf, h, at)
    requires Searchable(near, NearRegion(r, h, at), Near(S, h, at), kerf)
    requires Searchable(far, FarRegion(r, h, at, kerf), Far(S, h, at, kerf), kerf)
    requires Solid(FarRegion(r, h, at, kerf)) || far == Empty
    ensures Searchable(Cut(h, at, near, far), r, S, kerf)
  {
  }

  lemma SearchableSides(t: GTree, r: Box, S: seq<Box>, kerf: nat)
    requires Searchable(t, r, S, kerf) && S != [] && S != [r]
    ensures t.Cut? && IsCandidate(r, S, kerf, t.horizontal, t.at)
    ensures Searchable(t.near, NearRegion(r, t.horizontal, t.at), Near(S, t.horizontal, t.at), kerf)
    ensures Searchable(t.far, FarRegion(r, t.horizontal, t.at, kerf), Far(S, t.horizontal, t.at, kerf), kerf)
    ensures Solid(FarRegion(r, t.horizontal, t.at, kerf)) || t.far == Empty
  {
  }

  lemma SearchableLeaf(r: Box, kerf: nat)
    ensures Searchable(Empty, r, [], kerf) && Searchable(Whole, r, [r], kerf)
  {
  }

  /** Every tree in the search space does free its pieces. */
  lemma {:induction false} SearchableFrees(t: GTree, r: Box, S: seq<Box>, kerf: nat)
    requires Searchable(t, r, S, kerf)
    ensures Frees(t, r, S, kerf)
  {
    if t.Cut? {
      var Cut(h, at, near, far) := t;
      SearchableFrees(near, NearRegion(r, h, at), Near(S, h, at), kerf);
      SearchableFrees(far, FarRegion(r, h, at, kerf), Far(S, h, at, kerf), kerf);
      hide Searchable, Side;
      CutFrees(h, at, near, far, r, S, kerf);
    }
  }

  /** What shrinks along every branch of a tree. */
  function Extent(r: Box): nat {
    Max(0, Width(r)) + Max(0, Height(r))
  }

  lemma SidesShrink(r: Box, h: bool, at: int, kerf: nat)
    requires Lo(r, h) < at < Hi(r, h)
    ensures Extent(NearRegion(r, h, at)) < Extent(r)
    ensures Extent(FarRegion(r, h, at, kerf)) < Extent(r)
  {
  }

  /** The largest far edge of some pieces. */
  lemma {:induction false} LargestHi(S: seq<Box>, h: bool) returns (b: Box)
    requires S != []
    ensures b in S && forall c :: c in S ==> Hi(c, h) <= Hi(b, h)
  {
    b := S[0];
    if |S| > 1 {
      var m := LargestHi(S[1..], h);
      b := if Hi(m, h) >= Hi(b, h) then m else b;
      forall c | c in S ensures Hi(c, h) <= Hi(b, h) {
        assert c == S[0] || c in S[1..];
      }
    }
  }

  lemma MovedEdges(r: Box, h: bool, at: int, kerf: nat, v: int)
    ensures WithLo(FarRegion(r, h, at, kerf), h, v) == WithLo(r, h, v)
    ensures WithHi(NearRegion(r, h, at), h, v) == NearRegion(r, h, v)
    ensures WithLo(r, h, Lo(r, h)) == r
    ensures Lo(FarRegion(r, h, at, kerf), h) == Min(at + kerf, Hi(r, h))
    ensures Hi(NearRegion(r, h, at), h) == at && Lo(NearRegion(r, h, at), h) == Lo(r, h)
  {
  }

  lemma AllFar(S: seq<Box>, h: bool, at: int, kerf: nat)
    requires Clear(S, h, at, kerf) && Near(S, h, at) == []
    ensures Far(S, h, at, kerf) == S
  {
    assert forall b :: b in S ==> b !in Near(S, h, at);
    SideAll(S, h, at + kerf, true);
  }

  /** Sliding a clear cut back to the far edge of a near piece moves no piece across. */
  lemma SameSides(S: seq<Box>, h: bool, at: int, kerf: nat, b: Box)
    requires Clear(S, h, at, kerf) && AllSolid(S) && b in Near(S, h, at)
    requires forall c :: c in Near(S, h, at) ==> Hi(c, h) <= Hi(b, h)
    ensures Clear(S, h, Hi(b, h), kerf)
    ensures Near(S, h, Hi(b, h)) == Near(S, h, at)
    ensures Far(S, h, Hi(b, h), kerf) == Far(S, h, at, kerf)
  {
    var q := Hi(b, h);
    forall c | c in S
      ensures OnSide(c, h, q, false) <==> OnSide(c, h, at, false)
      ensures OnSide(c, h, q + kerf, true) <==> OnSide(c, h, at + kerf, true)
    {
      assert Solid(c) && (c in Near(S, h, at) || c in Far(S, h, at, kerf));
    }
    SideSame(S, h, q, h, at, false);
    SideSame(S, h, q + kerf, h, at + kerf, true);
  }

  /** A cut nobody is flush behind slides back to the largest far edge of the near
      pieces: same pieces on each side, a smaller near region, a grown far one. */
  lemma SlideBack(h: bool, at: int, near: GTree, far: GTree, r: Box, S: seq<Box>, kerf: nat)
    returns (q: int, near': GTree)
    requires Frees(Cut(h, at, near, far), r, S, kerf) && AllSolid(S)
    requires Near(S, h, at) != [] && NoneFlush(Far(S, h, at, kerf), h, at + kerf)
    ensures IsCandidate(r, S, kerf, h, q)
    ensures Frees(near', NearRegion(r, h, q), Near(S, h, q), kerf)
    ensures Frees(far, FarRegion(r, h, q, kerf), Far(S, h, q, kerf), kerf)
    ensures Solid(FarRegion(r, h, q, kerf)) || Far(S, h, q, kerf) == []
  {
    hide Frees, Side;
    FreesCut(h, at, near, far, r, S, kerf);
    var n, f := NearRegion(r, h, at), FarRegion(r, h, at, kerf);
    var N, F := Near(S, h, at), Far(S, h, at, kerf);
    var b := LargestHi(N, h);
    q := Hi(b, h);
    FreesInside(near, n, N, kerf, b);
    SameSides(S, h, at, kerf, b);
    MovedEdges(r, h, at, kerf, q);
    MovedEdges(r, h, at, kerf, Min(q + kerf, Hi(r, h)));
    if F != [] { FreesSomething(far, f, F, kerf); }
    near' := ShrinkFar(near, n, N, kerf, h, q);
    GrowNear(far, f, F, kerf, h, Min(q + kerf, Hi(r, h)));
  }

  /** A cut with nothing on its near side and nobody flush behind it was not needed. */
  lemma DropCut(h: bool, at: int, near: GTree, far: GTree, r: Box, S: seq<Box>, kerf: nat)
    requires Frees(Cut(h, at, near, far), r, S, kerf) && S != []
    requires Near(S, h, at) == [] && NoneFlush(Far(S, h, at, kerf), h, at + kerf)
    ensures Frees(far, r, S, kerf)
  {
    hide Frees, Side;
    FreesCut(h, at, near, far, r, S, kerf);
    AllFar(S, h, at, kerf);
    MovedEdges(r, h, at, kerf, Lo(r, h));
    GrowNear(far, FarRegion(r, h, at, kerf), S, kerf, h, Lo(r, h));
  }

  /** Candidate cuts lose nothing: whatever a tree of cuts placed anywhere frees,
      a tree in the search space frees too. */
  lemma {:induction false} CandidateCutsSuffice(t: GTree, r: Box, S: seq<Box>, kerf: nat) returns (c: GTree)
    requires Frees(t, r, S, kerf) && AllSolid(S)
    ensures Searchable(c, r, S, kerf)
    decreases Extent(r), Size(t)
  {
    if S == [] || S == [r] {
      c := if S == [] then Empty else Whole;
    } else {
      if !t.Cut? { FreesLeaf(t, r, S, kerf); }
      var Cut(h, at, near, far) := t;
      FreesCut(h, at, near, far, r, S, kerf);
      hide Frees, Side, Searchable;
      var q, near' := at, near;
      if NoneFlush(Far(S, h, at, kerf), h, at + kerf) {
        if Near(S, h, at) == [] {
          DropCut(h, at, near, far, r, S, kerf);
          c := CandidateCutsSuffice(far, r, S, kerf);
          return;
        }
        q, near' := SlideBack(h, at, near, far, r, S, kerf);
      } else {
        FreesSomething(far, FarRegion(r, h, at, kerf), Far(S, h, at, kerf), kerf);
      }
      SidesShrink(r, h, q, kerf);
      var n := CandidateCutsSuffice(near', NearRegion(r, h, q), Near(S, h, q), kerf);
      var f := CandidateCutsSuffice(far, FarRegion(r, h, q, kerf), Far(S, h, q, kerf), kerf);
      if Far(S, h, q, kerf) == [] { SearchableNothing(f, FarRegion(r, h, q, kerf), [], kerf); }
      c := Cut(h, q, n, f);
      SearchableCut(h, q, n, f, r, S, kerf);
    }
  }

  lemma SearchableNothing(t: GTree, r: Box, S: seq<Box>, kerf: nat)
    requires S == []
    ensures Searchable(t, r, S, kerf) <==> t == Empty
  {
  }

  /** The two notions of cuttable agree. */
  lemma CuttableIffSearchable(r: Box, S: seq<Box>, kerf: nat)
    requires AllSolid(S)
    ensures Cuttable(r, S, kerf) <==> exists c :: Searchable(c, r, S, kerf)
  {
    if Cuttable(r, S, kerf) {
      var t :| Frees(t, r, S, kerf);
      var c := CandidateCutsSuffice(t, r, S, kerf);
    }
    if c :| Searchable(c, r, S, kerf) {
      SearchableFrees(c, r, S, kerf);
    }
  }
}
