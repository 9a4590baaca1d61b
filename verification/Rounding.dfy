/**
Why a sheet laid out in rounded units can be cut in real ones: pieces only get
smaller, the blade only gets thinner and the sheet only gets larger.
*/
module Rounding {
  import opened Geometry
  import opened Guillotine
  import opened Surgery
  import opened Filling
  import opened Strips

  /** Box for box, `S'` starts where `S` does and ends no later. */
  predicate Shrunk(S': seq<Box>, S: seq<Box>) {
    && |S'| == |S|
    && forall i :: 0 <= i < |S| ==>
         && S'[i].x0 == S[i].x0 && S'[i].y0 == S[i].y0
         && S'[i].x1 <= S[i].x1 && S'[i].y1 <= S[i].y1
  }

  lemma NoneShrunk(S': seq<Box>, h: bool, q: int, far: bool)
    requires Shrunk(S', [])
    ensures Shrunk(Side(S', h, q, far), Side([], h, q, far))
  {
  }

  lemma SameSide(b': Box, b: Box, h: bool, at: int, kerf: nat, far: bool)
    requires Solid(b) && Solid(b') && b'.x0 == b.x0 && b'.y0 == b.y0 && b'.x1 <= b.x1 && b'.y1 <= b.y1
    requires OnSide(b, h, at, false) || OnSide(b, h, at + kerf, true)
    ensures var q := if far then at + kerf else at;
            OnSide(b', h, q, far) <==> OnSide(b, h, q, far)
  {
  }

  lemma ShrunkLast(A': seq<Box>, A: seq<Box>, b': Box, b: Box)
    requires Shrunk(A', A) && b'.x0 == b.x0 && b'.y0 == b.y0 && b'.x1 <= b.x1 && b'.y1 <= b.y1
    ensures Shrunk(A' + [b'], A + [b]) && Shrunk(A' + [], A + [])
  {
  }

  lemma ShrunkFirst(S': seq<Box>, S: seq<Box>)
    requires Shrunk(S', S) && S != []
    ensures var n := |S| - 1;
            && |S'| == |S| && Shrunk(S'[..n], S[..n]) && S == S[..n] + [S[n]] && S' == S'[..n] + [S'[n]]
            && S'[n].x0 == S[n].x0 && S'[n].y0 == S[n].y0 && S'[n].x1 <= S[n].x1 && S'[n].y1 <= S[n].y1
  {
  }

  /** On either side of a clear blade the shrunk boxes are those of the boxes there. */
  lemma {:induction false} ShrunkSide(S': seq<Box>, S: seq<Box>, h: bool, at: int, kerf: nat, far: bool)
    requires Shrunk(S', S) && AllSolid(S) && AllSolid(S') && Clear(S, h, at, kerf)
    ensures var q := if far then at + kerf else at;
            Shrunk(Side(S', h, q, far), Side(S, h, q, far))
  {
    hide Side, OnSide, Shrunk;
    var q := if far then at + kerf else at;
    if S == [] {
      NoneShrunk(S', h, q, far);
    } else {
      var n := |S| - 1;
      ShrunkFirst(S', S);
      assert S[n] in S && S'[n] in S';
      SameSide(S'[n], S[n], h, at, kerf, far);
      assert Clear(S[..n], h, at, kerf) by { assert forall b :: b in S[..n] ==> b in S; }
      ShrunkSide(S'[..n], S[..n], h, at, kerf, far);
      SideLast(S[..n], S[n], h, q, far);
      SideLast(S'[..n], S'[n], h, q, far);
      ShrunkLast(Side(S'[..n], h, q, far), Side(S[..n], h, q, far), S'[n], S[n]);
    }
  }

  lemma ShrunkClear(S': seq<Box>, S: seq<Box>, h: bool, at: int, kerf: nat)
    requires Shrunk(S', S) && Clear(S, h, at, kerf)
    ensures Clear(S', h, at, kerf)
  {
    forall b | b in S' ensures OnSide(b, h, at, false) || OnSide(b, h, at + kerf, true) {
      var i :| 0 <= i < |S'| && S'[i] == b;
      assert S[i] in S;
    }
  }

  /** A region that held exactly one box holds the smaller one: two trims. */
  lemma TrimToCorner(r: Box, b: Box, kerf: nat) returns (t: GTree)
    requires Solid(b) && Solid(r) && b.x0 == r.x0 && b.y0 == r.y0 && b.x1 <= r.x1 && b.y1 <= r.y1
    ensures Frees(t, r, [b], kerf)
  {
    var row := WithHi(r, true, b.y1);
    t := Whole;
    assert WithHi(row, false, b.x1) == b;
    StripInTail(t, row, false, b.x1, [b], kerf);
    t := StripTree(t, row, false, b.x1);
    StripInTail(t, r, true, b.y1, [b], kerf);
    t := StripTree(t, r, true, b.y1);
  }

  lemma ShrinkLeaf(t: GTree, r: Box, S: seq<Box>, S': seq<Box>, kerf: nat) returns (t': GTree)
    requires !t.Cut? && Frees(t, r, S, kerf) && Shrunk(S', S) && AllSolid(S) && AllSolid(S')
    ensures Frees(t', r, S', kerf) && (t == Empty ==> t' == Empty)
  {
    t' := t;
    if t == Whole {
      assert r in S && S'[0] in S' && S' == [S'[0]];
      t' := TrimToCorner(r, S'[0], kerf);
    }
  }

  /** Pieces may shrink towards their near corner. */
  lemma {:induction false} ShrinkPieces(t: GTree, r: Box, S: seq<Box>, S': seq<Box>, kerf: nat) returns (t': GTree)
    requires Frees(t, r, S, kerf) && Shrunk(S', S) && AllSolid(S) && AllSolid(S')
    ensures Frees(t', r, S', kerf) && (t == Empty ==> t' == Empty)
  {
    hide Frees, Side, Shrunk;
    if !t.Cut? {
      t' := ShrinkLeaf(t, r, S, S', kerf);
    } else {
      var Cut(h, at, near, far) := t;
      FreesCut(h, at, near, far, r, S, kerf);
      ShrunkClear(S', S, h, at, kerf);
      ShrunkSide(S', S, h, at, kerf, false);
      ShrunkSide(S', S, h, at, kerf, true);
      var n := ShrinkPieces(near, NearRegion(r, h, at), Near(S, h, at), Near(S', h, at), kerf);
      var f := ShrinkPieces(far, FarRegion(r, h, at, kerf), Far(S, h, at, kerf), Far(S', h, at, kerf), kerf);
      t' := Cut(h, at, n, f);
      CutFrees(h, at, n, f, r, S', kerf);
    }
  }

  // ---- offcuts as pieces -------------------------------------------------------

  lemma {:induction false} OffcutSolid(t: GTree, r: Box, S: seq<Box>, kerf: nat, b: Box)
    requires Frees(t, r, S, kerf) && Solid(r) && b in Offcuts(t, r, kerf)
    ensures Solid(b)
  {
    if t.Cut? {
      var Cut(h, at, near, far) := t;
      if b in Offcuts(near, NearRegion(r, h, at), kerf) {
        OffcutSolid(near, NearRegion(r, h, at), Near(S, h, at), kerf, b);
      } else {
        OffcutSolid(far, FarRegion(r, h, at, kerf), Far(S, h, at, kerf), kerf, b);
      }
    }
  }

  /** Boxes inside either part of a cut region, told apart by the blade. */
  lemma PartsSides(On: seq<Box>, Of: seq<Box>, r: Box, h: bool, at: int, kerf: nat)
    requires AllSolid(On) && AllSolid(Of)
    requires forall b :: b in On ==> Inside(b, NearRegion(r, h, at))
    requires forall b :: b in Of ==> Inside(b, FarRegion(r, h, at, kerf)) && Solid(FarRegion(r, h, at, kerf))
    ensures Clear(On + Of, h, at, kerf) && Near(On + Of, h, at) == On && Far(On + Of, h, at, kerf) == Of
  {
    hide Side;
    SideConcat(On, Of, h, at, false);
    SideConcat(On, Of, h, at + kerf, true);
    SideAll(On, h, at, false);
    SideNone(On, h, at + kerf, true);
    SideNone(Of, h, at, false);
    SideAll(Of, h, at + kerf, true);
  }

  lemma OffcutParts(t: GTree, r: Box, S: seq<Box>, kerf: nat)
    requires Frees(t, r, S, kerf) && Solid(r)
    ensures AllSolid(Offcuts(t, r, kerf)) && forall b :: b in Offcuts(t, r, kerf) ==> Inside(b, r)
  {
    hide Frees, Offcuts;
    forall b | b in Offcuts(t, r, kerf) ensures Solid(b) && Inside(b, r) {
      OffcutInside(t, r, S, kerf, b);
      OffcutSolid(t, r, S, kerf, b);
    }
  }

  /** Pieces and offcuts together can be cut out of the region. */
  lemma {:induction false} ClaimFrees(t: GTree, r: Box, S: seq<Box>, kerf: nat)
    requires Frees(t, r, S, kerf) && Solid(r)
    ensures Cuttable(r, S + Offcuts(t, r, kerf), kerf)
  {
    if !t.Cut? {
      assert S + Offcuts(t, r, kerf) == [r];
      assert Frees(Whole, r, [r], kerf);
    } else {
      var Cut(h, at, near, far) := t;
      FreesCut(h, at, near, far, r, S, kerf);
      var n, f := NearRegion(r, h, at), FarRegion(r, h, at, kerf);
      var On, Of := Offcuts(near, n, kerf), if Solid(f) then Offcuts(far, f, kerf) else [];
      assert Offcuts(t, r, kerf) == On + Of;
      hide Frees, Side, Offcuts;
      ClaimFrees(near, n, Near(S, h, at), kerf);
      OffcutParts(near, n, Near(S, h, at), kerf);
      if Solid(f) {
        ClaimFrees(far, f, Far(S, h, at, kerf), kerf);
        OffcutParts(far, f, Far(S, h, at, kerf), kerf);
      } else {
        FreesLeaf(Empty, f, Far(S, h, at, kerf), kerf);
      }
      PartsSides(On, Of, r, h, at, kerf);
      JoinClaims(r, S, h, at, On, Of, kerf);
    }
  }

  lemma JoinClaims(r: Box, S: seq<Box>, h: bool, at: int, On: seq<Box>, Of: seq<Box>, kerf: nat)
    requires Lo(r, h) < at < Hi(r, h) && Clear(S, h, at, kerf) && Clear(On + Of, h, at, kerf)
    requires Near(On + Of, h, at) == On && Far(On + Of, h, at, kerf) == Of
    requires Cuttable(NearRegion(r, h, at), Near(S, h, at) + On, kerf)
    requires if Solid(FarRegion(r, h, at, kerf))
             then Cuttable(FarRegion(r, h, at, kerf), Far(S, h, at, kerf) + Of, kerf)
             else Far(S, h, at, kerf) == [] && Of == []
    ensures Cuttable(r, S + (On + Of), kerf)
  {
    hide Frees, Side;
    var O := On + Of;
    SideConcat(S, O, h, at, false);
    SideConcat(S, O, h, at + kerf, true);
    var n :| Frees(n, NearRegion(r, h, at), Near(S, h, at) + On, kerf);
    var f := Empty;
    if Solid(FarRegion(r, h, at, kerf)) {
      f :| Frees(f, FarRegion(r, h, at, kerf), Far(S, h, at, kerf) + Of, kerf);
    } else {
      NothingLeft(FarRegion(r, h, at, kerf), kerf);
    }
    CutFrees(h, at, n, f, r, S + O, kerf);
  }

  // ---- rounding ----------------------------------------------------------------

  /** A layout in rounded units, pieces and offcuts alike, can be cut in real ones:
      `S'` are the real pieces in the rounded slots `S`, `R` some of the offcuts. */
  lemma RoundedLayoutIsSound(t: GTree, r: Box, S: seq<Box>, kerf: nat, r': Box, S': seq<Box>, R: seq<Box>, thin: nat)
    requires Frees(t, r, S, kerf) && Solid(r) && multiset(R) <= multiset(Offcuts(t, r, kerf))
    requires Shrunk(S', S) && AllSolid(S') && thin <= kerf
    requires r'.x0 == r.x0 && r'.y0 == r.y0 && r.x1 <= r'.x1 && r.y1 <= r'.y1
    ensures Cuttable(r', S' + R, thin)
  {
    hide Frees, Offcuts;
    ClaimFrees(t, r, S, kerf);
    CuttableHereditary(r, S + Offcuts(t, r, kerf), S + R, kerf);
    var u :| Frees(u, r, S + R, kerf);
    FreesSolid(u, r, S + R, kerf);
    forall b | b in S' + R ensures Solid(b) { if b in R { assert b in S + R; } }
    forall b | b in S ensures Solid(b) { assert b in S + R; }
    u := ShrinkPieces(u, r, S + R, S' + R, kerf);
    u := ThinBlade(u, r, S' + R, kerf, thin);
    var wide := WithHi(r, false, r'.x1);
    StripInTail(u, wide, false, r.x1, S' + R, thin);
    u := StripTree(u, wide, false, r.x1);
    StripInTail(u, r', true, r.y1, S' + R, thin);
    assert Frees(StripTree(u, r', true, r.y1), r', S' + R, thin);
  }
}
