/**
sheet_check.py: whether a sheet laid out by hand can be cut, and the shortcut that
decides it for a piece placed in a leftover.
*/
module SheetCheck {
  import opened Geometry
  import opened Guillotine
  import opened Surgery
  import opened CandidateCuts
  import opened Plans
  import opened Filling
  import opened Sheets
  import opened Derive

  // ---- the rule for one piece in a region ------------------------------------------

  /** On its near side a piece is flush with the region or more than a blade away. */
  predicate NearSlackOk(b: Box, r: Box, kerf: nat, h: bool) {
    Lo(b, h) == Lo(r, h) || Lo(b, h) - Lo(r, h) > kerf
  }

  /** The saw can free a piece that is alone in a region. */
  predicate FreeableAlone(b: Box, r: Box, kerf: nat) {
    Inside(b, r) && NearSlackOk(b, r, kerf, false) && NearSlackOk(b, r, kerf, true)
  }

  lemma {:induction false} AloneNeedsSlack(t: GTree, r: Box, b: Box, kerf: nat, h: bool)
    requires Frees(t, r, [b], kerf) && Solid(b)
    ensures NearSlackOk(b, r, kerf, h)
  {
    hide Frees, Side;
    if !t.Cut? {
      FreesLeaf(t, r, [b], kerf);
    } else {
      var Cut(g, at, near, far) := t;
      FreesCut(g, at, near, far, r, [b], kerf);
      assert b in [b];
      if OnSide(b, g, at, false) {
        SideAll([b], g, at, false);
        AloneNeedsSlack(near, NearRegion(r, g, at), b, kerf, h);
      } else {
        SideAll([b], g, at + kerf, true);
        FreesInside(far, FarRegion(r, g, at, kerf), [b], kerf, b);
        AloneNeedsSlack(far, FarRegion(r, g, at, kerf), b, kerf, h);
      }
    }
  }

  /** Past the far edge any slack will do: one cut, which may overhang. */
  lemma CropFar(t: GTree, r: Box, b: Box, kerf: nat, h: bool) returns (t': GTree)
    requires Solid(b) && Lo(r, h) <= Lo(b, h) && Hi(b, h) <= Hi(r, h)
    requires Frees(t, WithHi(r, h, Hi(b, h)), [b], kerf)
    ensures Frees(t', r, [b], kerf)
  {
    hide Frees, Side;
    if Hi(b, h) < Hi(r, h) {
      SideAll([b], h, Hi(b, h), false);
      SideNone([b], h, Hi(b, h) + kerf, true);
      t' := TrimFar(t, r, [b], kerf, h, Hi(b, h));
    } else {
      assert WithHi(r, h, Hi(b, h)) == r;
      t' := t;
    }
  }

  /** Before the near edge the blade must land strictly inside the region. */
  lemma CropNear(t: GTree, r: Box, b: Box, kerf: nat, h: bool) returns (t': GTree)
    requires Solid(b) && Inside(b, r) && NearSlackOk(b, r, kerf, h)
    requires Frees(t, WithLo(r, h, Lo(b, h)), [b], kerf)
    ensures Frees(t', r, [b], kerf)
  {
    hide Frees, Side;
    if Lo(b, h) == Lo(r, h) {
      assert WithLo(r, h, Lo(b, h)) == r;
      t' := t;
    } else {
      var at := Lo(b, h) - kerf;
      SideNone([b], h, at, false);
      SideAll([b], h, at + kerf, true);
      NothingLeft(NearRegion(r, h, at), kerf);
      assert FarRegion(r, h, at, kerf) == WithLo(r, h, Lo(b, h));
      t' := Cut(h, at, Empty, t);
      CutFrees(h, at, Empty, t, r, [b], kerf);
    }
  }

  /** For one piece alone in a region the rule is exactly cuttability. */
  lemma AloneCuttableIff(r: Box, b: Box, kerf: nat)
    requires Solid(b)
    ensures Cuttable(r, [b], kerf) <==> FreeableAlone(b, r, kerf)
  {
    hide Frees;
    if Cuttable(r, [b], kerf) {
      var t :| Frees(t, r, [b], kerf);
      FreesInside(t, r, [b], kerf, b);
      AloneNeedsSlack(t, r, b, kerf, false);
      AloneNeedsSlack(t, r, b, kerf, true);
    }
    if FreeableAlone(b, r, kerf) {
      var t := FreeAlone(r, b, kerf);
    }
  }

  lemma FreeAlone(r: Box, b: Box, kerf: nat) returns (t: GTree)
    requires Solid(b) && FreeableAlone(b, r, kerf)
    ensures Frees(t, r, [b], kerf)
  {
    hide Frees;
    FreesLeaf(Whole, b, [b], kerf);
    var r1 := r.(x0 := b.x0);
    var r2 := r1.(y0 := b.y0);
    var r3 := r2.(x1 := b.x1);
    t := CropFar(Whole, r3, b, kerf, true);
    t := CropFar(t, r2, b, kerf, false);
    t := CropNear(t, r1, b, kerf, true);
    t := CropNear(t, r, b, kerf, false);
  }

  // ---- the shortcut -----------------------------------------------------------------

  /** `_freeable_in_leftover`: the box sits in a leftover where the saw can free it. */
  predicate FreeableInLeftover(b: Box, leftovers: seq<Box>, kerf: nat) {
    exists r :: r in leftovers && FreeableAlone(b, r, kerf)
  }

  /** The shortcut never accepts what the full derivation would refuse: a box that
      passes it in a leftover of a derived tree can be cut together with everything
      already on the sheet. */
  lemma ShortcutIsSound(plan: Plan, bounds: Box, S: seq<Box>, g: Config, b: Box)
    requires LeastReport(plan, bounds, S, g) && Solid(b)
    requires FreeableInLeftover(b, plan.rects, g.kerf)
    ensures Cuttable(bounds, S + [b], g.kerf)
  {
    hide Searchable, PlanOf, ScoreOf, Frees, FreeableAlone;
    var c :| Searchable(c, bounds, S, g.kerf) && plan == PlanOf(c, bounds, g);
    var r :| r in plan.rects && FreeableAlone(b, r, g.kerf);
    ReportedOffcuts(c, bounds, g, r);
    var u := FreeAlone(r, b, g.kerf);
    SearchableFrees(c, bounds, S, g.kerf);
    GraftFrees(c, bounds, S, g.kerf, r, u, [b]);
  }
}
