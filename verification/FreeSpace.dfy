/**
free_rectangles of sheet_check.py: the maximal empty rectangles of a sheet, kept
up to date one obstacle at a time.
*/
module FreeSpace {
  import opened Geometry

  function Inflate(o: Box, kerf: int): Box {
    Box(o.x0 - kerf, o.y0 - kerf, o.x1 + kerf, o.y1 + kerf)
  }

  /** The interiors of `f` and the inflated obstacle `i` do not meet. */
  predicate Misses(f: Box, i: Box) {
    i.x0 >= f.x1 || i.x1 <= f.x0 || i.y0 >= f.y1 || i.y1 <= f.y0
  }

  lemma MissesIsApart(b: Box, o: Box, kerf: int)
    ensures Misses(b, Inflate(o, kerf)) <==> Separation(b, o) >= kerf
  {
  }

  /** A place for something: inside the sheet, not flat, a blade from every obstacle. */
  predicate IsFree(b: Box, bounds: Box, obstacles: seq<Box>, kerf: int) {
    Solid(b) && Inside(b, bounds) && forall o :: o in obstacles ==> Separation(b, o) >= kerf
  }

  /** A free place no other free place contains. */
  ghost predicate MaximalFree(b: Box, bounds: Box, obstacles: seq<Box>, kerf: int) {
    && IsFree(b, bounds, obstacles, kerf)
    && forall c :: IsFree(c, bounds, obstacles, kerf) && Inside(b, c) ==> c == b
  }

  predicate NoDuplicates(S: seq<Box>) {
    forall b :: b in S ==> multiset(S)[b] == 1
  }

  predicate NoneInside(S: seq<Box>) {
    forall a, b :: a in S && b in S && Inside(a, b) ==> a == b
  }

  /** What the loop maintains: the list holds free places, none twice and none
      inside another, and every free place lies in one of them. */
  ghost predicate Covers(free: seq<Box>, bounds: Box, obstacles: seq<Box>, kerf: int) {
    && (forall f :: f in free ==> IsFree(f, bounds, obstacles, kerf))
    && (forall b :: IsFree(b, bounds, obstacles, kerf) ==> exists f :: f in free && Inside(b, f))
    && NoneInside(free) && NoDuplicates(free)
  }

  lemma ListedIsFree(free: seq<Box>, bounds: Box, obstacles: seq<Box>, kerf: int, f: Box)
    requires Covers(free, bounds, obstacles, kerf) && f in free
    ensures IsFree(f, bounds, obstacles, kerf) && Solid(f) && Inside(f, bounds)
  {
    hide NoneInside, NoDuplicates;
  }

  lemma ListedAround(free: seq<Box>, bounds: Box, obstacles: seq<Box>, kerf: int, b: Box) returns (f: Box)
    requires Covers(free, bounds, obstacles, kerf) && IsFree(b, bounds, obstacles, kerf)
    ensures f in free && Inside(b, f)
  {
    hide NoneInside, NoDuplicates, IsFree;
    f :| f in free && Inside(b, f);
  }

  lemma ListedApart(free: seq<Box>, bounds: Box, obstacles: seq<Box>, kerf: int, a: Box, b: Box)
    requires Covers(free, bounds, obstacles, kerf) && a in free && b in free && Inside(a, b)
    ensures a == b
  {
    hide IsFree, NoDuplicates;
  }

  lemma ListedIsMaximal(free: seq<Box>, bounds: Box, obstacles: seq<Box>, kerf: int, b: Box)
    requires Covers(free, bounds, obstacles, kerf) && b in free
    ensures MaximalFree(b, bounds, obstacles, kerf)
  {
    ListedIsFree(free, bounds, obstacles, kerf, b);
    hide Covers;
    forall c | IsFree(c, bounds, obstacles, kerf) && Inside(b, c) ensures c == b {
      var f := ListedAround(free, bounds, obstacles, kerf, c);
      ListedApart(free, bounds, obstacles, kerf, b, f);
    }
    hide IsFree;
  }

  lemma MaximalIsListed(free: seq<Box>, bounds: Box, obstacles: seq<Box>, kerf: int, b: Box)
    requires Covers(free, bounds, obstacles, kerf) && MaximalFree(b, bounds, obstacles, kerf)
    ensures b in free
  {
    hide IsFree, NoDuplicates, NoneInside;
    var f :| f in free && Inside(b, f);
    assert f == b;
  }

  /** Such a list is exactly the maximal free places. */
  lemma CoversIsMaximal(free: seq<Box>, bounds: Box, obstacles: seq<Box>, kerf: int)
    requires Covers(free, bounds, obstacles, kerf)
    ensures forall b :: b in free <==> MaximalFree(b, bounds, obstacles, kerf)
  {
    hide Covers, MaximalFree;
    forall b ensures b in free <==> MaximalFree(b, bounds, obstacles, kerf) {
      if b in free { ListedIsMaximal(free, bounds, obstacles, kerf, b); }
      if MaximalFree(b, bounds, obstacles, kerf) { MaximalIsListed(free, bounds, obstacles, kerf, b); }
    }
  }

  // ---- cutting one obstacle out ------------------------------------------------

  /** The up to four parts of `f` beside an inflated obstacle. */
  function Parts(f: Box, i: Box): seq<Box> {
    (if i.x0 > f.x0 then [Box(f.x0, f.y0, i.x0, f.y1)] else [])
    + (if i.x1 < f.x1 then [Box(i.x1, f.y0, f.x1, f.y1)] else [])
    + (if i.y0 > f.y0 then [Box(f.x0, f.y0, f.x1, i.y0)] else [])
    + (if i.y1 < f.y1 then [Box(f.x0, i.y1, f.x1, f.y1)] else [])
  }

  lemma PartsAreInside(f: Box, i: Box, s: Box)
    requires Solid(f) && !Misses(f, i) && s in Parts(f, i)
    ensures Solid(s) && Inside(s, f) && s != f && Misses(s, i)
  {
  }

  /** What an obstacle misses inside `f` lies in one of the parts. */
  lemma PartsCover(f: Box, i: Box, b: Box) returns (s: Box)
    requires Solid(b) && Inside(b, f) && Misses(b, i) && !Misses(f, i)
    ensures s in Parts(f, i) && Inside(b, s)
  {
    s := if b.x1 <= i.x0 then Box(f.x0, f.y0, i.x0, f.y1)
         else if i.x1 <= b.x0 then Box(i.x1, f.y0, f.x1, f.y1)
         else if b.y1 <= i.y0 then Box(f.x0, f.y0, f.x1, i.y0)
         else Box(f.x0, i.y1, f.x1, f.y1);
  }

  /** `outer` makes `inner` redundant; of two equal boxes neither erases the other. */
  predicate Swallows(outer: Box, inner: Box) {
    outer != inner && Inside(inner, outer) && (!Inside(outer, inner) || Before(outer, inner))
  }

  /** The free list split around an inflated obstacle: what it leaves alone, and
      the parts of what it meets. */
  ghost predicate SplitAround(free: seq<Box>, i: Box, kept: seq<Box>, split: seq<Box>) {
    && (forall b :: multiset(kept)[b] == if Misses(b, i) then multiset(free)[b] else 0)
    && (forall s :: s in split ==> exists f :: f in free && !Misses(f, i) && Solid(f) && s in Parts(f, i))
    && (forall f :: f in free && !Misses(f, i) && Solid(f) ==> forall s :: s in Parts(f, i) ==> s in split)
  }

  /** Everything nobody else in `kept` or `parts` makes redundant. */
  ghost predicate Survivors(kept: seq<Box>, parts: seq<Box>, left: seq<Box>) {
    && NoDuplicates(left)
    && (forall s :: s in left <==> s in parts && (forall o :: o in kept || o in parts ==> !Swallows(o, s)))
  }

  /** Containment chains end: whatever is among the parts lies in a survivor, or in
      a rectangle the obstacle left alone. */
  lemma {:induction false} SurvivorFor(kept: seq<Box>, parts: seq<Box>, left: seq<Box>, s: Box, bounds: Box)
    returns (f: Box)
    requires Survivors(kept, parts, left) && s in parts
    requires forall p :: p in parts ==> Inside(p, bounds) && Solid(p)
    ensures (f in kept || f in left) && Inside(s, f)
    decreases Width(bounds) + Height(bounds) - Width(s) - Height(s)
  {
    if s in left {
      f := s;
    } else {
      var o :| (o in kept || o in parts) && Swallows(o, s);
      if o in kept {
        f := o;
      } else {
        f := SurvivorFor(kept, parts, left, o, bounds);
      }
    }
  }

  lemma FreeOfOneMore(b: Box, bounds: Box, obstacles: seq<Box>, kerf: int, o: Box)
    ensures IsFree(b, bounds, obstacles + [o], kerf) <==>
            IsFree(b, bounds, obstacles, kerf) && Misses(b, Inflate(o, kerf))
  {
    MissesIsApart(b, o, kerf);
    hide Misses, Separation, Inflate;
    if IsFree(b, bounds, obstacles + [o], kerf) {
      assert o in obstacles + [o];
      assert forall c :: c in obstacles ==> c in obstacles + [o];
    }
  }

  lemma PartOfFreeIsFree(b: Box, f: Box, bounds: Box, obstacles: seq<Box>, kerf: int)
    requires IsFree(f, bounds, obstacles, kerf) && Inside(b, f) && Solid(b)
    ensures IsFree(b, bounds, obstacles, kerf)
  {
    forall o | o in obstacles ensures Separation(b, o) >= kerf {
      assert Separation(f, o) >= kerf;
    }
  }

  lemma KeptIsOld(free: seq<Box>, i: Box, kept: seq<Box>, split: seq<Box>, f: Box)
    requires SplitAround(free, i, kept, split)
    ensures f in kept <==> f in free && Misses(f, i)
    ensures multiset(kept)[f] <= multiset(free)[f]
  {
    hide Misses, Parts;
    assert f in kept <==> multiset(kept)[f] > 0;
    assert f in free <==> multiset(free)[f] > 0;
  }

  lemma CutFrom(free: seq<Box>, i: Box, kept: seq<Box>, split: seq<Box>, s: Box) returns (f: Box)
    requires SplitAround(free, i, kept, split) && s in split
    ensures f in free && Solid(s) && Inside(s, f) && s != f && Misses(s, i)
  {
    hide Misses, Parts;
    f :| f in free && !Misses(f, i) && Solid(f) && s in Parts(f, i);
    PartsAreInside(f, i, s);
  }

  lemma PartAround(free: seq<Box>, i: Box, kept: seq<Box>, split: seq<Box>, f: Box, b: Box) returns (s: Box)
    requires SplitAround(free, i, kept, split) && f in free && f !in kept && Solid(f)
    requires Solid(b) && Inside(b, f) && Misses(b, i)
    ensures s in split && Inside(b, s)
  {
    KeptIsOld(free, i, kept, split, f);
    s := PartsCover(f, i, b);
    hide Misses, Parts;
  }

  /** A part is no rectangle the obstacle left alone, nor around one: it is strictly
      inside the rectangle it was cut from. */
  lemma PartVersusKept(free: seq<Box>, bounds: Box, obstacles: seq<Box>, kerf: int, i: Box, kept: seq<Box>,
                       split: seq<Box>, s: Box, k: Box)
    requires Covers(free, bounds, obstacles, kerf) && SplitAround(free, i, kept, split)
    requires s in split && k in kept
    ensures !Inside(k, s)
  {
    hide Covers, SplitAround, Misses;
    var f := CutFrom(free, i, kept, split, s);
    KeptIsOld(free, i, kept, split, k);
    if Inside(k, s) {
      ListedApart(free, bounds, obstacles, kerf, k, f);
    }
  }

  lemma NextIsFree(free: seq<Box>, bounds: Box, obstacles: seq<Box>, kerf: int, o: Box, kept: seq<Box>, split: seq<Box>,
                   f: Box)
    requires Covers(free, bounds, obstacles, kerf) && SplitAround(free, Inflate(o, kerf), kept, split)
    requires f in kept || f in split
    ensures IsFree(f, bounds, obstacles + [o], kerf) && Solid(f) && Inside(f, bounds)
  {
    hide Covers, SplitAround, Misses, IsFree;
    FreeOfOneMore(f, bounds, obstacles, kerf, o);
    if f in kept {
      KeptIsOld(free, Inflate(o, kerf), kept, split, f);
      ListedIsFree(free, bounds, obstacles, kerf, f);
    } else {
      var g := CutFrom(free, Inflate(o, kerf), kept, split, f);
      ListedIsFree(free, bounds, obstacles, kerf, g);
      PartOfFreeIsFree(f, g, bounds, obstacles, kerf);
    }
  }

  lemma FreeIsSolid(b: Box, bounds: Box, obstacles: seq<Box>, kerf: int)
    requires IsFree(b, bounds, obstacles, kerf)
    ensures Solid(b)
  {
  }

  lemma NextCovers(free: seq<Box>, bounds: Box, obstacles: seq<Box>, kerf: int, o: Box, kept: seq<Box>, split: seq<Box>,
                   parts: seq<Box>, left: seq<Box>, b: Box) returns (g: Box)
    requires Covers(free, bounds, obstacles, kerf) && SplitAround(free, Inflate(o, kerf), kept, split)
    requires (forall s :: s in parts <==> s in split) && Survivors(kept, parts, left)
    requires IsFree(b, bounds, obstacles + [o], kerf)
    ensures g in kept + left && Inside(b, g)
  {
    hide Covers, SplitAround, Survivors, Misses, IsFree, Inflate;
    var i := Inflate(o, kerf);
    FreeIsSolid(b, bounds, obstacles + [o], kerf);
    FreeOfOneMore(b, bounds, obstacles, kerf, o);
    var f := ListedAround(free, bounds, obstacles, kerf, b);
    if f in kept {
      g := f;
    } else {
      ListedIsFree(free, bounds, obstacles, kerf, f);
      var s := PartAround(free, i, kept, split, f, b);
      forall p | p in parts ensures Inside(p, bounds) && Solid(p) {
        NextIsFree(free, bounds, obstacles, kerf, o, kept, split, p);
      }
      g := SurvivorFor(kept, parts, left, s, bounds);
    }
  }

  lemma NotSwallowed(kept: seq<Box>, parts: seq<Box>, left: seq<Box>, a: Box, b: Box)
    requires Survivors(kept, parts, left) && a in left && (b in kept || b in left) && Inside(a, b)
    ensures a == b
  {
    assert !Swallows(b, a);
  }

  lemma NextIsAntichain(free: seq<Box>, bounds: Box, obstacles: seq<Box>, kerf: int, i: Box, kept: seq<Box>,
                        split: seq<Box>, parts: seq<Box>, left: seq<Box>)
    requires Covers(free, bounds, obstacles, kerf) && SplitAround(free, i, kept, split)
    requires (forall s :: s in parts <==> s in split) && Survivors(kept, parts, left)
    ensures NoneInside(kept + left)
  {
    SurvivorsArePartsOnce(kept, parts, left);
    hide Covers, SplitAround, Survivors, Misses;
    forall a, b | a in kept + left && b in kept + left && Inside(a, b) ensures a == b {
      if a in left {
        NotSwallowed(kept, parts, left, a, b);
      } else if b in left {
        PartVersusKept(free, bounds, obstacles, kerf, i, kept, split, b, a);
      } else {
        KeptIsOld(free, i, kept, split, a);
        KeptIsOld(free, i, kept, split, b);
        ListedApart(free, bounds, obstacles, kerf, a, b);
      }
    }
  }

  lemma SurvivorsArePartsOnce(kept: seq<Box>, parts: seq<Box>, left: seq<Box>)
    requires Survivors(kept, parts, left)
    ensures NoDuplicates(left) && forall s :: s in left ==> s in parts
  {
  }

  lemma NextHasNoDuplicates(free: seq<Box>, bounds: Box, obstacles: seq<Box>, kerf: int, i: Box, kept: seq<Box>,
                            split: seq<Box>, parts: seq<Box>, left: seq<Box>)
    requires Covers(free, bounds, obstacles, kerf) && SplitAround(free, i, kept, split)
    requires (forall s :: s in parts <==> s in split) && Survivors(kept, parts, left)
    ensures NoDuplicates(kept + left)
  {
    SurvivorsArePartsOnce(kept, parts, left);
    assert NoDuplicates(free);
    hide Covers, SplitAround, Survivors, Misses;
    forall b | b in kept + left ensures multiset(kept + left)[b] == 1 {
      KeptIsOld(free, i, kept, split, b);
      if b in kept && b in left {
        PartVersusKept(free, bounds, obstacles, kerf, i, kept, split, b, b);
      }
      assert b in kept <==> multiset(kept)[b] > 0;
      assert b in left <==> multiset(left)[b] > 0;
    }
  }

  /** One obstacle cut out. Rectangles it leaves alone need no second look: none of
      them can lie inside a part of another. */
  lemma StepCovers(free: seq<Box>, bounds: Box, obstacles: seq<Box>, kerf: int, o: Box, kept: seq<Box>, split: seq<Box>,
                   parts: seq<Box>, left: seq<Box>)
    requires Covers(free, bounds, obstacles, kerf) && SplitAround(free, Inflate(o, kerf), kept, split)
    requires (forall s :: s in parts <==> s in split) && Survivors(kept, parts, left)
    ensures Covers(kept + left, bounds, obstacles + [o], kerf)
  {
    NextIsAntichain(free, bounds, obstacles, kerf, Inflate(o, kerf), kept, split, parts, left);
    NextHasNoDuplicates(free, bounds, obstacles, kerf, Inflate(o, kerf), kept, split, parts, left);
    forall f | f in kept + left ensures IsFree(f, bounds, obstacles + [o], kerf) {
      NextIsFree(free, bounds, obstacles, kerf, o, kept, split, f);
    }
    forall b | IsFree(b, bounds, obstacles + [o], kerf) ensures exists f :: f in kept + left && Inside(b, f) {
      var g := NextCovers(free, bounds, obstacles, kerf, o, kept, split, parts, left, b);
    }
    hide SplitAround, Survivors, IsFree, NoneInside, NoDuplicates;
  }

  // ---- the loop ------------------------------------------------------------------

  lemma NoDuplicatesLast(S: seq<Box>, b: Box)
    requires NoDuplicates(S) && b !in S
    ensures NoDuplicates(S + [b])
  {
    forall c | c in S + [b] ensures multiset(S + [b])[c] == 1 {
      assert multiset(S + [b])[c] == multiset(S)[c] + multiset([b])[c];
      if c in S { assert c != b; }
    }
  }

  /** `sorted(set(...))`, built one box at a time. */
  function InsertOnce(S: seq<Box>, b: Box): (r: seq<Box>)
    ensures forall c :: c in r <==> c in S || c == b
    ensures multiset(r) == if b in S then multiset(S) else multiset(S) + multiset{b}
  {
    if b in S then S
    else if S == [] || Before(S[|S|-1], b) then S + [b]
    else
      assert S == S[..|S|-1] + [S[|S|-1]];
      InsertOnce(S[..|S|-1], b) + [S[|S|-1]]
  }

  function SortedSet(S: seq<Box>): (r: seq<Box>)
    ensures forall c :: c in r <==> c in S
    ensures NoDuplicates(r)
  {
    if S == [] then []
    else
      var rest, b := SortedSet(S[..|S|-1]), S[|S|-1];
      var r := InsertOnce(rest, b);
      assert NoDuplicates(r) by {
        if b !in rest {
          NoDuplicatesLast(rest, b);
          assert multiset(rest + [b]) == multiset(r);
        }
      }
      r
  }

  predicate RowBefore(a: Box, b: Box) {
    || a.y0 < b.y0
    || (a.y0 == b.y0 && a.x0 < b.x0)
    || (a.y0 == b.y0 && a.x0 == b.x0 && a.y1 < b.y1)
    || (a.y0 == b.y0 && a.x0 == b.x0 && a.y1 == b.y1 && a.x1 < b.x1)
  }

  /** Sorted from the bottom up, then from the left. */
  function InsertRow(S: seq<Box>, b: Box): (r: seq<Box>)
    ensures multiset(r) == multiset(S) + multiset{b}
  {
    if S == [] || !RowBefore(b, S[|S|-1]) then S + [b]
    else
      assert S == S[..|S|-1] + [S[|S|-1]];
      InsertRow(S[..|S|-1], b) + [S[|S|-1]]
  }

  function SortRows(S: seq<Box>): (r: seq<Box>)
    ensures multiset(r) == multiset(S)
  {
    if S == [] then []
    else
      assert S == S[..|S|-1] + [S[|S|-1]];
      InsertRow(SortRows(S[..|S|-1]), S[|S|-1])
  }

  method SplitFree(free: seq<Box>, i: Box) returns (kept: seq<Box>, split: seq<Box>)
    requires AllSolid(free)
    ensures SplitAround(free, i, kept, split)
  {
    hide Misses, Parts;
    kept, split := [], [];
    for k := 0 to |free|
      invariant SplitAround(free[..k], i, kept, split)
    {
      var f := free[k];
      assert f in free;
      SplitOneMore(free[..k], i, kept, split, f);
      assert free[..k+1] == free[..k] + [f];
      if Misses(f, i) {
        kept := kept + [f];
      } else {
        split := split + Parts(f, i);
      }
    }
    assert free[..|free|] == free;
  }

  lemma SplitOneMore(free: seq<Box>, i: Box, kept: seq<Box>, split: seq<Box>, f: Box)
    requires SplitAround(free, i, kept, split) && Solid(f)
    ensures Misses(f, i) ==> SplitAround(free + [f], i, kept + [f], split)
    ensures !Misses(f, i) ==> SplitAround(free + [f], i, kept, split + Parts(f, i))
  {
    hide Misses, Parts;
    if Misses(f, i) {
      forall s | s in split ensures exists g :: g in free + [f] && !Misses(g, i) && Solid(g) && s in Parts(g, i) {
        var g :| g in free && !Misses(g, i) && Solid(g) && s in Parts(g, i);
        assert g in free + [f];
      }
    } else {
      forall s | s in split + Parts(f, i)
        ensures exists g :: g in free + [f] && !Misses(g, i) && Solid(g) && s in Parts(g, i)
      {
        if s in split {
          var g :| g in free && !Misses(g, i) && Solid(g) && s in Parts(g, i);
          assert g in free + [f];
        } else {
          assert f in free + [f];
        }
      }
    }
  }

  method Unswallowed(kept: seq<Box>, parts: seq<Box>) returns (left: seq<Box>)
    requires NoDuplicates(parts)
    ensures Survivors(kept, parts, left)
  {
    hide Swallows;
    left := [];
    for k := 0 to |parts|
      invariant NoDuplicates(left) && forall b :: multiset(left)[b] <= multiset(parts[..k])[b]
      invariant forall s :: s in left <==> s in parts[..k] && (forall o :: o in kept || o in parts ==> !Swallows(o, s))
    {
      var s := parts[k];
      ghost var before := parts[..k];
      assert parts[..k+1] == before + [s];
      OnceOnly(parts, k);
      if (forall o :: o in kept ==> !Swallows(o, s)) && (forall o :: o in parts ==> !Swallows(o, s)) {
        NoDuplicatesLast(left, s);
        left := left + [s];
      }
    }
    assert parts[..|parts|] == parts;
  }

  lemma OnceOnly(S: seq<Box>, k: nat)
    requires NoDuplicates(S) && k < |S|
    ensures S[k] !in S[..k]
  {
    assert S == S[..k] + [S[k]] + S[k+1..];
    assert multiset(S)[S[k]] == 1 by { assert S[k] in S; }
  }

  /** The maximal free places of a sheet, each once. */
  method FreeRectangles(bounds: Box, obstacles: seq<Box>, kerf: int) returns (free: seq<Box>)
    ensures forall b :: b in free <==> MaximalFree(b, bounds, obstacles, kerf)
    ensures NoDuplicates(free) && NoneInside(free)
    ensures forall b :: IsFree(b, bounds, obstacles, kerf) ==> exists f :: f in free && Inside(b, f)
  {
    free := if Solid(bounds) then [bounds] else [];
    CoversAtFirst(bounds, kerf);
    hide IsFree, MaximalFree, SplitAround, Survivors, Misses, NoneInside;
    for k := 0 to |obstacles|
      invariant Covers(free, bounds, obstacles[..k], kerf)
    {
      var i := Inflate(obstacles[k], kerf);
      forall f | f in free ensures Solid(f) { ListedIsFree(free, bounds, obstacles[..k], kerf, f); }
      var kept, split := SplitFree(free, i);
      var parts := SortedSet(split);
      var left := Unswallowed(kept, parts);
      StepCovers(free, bounds, obstacles[..k], kerf, obstacles[k], kept, split, parts, left);
      assert obstacles[..k+1] == obstacles[..k] + [obstacles[k]];
      free := kept + left;
    }
    assert obstacles[..|obstacles|] == obstacles;
    CoversIsMaximal(free, bounds, obstacles, kerf);
    SameListed(free, SortRows(free), bounds, obstacles, kerf);
    free := SortRows(free);
  }

  lemma CoversAtFirst(bounds: Box, kerf: int)
    ensures Covers(if Solid(bounds) then [bounds] else [], bounds, [], kerf)
  {
    var free := if Solid(bounds) then [bounds] else [];
    forall b | IsFree(b, bounds, [], kerf) ensures exists f :: f in free && Inside(b, f) {
      assert Solid(bounds) && bounds in free;
    }
  }

  lemma SameListed(S: seq<Box>, S': seq<Box>, bounds: Box, obstacles: seq<Box>, kerf: int)
    requires Covers(S, bounds, obstacles, kerf) && multiset(S) == multiset(S')
    ensures Covers(S', bounds, obstacles, kerf) && forall b :: b in S <==> b in S'
  {
    hide IsFree;
    forall b ensures b in S <==> b in S' { assert b in multiset(S) <==> b in multiset(S'); }
  }
}
