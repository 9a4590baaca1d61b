/**
`_grouped` of exact.py and exact3.py: a pool type by type.
*/
module Grouping {
  import opened Geometry
  import opened Sheets
  import opened Constructors
  import opened Strips
  import opened ExactModel
  import opened ExactBinding

  /** The order of piece types as tuples. */
  predicate TypeBefore(a: PieceType, b: PieceType) {
    || a.width < b.width
    || (a.width == b.width && a.height < b.height)
    || (a.width == b.width && a.height == b.height && !a.canRotate && b.canRotate)
    || (a.width == b.width && a.height == b.height && a.canRotate == b.canRotate && a.priority < b.priority)
  }

  /** Groups of one type each, in the order of their types. */
  predicate InOrder(groups: seq<seq<Piece>>) {
    && (forall g :: g in groups ==> g != [])
    && forall i, j :: 0 <= i < j < |groups| ==>
         assert groups[i] in groups && groups[j] in groups; TypeBefore(TypeOf(groups[i][0]), TypeOf(groups[j][0]))
  }

  /** One more piece: at the end of its group, or as a new one. */
  function Put(groups: seq<seq<Piece>>, p: Piece): (r: seq<seq<Piece>>)
    requires Grouped(groups) && InOrder(groups) && ValidPiece(p)
    ensures Grouped(r) && InOrder(r) && multiset(Flatten(r)) == multiset(Flatten(groups)) + multiset{p}
  {
    if groups == [] then
      PutFirst(p);
      [[p]]
    else
      var init, last := groups[..|groups|-1], groups[|groups|-1];
      assert Grouped(init) && InOrder(init) && groups == init + [last] && last in groups;
      if TypeOf(last[0]) == TypeOf(p) then
        PutInto(init, last, p);
        init + [last + [p]]
      else if TypeBefore(TypeOf(last[0]), TypeOf(p)) then
        PutAfter(groups, p);
        groups + [[p]]
      else
        var r := Put(init, p);
        PutBefore(init, last, p, r);
        r + [last]
  }

  lemma FlattenLast(groups: seq<seq<Piece>>, g: seq<Piece>)
    ensures Flatten(groups + [g]) == Flatten(groups) + g
  {
    assert (groups + [g])[..|groups|] == groups;
  }

  lemma PutFirst(p: Piece)
    requires ValidPiece(p)
    ensures Grouped([[p]]) && InOrder([[p]]) && multiset(Flatten([[p]])) == multiset{p}
  {
    FlattenLast([], [p]);
    assert [] + [[p]] == [[p]];
  }

  lemma PutInto(init: seq<seq<Piece>>, last: seq<Piece>, p: Piece)
    requires Grouped(init + [last]) && InOrder(init + [last]) && last != [] && TypeOf(last[0]) == TypeOf(p)
             && ValidPiece(p)
    ensures var r := init + [last + [p]];
            Grouped(r) && InOrder(r) && multiset(Flatten(r)) == multiset(Flatten(init + [last])) + multiset{p}
  {
    hide Flatten, Grouped, InOrder;
    FlattenLast(init, last);
    FlattenLast(init, last + [p]);
    StillGrouped(init, last, p);
    StillInOrder(init, last, p);
  }

  lemma StillGrouped(init: seq<seq<Piece>>, last: seq<Piece>, p: Piece)
    requires Grouped(init + [last]) && last != [] && TypeOf(last[0]) == TypeOf(p) && ValidPiece(p)
    ensures Grouped(init + [last + [p]])
  {
    hide TypeOf, ValidPiece;
    var groups, r, n := init + [last], init + [last + [p]], |init|;
    assert groups[n] == last && r[n] == last + [p] && r[n][0] == last[0];
    forall q | q in r[n] ensures TypeOf(q) == TypeOf(r[n][0]) && ValidPiece(q) {
      if q in last { assert q in groups[n]; }
    }
    forall i | 0 <= i < n ensures r[i] == groups[i] {}
  }

  lemma StillInOrder(init: seq<seq<Piece>>, last: seq<Piece>, p: Piece)
    requires InOrder(init + [last]) && last != []
    ensures InOrder(init + [last + [p]])
  {
    hide TypeBefore, TypeOf;
    var groups, r := init + [last], init + [last + [p]];
    forall i | 0 <= i < |r|
      ensures r[i] != [] && groups[i] != [] && r[i][0] == groups[i][0] { assert groups[i] in groups; }
  }

  lemma PutAfter(groups: seq<seq<Piece>>, p: Piece)
    requires Grouped(groups) && InOrder(groups) && groups != [] && ValidPiece(p)
    requires assert groups[|groups|-1] in groups; TypeBefore(TypeOf(groups[|groups|-1][0]), TypeOf(p))
    ensures var r := groups + [[p]];
            Grouped(r) && InOrder(r) && multiset(Flatten(r)) == multiset(Flatten(groups)) + multiset{p}
  {
    FlattenLast(groups, [p]);
    var r, n := groups + [[p]], |groups|;
    forall i, j | 0 <= i < j < |r| ensures r[i] != [] && r[j] != [] && TypeBefore(TypeOf(r[i][0]), TypeOf(r[j][0])) {
      assert groups[i] in groups && groups[n-1] in groups;
      if j < n { assert groups[j] in groups; }
    }
  }

  lemma PutBefore(init: seq<seq<Piece>>, last: seq<Piece>, p: Piece, r: seq<seq<Piece>>)
    requires Grouped(init + [last]) && InOrder(init + [last]) && last != [] && ValidPiece(p)
    requires TypeOf(last[0]) != TypeOf(p) && !TypeBefore(TypeOf(last[0]), TypeOf(p))
    requires Grouped(r) && InOrder(r) && multiset(Flatten(r)) == multiset(Flatten(init)) + multiset{p}
    ensures Grouped(r + [last]) && InOrder(r + [last])
    ensures multiset(Flatten(r + [last])) == multiset(Flatten(init + [last])) + multiset{p}
  {
    var groups, all := init + [last], r + [last];
    FlattenLast(init, last);
    FlattenLast(r, last);
    assert groups[|init|] == last && all[|r|] == last;
    forall i | 0 <= i < |r| ensures r[i] != [] && TypeBefore(TypeOf(r[i][0]), TypeOf(last[0])) {
      assert r[i] in r;
      FromEither(init, p, r, i);
      if TypeOf(r[i][0]) != TypeOf(p) {
        var k :| 0 <= k < |init| && init[k] != [] && TypeOf(init[k][0]) == TypeOf(r[i][0]);
        assert groups[k] in groups && groups[|init|] in groups && groups[k] == init[k];
      }
    }
    forall i, j | 0 <= i < j < |all|
      ensures all[i] != [] && all[j] != [] && TypeBefore(TypeOf(all[i][0]), TypeOf(all[j][0]))
    {
      if j < |r| { assert r[i] in r && r[j] in r; }
    }
  }

  /** A group of the result is of the new piece's type or of a type there before. */
  lemma FromEither(init: seq<seq<Piece>>, p: Piece, r: seq<seq<Piece>>, i: nat)
    requires Grouped(r) && Grouped(init) && i < |r|
    requires multiset(Flatten(r)) == multiset(Flatten(init)) + multiset{p}
    ensures TypeOf(r[i][0]) == TypeOf(p)
            || exists k :: 0 <= k < |init| && init[k] != [] && TypeOf(init[k][0]) == TypeOf(r[i][0])
  {
    InFlatten(r, i);
    assert r[i][0] in multiset(Flatten(r));
    if r[i][0] != p {
      assert r[i][0] in Flatten(init);
      var k := FlattenFrom(init, r[i][0]);
      assert TypeOf(init[k][0]) == TypeOf(r[i][0]);
    }
  }

  lemma {:induction false} InFlatten(groups: seq<seq<Piece>>, i: nat)
    requires i < |groups| && groups[i] != []
    ensures groups[i][0] in Flatten(groups)
  {
    if i < |groups| - 1 { InFlatten(groups[..|groups|-1], i); }
  }

  lemma {:induction false} FlattenFrom(groups: seq<seq<Piece>>, p: Piece) returns (k: nat)
    requires p in Flatten(groups)
    ensures k < |groups| && p in groups[k]
  {
    var init := groups[..|groups|-1];
    if p in Flatten(init) { k := FlattenFrom(init, p); } else { k := |groups| - 1; }
  }

  /** The pool, in the order given, type by type. */
  function GroupsOf(pool: seq<Piece>): (groups: seq<seq<Piece>>)
    requires AllValid(pool)
    ensures Grouped(groups) && InOrder(groups) && multiset(Flatten(groups)) == multiset(pool)
  {
    if pool == [] then []
    else
      assert pool == pool[..|pool|-1] + [pool[|pool|-1]];
      Put(GroupsOf(pool[..|pool|-1]), pool[|pool|-1])
  }
}
