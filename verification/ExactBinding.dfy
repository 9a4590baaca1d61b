/**
How exact.py attaches concrete pieces to the rows of a solved assignment: a cursor
per type, walking the columns in canonical order.
*/
module ExactBinding {
  import opened Sequences
  import opened Sheets
  import opened Strips
  import opened ExactModel
  import opened ExactColumns

  datatype Bound = Bound(row: Row, piece: Piece)

  datatype BoundColumn = BoundColumn(width: int, rows: seq<Bound>)

  /** The piece the cursor of its type is at when a row's turn comes. */
  function PieceFor(earlier: seq<Row>, r: Row, groups: seq<seq<Piece>>): Piece
    requires r.kind < |groups| && 0 <= CountKind(earlier, r.kind) < |groups[r.kind]|
  {
    groups[r.kind][CountKind(earlier, r.kind)]
  }

  lemma {:induction false} CountsNonNegative(rows: seq<Row>, kind: nat)
    ensures CountKind(rows, kind) >= 0
  {
    if rows != [] { CountsNonNegative(rows[..|rows|-1], kind); }
  }

  /** Fewer rows need fewer pieces, and the next one still finds its own. */
  lemma EnoughForPrefix(rows: seq<Row>, more: seq<Row>, groups: seq<seq<Piece>>)
    requires Enough(rows + more, groups)
    ensures Enough(rows, groups)
    ensures more != [] ==> more[0].kind < |groups| && 0 <= CountKind(rows, more[0].kind) < |groups[more[0].kind]|
  {
    forall r | r in rows ensures r.kind < |groups| { assert r in rows + more; }
    forall t: nat ensures 0 <= CountKind(rows, t) <= CountKind(rows + more, t) {
      SumByConcat(OfKind(t), rows, more);
      CountsNonNegative(rows, t);
      CountsNonNegative(more, t);
    }
    if more != [] {
      assert more[0] in rows + more;
      var t, rest := more[0].kind, more[1..];
      assert more == [more[0]] + rest;
      SumByConcat(OfKind(t), rows, more);
      SumByConcat(OfKind(t), [more[0]], rest);
      CountsNonNegative(rest, t);
      SumByLast(OfKind(t), [], more[0]);
      assert [] + [more[0]] == [more[0]];
    }
  }

  /** The rows of one column bound, `earlier` rows having been bound before. */
  function BindRows(earlier: seq<Row>, rows: seq<Row>, groups: seq<seq<Piece>>): (r: seq<Bound>)
    requires Enough(earlier + rows, groups)
    ensures |r| == |rows|
    ensures forall i :: 0 <= i < |rows| ==> r[i].row == rows[i]
    ensures forall b :: b in r ==> b.row.kind < |groups| && b.piece in groups[b.row.kind]
  {
    if rows == [] then []
    else
      var init, last := rows[..|rows|-1], rows[|rows|-1];
      assert earlier + rows == earlier + init + [last];
      EnoughForPrefix(earlier + init, [last], groups);
      BindRows(earlier, init, groups) + [Bound(last, PieceFor(earlier + init, last, groups))]
  }

  function BindColumns(ts: seq<Template>, groups: seq<seq<Piece>>): (r: seq<BoundColumn>)
    requires Enough(AllRows(ts), groups)
    ensures |r| == |ts|
    ensures forall i :: 0 <= i < |ts| ==> r[i].width == ts[i].width
  {
    if ts == [] then []
    else
      var init, last := ts[..|ts|-1], ts[|ts|-1];
      EnoughForPrefix(AllRows(init), last.rows, groups);
      BindColumns(init, groups) + [BoundColumn(last.width, BindRows(AllRows(init), last.rows, groups))]
  }

  // ---- every piece at most once --------------------------------------------------------

  function PiecesOn(rows: seq<Bound>): (r: seq<Piece>)
    ensures |r| == |rows| && forall i :: 0 <= i < |r| ==> r[i] == rows[i].piece
  {
    seq(|rows|, i requires 0 <= i < |rows| => rows[i].piece)
  }

  function PiecesIn(columns: seq<BoundColumn>): seq<Piece> {
    if columns == [] then [] else PiecesIn(columns[..|columns|-1]) + PiecesOn(columns[|columns|-1].rows)
  }

  function Flatten(groups: seq<seq<Piece>>): seq<Piece> {
    if groups == [] then [] else Flatten(groups[..|groups|-1]) + groups[|groups|-1]
  }

  /** Of each of the first `n` types, the pieces before its cursor. */
  ghost function Taken(rows: seq<Row>, groups: seq<seq<Piece>>, n: nat): multiset<Piece>
    requires n <= |groups| && Enough(rows, groups)
  {
    if n == 0 then multiset{}
    else
      CountsNonNegative(rows, n - 1);
      Taken(rows, groups, n - 1) + multiset(groups[n-1][..CountKind(rows, n - 1)])
  }

  lemma OneMoreTaken(g: seq<Piece>, c: nat)
    requires c < |g|
    ensures multiset(g[..c+1]) == multiset(g[..c]) + multiset{g[c]}
  {
    assert g[..c+1] == g[..c] + [g[c]];
  }

  lemma {:induction false} TakenNext(rows: seq<Row>, r: Row, groups: seq<seq<Piece>>, n: nat)
    requires n <= |groups| && Enough(rows + [r], groups) && Enough(rows, groups)
    requires r.kind < |groups| && 0 <= CountKind(rows, r.kind) < |groups[r.kind]|
    ensures Taken(rows + [r], groups, n) ==
            Taken(rows, groups, n) + if r.kind < n then multiset{PieceFor(rows, r, groups)} else multiset{}
  {
    hide Enough, CountKind, Taken;
    if n == 0 {
      TakenNone(rows, groups);
      TakenNone(rows + [r], groups);
    } else {
      TakenNext(rows, r, groups, n - 1);
      CountNext(rows, r, n - 1);
      TakenOneType(rows, groups, n);
      TakenOneType(rows + [r], groups, n);
      if r.kind == n - 1 { OneMoreTaken(groups[n-1], CountKind(rows, n - 1)); }
    }
  }

  lemma TakenNone(rows: seq<Row>, groups: seq<seq<Piece>>)
    requires Enough(rows, groups)
    ensures Taken(rows, groups, 0) == multiset{}
  {
  }

  lemma TakenOneType(rows: seq<Row>, groups: seq<seq<Piece>>, n: nat)
    requires 0 < n <= |groups| && Enough(rows, groups)
    ensures 0 <= CountKind(rows, n - 1) <= |groups[n-1]|
    ensures Taken(rows, groups, n) == Taken(rows, groups, n - 1) + multiset(groups[n-1][..CountKind(rows, n - 1)])
  {
    CountsNonNegative(rows, n - 1);
  }

  lemma {:induction false} TakenNothing(groups: seq<seq<Piece>>, n: nat)
    requires n <= |groups| && Enough([], groups)
    ensures Taken([], groups, n) == multiset{}
  {
    if n > 0 { TakenNothing(groups, n - 1); }
  }

  lemma EnoughOf(rows: seq<Row>, groups: seq<seq<Piece>>, t: nat)
    requires Enough(rows, groups) && t < |groups|
    ensures 0 <= CountKind(rows, t) <= |groups[t]|
  {
    CountsNonNegative(rows, t);
  }

  lemma TakenPart(g: seq<Piece>, c: nat)
    requires c <= |g|
    ensures multiset(g[..c]) <= multiset(g) && (c == |g| ==> multiset(g[..c]) == multiset(g))
  {
    assert g == g[..c] + g[c..];
  }

  lemma {:induction false} TakenAtMost(rows: seq<Row>, groups: seq<seq<Piece>>, n: nat)
    requires n <= |groups| && Enough(rows, groups)
    ensures Taken(rows, groups, n) <= multiset(Flatten(groups[..n]))
    ensures (forall t: nat :: t < n ==> CountKind(rows, t) == |groups[t]|) ==>
            Taken(rows, groups, n) == multiset(Flatten(groups[..n]))
  {
    hide Enough, CountKind;
    if n > 0 {
      EnoughOf(rows, groups, n - 1);
      TakenAtMost(rows, groups, n - 1);
      assert groups[..n][..n-1] == groups[..n-1];
      TakenPart(groups[n-1], CountKind(rows, n - 1));
    }
  }

  lemma {:induction false} BindRowsTakes(earlier: seq<Row>, rows: seq<Row>, groups: seq<seq<Piece>>)
    requires Enough(earlier + rows, groups) && Enough(earlier, groups)
    ensures Taken(earlier + rows, groups, |groups|) ==
            Taken(earlier, groups, |groups|) + multiset(PiecesOn(BindRows(earlier, rows, groups)))
  {
    hide Taken, Enough, CountKind;
    if rows == [] {
      assert earlier + rows == earlier;
      assert PiecesOn(BindRows(earlier, rows, groups)) == [];
    } else {
      var init, last := rows[..|rows|-1], rows[|rows|-1];
      assert earlier + rows == earlier + init + [last];
      EnoughForPrefix(earlier + init, [last], groups);
      BindRowsTakes(earlier, init, groups);
      TakenNext(earlier + init, last, groups, |groups|);
      assert PiecesOn(BindRows(earlier, rows, groups)) ==
             PiecesOn(BindRows(earlier, init, groups)) + [PieceFor(earlier + init, last, groups)];
    }
  }

  lemma {:induction false} BindColumnsTakes(ts: seq<Template>, groups: seq<seq<Piece>>)
    requires Enough(AllRows(ts), groups)
    ensures Taken(AllRows(ts), groups, |groups|) == multiset(PiecesIn(BindColumns(ts, groups)))
  {
    hide Taken, Enough, BindRows;
    if ts == [] {
      TakenNothing(groups, |groups|);
    } else {
      var init, last := ts[..|ts|-1], ts[|ts|-1];
      EnoughForPrefix(AllRows(init), last.rows, groups);
      BindColumnsTakes(init, groups);
      BindRowsTakes(AllRows(init), last.rows, groups);
      var columns := BindColumns(ts, groups);
      assert columns[..|columns|-1] == BindColumns(init, groups);
    }
  }

  /** No piece is attached twice, and none is left when the model asked for all. */
  lemma BindingConserves(ts: seq<Template>, groups: seq<seq<Piece>>)
    requires Enough(AllRows(ts), groups)
    ensures multiset(PiecesIn(BindColumns(ts, groups))) <= multiset(Flatten(groups))
    ensures (forall t: nat :: t < |groups| ==> CountKind(AllRows(ts), t) == |groups[t]|) ==>
              multiset(PiecesIn(BindColumns(ts, groups))) == multiset(Flatten(groups))
  {
    hide Taken, Enough, BindColumns;
    BindColumnsTakes(ts, groups);
    TakenAtMost(AllRows(ts), groups, |groups|);
    assert groups[..|groups|] == groups;
  }

  // ---- binding, step by step -------------------------------------------------------------

  /** Binds column after column, row after row, advancing one cursor per type. */
  method BindInstances(ts: seq<Template>, groups: seq<seq<Piece>>) returns (columns: seq<BoundColumn>)
    requires Enough(AllRows(ts), groups)
    ensures columns == BindColumns(ts, groups)
  {
    hide Enough;
    columns := [];
    var cursors: seq<int> := seq(|groups|, _ => 0);
    NoRowsNoCounts();
    AllRowsPrefix(ts, 0, groups);
    for j := 0 to |ts|
      invariant |cursors| == |groups|
      invariant forall t: nat :: t < |groups| ==> cursors[t] == CountKind(AllRows(ts[..j]), t)
      invariant Enough(AllRows(ts[..j]), groups)
      invariant columns == BindColumns(ts[..j], groups)
    {
      AllRowsNext(ts, j, groups);
      var bound: seq<Bound>;
      ghost var earlier := AllRows(ts[..j]);
      bound, cursors := BindColumn(earlier, ts[j].rows, groups, cursors);
      columns := columns + [BoundColumn(ts[j].width, bound)];
      assert ts[..j+1][..j] == ts[..j];
    }
    assert ts[..|ts|] == ts;
  }

  lemma NoRowsNoCounts()
    ensures forall t :: CountKind(AllRows([]), t) == 0
  {
  }

  lemma AllRowsNext(ts: seq<Template>, j: nat, groups: seq<seq<Piece>>)
    requires j < |ts| && Enough(AllRows(ts), groups)
    ensures AllRows(ts[..j+1]) == AllRows(ts[..j]) + ts[j].rows
    ensures Enough(AllRows(ts[..j+1]), groups)
  {
    assert ts[..j+1][..j] == ts[..j];
    AllRowsPrefix(ts, j + 1, groups);
  }

  lemma {:induction false} AllRowsPrefix(ts: seq<Template>, j: nat, groups: seq<seq<Piece>>)
    requires j <= |ts| && Enough(AllRows(ts), groups)
    ensures Enough(AllRows(ts[..j]), groups)
  {
    hide Enough;
    if j < |ts| {
      EnoughForPrefix(AllRows(ts[..|ts|-1]), ts[|ts|-1].rows, groups);
      AllRowsPrefix(ts[..|ts|-1], j, groups);
      assert ts[..|ts|-1][..j] == ts[..j];
    } else {
      assert ts[..j] == ts;
    }
  }

  method BindColumn(ghost earlier: seq<Row>, rows: seq<Row>, groups: seq<seq<Piece>>, cursors: seq<int>)
    returns (bound: seq<Bound>, advanced: seq<int>)
    requires Enough(earlier + rows, groups) && |cursors| == |groups|
    requires forall t: nat :: t < |groups| ==> cursors[t] == CountKind(earlier, t)
    ensures bound == BindRows(earlier, rows, groups)
    ensures |advanced| == |groups| && forall t: nat :: t < |groups| ==> advanced[t] == CountKind(earlier + rows, t)
  {
    hide Enough, CountKind;
    bound, advanced := [], cursors;
    assert earlier + rows[..0] == earlier;
    assert earlier + rows == earlier + rows[..0] + rows;
    EnoughForPrefix(earlier, rows, groups);
    for i := 0 to |rows|
      invariant Enough(earlier + rows[..i], groups)
      invariant bound == BindRows(earlier, rows[..i], groups)
      invariant |advanced| == |groups|
      invariant forall t: nat :: t < |groups| ==> advanced[t] == CountKind(earlier + rows[..i], t)
    {
      var r := rows[i];
      assert rows[..i+1] == rows[..i] + [r] && rows[..i+1][..i] == rows[..i];
      assert earlier + rows == earlier + rows[..i] + rows[i..];
      EnoughForPrefix(earlier + rows[..i], rows[i..], groups);
      assert rows == rows[..i+1] + rows[i+1..];
      assert earlier + rows == earlier + rows[..i+1] + rows[i+1..];
      EnoughForPrefix(earlier + rows[..i+1], rows[i+1..], groups);
      assert earlier + rows[..i+1] == earlier + rows[..i] + [r];
      forall t: nat
        ensures CountKind(earlier + rows[..i+1], t) ==
                CountKind(earlier + rows[..i], t) + if r.kind == t then 1 else 0
      {
        CountNext(earlier + rows[..i], r, t);
      }
      bound := bound + [Bound(r, groups[r.kind][advanced[r.kind]])];
      advanced := advanced[r.kind := advanced[r.kind] + 1];
    }
    assert rows[..|rows|] == rows;
  }

  lemma CountNext(rows: seq<Row>, r: Row, t: nat)
    ensures CountKind(rows + [r], t) == CountKind(rows, t) + if r.kind == t then 1 else 0
  {
    SumByLast(OfKind(t), rows, r);
  }
}
