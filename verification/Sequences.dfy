/**
Sums, images and sorts of sequences, as far as they do not depend on order.
*/
module Sequences {
  /** An element of one arrangement found in the other, and both without it. */
  lemma OneTaken<T>(a: seq<T>, b: seq<T>) returns (i: nat)
    requires multiset(a) == multiset(b) && a != []
    ensures i < |b| && b[i] == a[|a|-1] && b == b[..i] + [b[i]] + b[i+1..]
    ensures multiset(a[..|a|-1]) == multiset(b[..i] + b[i+1..])
  {
    var last := a[|a|-1];
    assert a == a[..|a|-1] + [last];
    assert last in multiset(b);
    i :| 0 <= i < |b| && b[i] == last;
    assert b == b[..i] + [last] + b[i+1..];
    var rest := b[..i] + b[i+1..];
    assert multiset(b) == multiset(rest) + multiset{last};
    assert multiset(a) == multiset(a[..|a|-1]) + multiset{last};
    assert multiset(a[..|a|-1]) == multiset(a) - multiset{last};
    assert multiset(rest) == multiset(b) - multiset{last};
  }

  lemma NothingElse<T>(a: seq<T>, b: seq<T>)
    requires multiset(a) == multiset(b)
    ensures |a| == |b|
  {
    assert |multiset(a)| == |a| && |multiset(b)| == |b|;
  }

  /** The elements of a multiset in some order. */
  ghost function AnyListing<T>(m: multiset<T>): (xs: seq<T>)
    ensures multiset(xs) == m
    decreases |m|
  {
    if m == multiset{} then []
    else
      var x :| x in m;
      assert m == m - multiset{x} + multiset{x};
      AnyListing(m - multiset{x}) + [x]
  }

  // ---- sums ----------------------------------------------------------------

  function SumBy<T>(f: T -> int, xs: seq<T>): int {
    if xs == [] then 0 else SumBy(f, xs[..|xs|-1]) + f(xs[|xs|-1])
  }

  lemma SumByLast<T>(f: T -> int, xs: seq<T>, x: T)
    ensures SumBy(f, xs + [x]) == SumBy(f, xs) + f(x)
  {
    assert (xs + [x])[..|xs|] == xs;
  }

  lemma {:induction false} SumByConcat<T>(f: T -> int, a: seq<T>, b: seq<T>)
    ensures SumBy(f, a + b) == SumBy(f, a) + SumBy(f, b)
  {
    if b == [] {
      assert a + b == a;
    } else {
      assert (a + b)[..|a + b|-1] == a + b[..|b|-1];
      SumByConcat(f, a, b[..|b|-1]);
    }
  }

  /** A sum does not depend on the order of its terms. */
  lemma {:induction false} SumByPermuted<T>(f: T -> int, a: seq<T>, b: seq<T>)
    requires multiset(a) == multiset(b)
    ensures SumBy(f, a) == SumBy(f, b)
  {
    NothingElse(a, b);
    if a != [] {
      var i := OneTaken(a, b);
      SumByPermuted(f, a[..|a|-1], b[..i] + b[i+1..]);
      SumByConcat(f, b[..i], b[i+1..]);
      SumByLast(f, b[..i], b[i]);
      SumByConcat(f, b[..i] + [b[i]], b[i+1..]);
    }
  }

  /** The contents of all members together. */
  ghost function UnionBy<T, U>(f: T -> multiset<U>, xs: seq<T>): multiset<U> {
    if xs == [] then multiset{} else UnionBy(f, xs[..|xs|-1]) + f(xs[|xs|-1])
  }

  lemma {:induction false} UnionByConcat<T, U>(f: T -> multiset<U>, a: seq<T>, b: seq<T>)
    ensures UnionBy(f, a + b) == UnionBy(f, a) + UnionBy(f, b)
  {
    if b == [] {
      assert a + b == a;
    } else {
      assert (a + b)[..|a + b|-1] == a + b[..|b|-1];
      UnionByConcat(f, a, b[..|b|-1]);
    }
  }

  lemma {:induction false} UnionByPermuted<T, U>(f: T -> multiset<U>, a: seq<T>, b: seq<T>)
    requires multiset(a) == multiset(b)
    ensures UnionBy(f, a) == UnionBy(f, b)
  {
    NothingElse(a, b);
    if a != [] {
      var i := OneTaken(a, b);
      UnionByPermuted(f, a[..|a|-1], b[..i] + b[i+1..]);
      UnionByConcat(f, b[..i], b[i+1..]);
      assert (b[..i] + [b[i]])[..i] == b[..i];
      UnionByConcat(f, b[..i] + [b[i]], b[i+1..]);
    }
  }

  // ---- images ----------------------------------------------------------------

  function MapBy<T, U>(f: T -> U, xs: seq<T>): (r: seq<U>)
    ensures |r| == |xs| && forall i :: 0 <= i < |xs| ==> r[i] == f(xs[i])
  {
    if xs == [] then [] else MapBy(f, xs[..|xs|-1]) + [f(xs[|xs|-1])]
  }

  lemma {:induction false} MapByPermuted<T, U>(f: T -> U, a: seq<T>, b: seq<T>)
    requires multiset(a) == multiset(b)
    ensures multiset(MapBy(f, a)) == multiset(MapBy(f, b))
  {
    NothingElse(a, b);
    if a != [] {
      var i := OneTaken(a, b);
      MapByPermuted(f, a[..|a|-1], b[..i] + b[i+1..]);
      MapTaken(f, b, i);
    }
  }

  /** If `f` cannot tell apart what `key` cannot, then neither can a listing of its values. */
  lemma {:induction false} MapByKey<T, K, U>(key: T -> K, f: T -> U, a: seq<T>, b: seq<T>)
    requires multiset(MapBy(key, a)) == multiset(MapBy(key, b))
    requires forall x, y :: x in a && y in b && key(x) == key(y) ==> f(x) == f(y)
    ensures multiset(MapBy(f, a)) == multiset(MapBy(f, b))
  {
    hide MapBy;
    NothingElse(MapBy(key, a), MapBy(key, b));
    if a != [] {
      var n := |a| - 1;
      var i := OneTaken(MapBy(key, a), MapBy(key, b));
      assert MapBy(key, a)[..n] == MapBy(key, a[..n]);
      var rest := b[..i] + b[i+1..];
      assert MapBy(key, b)[..i] + MapBy(key, b)[i+1..] == MapBy(key, rest);
      MapByKey(key, f, a[..n], rest);
      assert a[n] in a && b[i] in b && f(a[n]) == f(b[i]);
      MapTaken(f, b, i);
      assert a == a[..n] + [a[n]];
      MapByConcat(f, a[..n], [a[n]]);
      assert MapBy(f, [a[n]]) == [f(a[n])];
    }
  }

  lemma MapByConcat<T, U>(f: T -> U, a: seq<T>, b: seq<T>)
    ensures MapBy(f, a + b) == MapBy(f, a) + MapBy(f, b)
  {
    hide MapBy;
  }

  lemma MapTaken<T, U>(f: T -> U, b: seq<T>, i: nat)
    requires i < |b|
    ensures multiset(MapBy(f, b)) == multiset(MapBy(f, b[..i] + b[i+1..])) + multiset{f(b[i])}
  {
    var x, y := MapBy(f, b[..i]), MapBy(f, b[i+1..]);
    MapByApart(f, b, i);
    MapByConcat(f, b[..i], b[i+1..]);
    OneBetween(x, f(b[i]), y);
  }

  lemma MapByApart<T, U>(f: T -> U, b: seq<T>, i: nat)
    requires i < |b|
    ensures MapBy(f, b) == MapBy(f, b[..i]) + [f(b[i])] + MapBy(f, b[i+1..])
  {
    hide MapBy;
  }

  lemma OneBetween<T>(a: seq<T>, x: T, b: seq<T>)
    ensures multiset(a + [x] + b) == multiset(a + b) + multiset{x}
  {
  }

  // ---- sorts -----------------------------------------------------------------

  ghost predicate TotalOrder<T(!new)>(le: (T, T) -> bool) {
    && (forall a, b :: le(a, b) || le(b, a))
    && (forall a, b :: le(a, b) && le(b, a) ==> a == b)
    && (forall a, b, c :: le(a, b) && le(b, c) ==> le(a, c))
  }

  predicate Sorted<T>(le: (T, T) -> bool, xs: seq<T>) {
    forall i, j :: 0 <= i < j < |xs| ==> le(xs[i], xs[j])
  }

  function InsertBy<T>(le: (T, T) -> bool, xs: seq<T>, x: T): (r: seq<T>)
    ensures multiset(r) == multiset(xs) + multiset{x}
  {
    if xs == [] || le(xs[|xs|-1], x) then xs + [x]
    else
      assert xs == xs[..|xs|-1] + [xs[|xs|-1]];
      InsertBy(le, xs[..|xs|-1], x) + [xs[|xs|-1]]
  }

  function SortBy<T>(le: (T, T) -> bool, xs: seq<T>): (r: seq<T>)
    ensures multiset(r) == multiset(xs)
  {
    if xs == [] then []
    else
      assert xs == xs[..|xs|-1] + [xs[|xs|-1]];
      InsertBy(le, SortBy(le, xs[..|xs|-1]), xs[|xs|-1])
  }

  lemma {:induction false} InsertBySorted<T(!new)>(le: (T, T) -> bool, xs: seq<T>, x: T)
    requires TotalOrder(le) && Sorted(le, xs)
    ensures Sorted(le, InsertBy(le, xs, x))
  {
    if xs != [] && !le(xs[|xs|-1], x) {
      var init, last := xs[..|xs|-1], xs[|xs|-1];
      InsertBySorted(le, init, x);
      var r := InsertBy(le, init, x);
      forall i | 0 <= i < |r| ensures le(r[i], last) {
        assert r[i] in multiset(init) + multiset{x};
        if r[i] in init { var j :| 0 <= j < |init| && init[j] == r[i]; }
      }
    } else if xs != [] {
      forall i | 0 <= i < |xs| ensures le(xs[i], x) {
        if i < |xs| - 1 { assert le(xs[i], xs[|xs|-1]); }
      }
    }
  }

  lemma {:induction false} SortBySorts<T(!new)>(le: (T, T) -> bool, xs: seq<T>)
    requires TotalOrder(le)
    ensures Sorted(le, SortBy(le, xs))
  {
    if xs != [] {
      SortBySorts(le, xs[..|xs|-1]);
      InsertBySorted(le, SortBy(le, xs[..|xs|-1]), xs[|xs|-1]);
    }
  }

  lemma WithoutLast<T>(a: seq<T>, b: seq<T>, x: T)
    requires multiset(a + [x]) == multiset(b + [x])
    ensures multiset(a) == multiset(b)
  {
    assert multiset(a) == multiset(a + [x]) - multiset{x};
    assert multiset(b) == multiset(b + [x]) - multiset{x};
  }

  lemma SameLast<T(!new)>(le: (T, T) -> bool, xs: seq<T>, ys: seq<T>)
    requires TotalOrder(le) && Sorted(le, xs) && Sorted(le, ys) && multiset(xs) == multiset(ys)
    requires |xs| == |ys| > 0
    ensures xs[|xs|-1] == ys[|ys|-1]
  {
    var n := |xs| - 1;
    var x, y := xs[n], ys[n];
    assert x in multiset(ys) && y in multiset(xs);
    var i :| 0 <= i <= n && ys[i] == x;
    var j :| 0 <= j <= n && xs[j] == y;
    assert i == n || le(x, y);
    assert j == n || le(y, x);
  }

  lemma {:induction false} SortedUnique<T(!new)>(le: (T, T) -> bool, xs: seq<T>, ys: seq<T>)
    requires TotalOrder(le) && Sorted(le, xs) && Sorted(le, ys) && multiset(xs) == multiset(ys)
    ensures xs == ys
  {
    NothingElse(xs, ys);
    if xs != [] {
      var n := |xs| - 1;
      SameLast(le, xs, ys);
      assert xs == xs[..n] + [xs[n]] && ys == ys[..n] + [ys[n]];
      WithoutLast(xs[..n], ys[..n], xs[n]);
      SortedUnique(le, xs[..n], ys[..n]);
    }
  }

  /** A sort by a total order forgets the arrangement it started from. */
  lemma SortCanonical<T(!new)>(le: (T, T) -> bool, xs: seq<T>, ys: seq<T>)
    requires TotalOrder(le) && multiset(xs) == multiset(ys)
    ensures SortBy(le, xs) == SortBy(le, ys)
  {
    SortBySorts(le, xs);
    SortBySorts(le, ys);
    SortedUnique(le, SortBy(le, xs), SortBy(le, ys));
  }

  /** The order of tuples of any length. */
  predicate LexAtMost<T(==)>(le: (T, T) -> bool, a: seq<T>, b: seq<T>) {
    if a == [] then true
    else if b == [] then false
    else if a[0] == b[0] then LexAtMost(le, a[1..], b[1..])
    else le(a[0], b[0])
  }

  lemma {:induction false} LexTotal<T(!new)>(le: (T, T) -> bool, a: seq<T>, b: seq<T>)
    requires TotalOrder(le)
    ensures LexAtMost(le, a, b) || LexAtMost(le, b, a)
    ensures LexAtMost(le, a, b) && LexAtMost(le, b, a) ==> a == b
  {
    if a != [] && b != [] && a[0] == b[0] {
      LexTotal(le, a[1..], b[1..]);
      assert a == [a[0]] + a[1..] && b == [b[0]] + b[1..];
    }
  }

  lemma {:induction false} LexTransitive<T(!new)>(le: (T, T) -> bool, a: seq<T>, b: seq<T>, c: seq<T>)
    requires TotalOrder(le) && LexAtMost(le, a, b) && LexAtMost(le, b, c)
    ensures LexAtMost(le, a, c)
  {
    if a != [] && a[0] == b[0] && b[0] == c[0] { LexTransitive(le, a[1..], b[1..], c[1..]); }
  }
}
