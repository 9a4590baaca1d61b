/**
The 1-D question of lanes.py: which lanes go on which sheet. First fit, then an
exact backtracking search with symmetry breaking, a width bound and node budgets.
*/
module LanePacking {
  import opened Plans

  function Sum(xs: seq<int>): int {
    if xs == [] then 0 else xs[0] + Sum(xs[1..])
  }

  /** Width a sheet has used, its next lane included: lanes after the first cost a blade. */
  function Need(width: int, used: int, kerf: nat): int {
    width + if used > 0 then kerf else 0
  }

  /** The lanes `ws` can be put, in order, on sheets that already use `used`. */
  ghost predicate Fits(ws: seq<int>, used: seq<int>, caps: seq<int>, kerf: nat)
    requires |used| == |caps|
    decreases |ws|
  {
    ws == [] || exists j :: 0 <= j < |caps| && FitsOn(ws, used, caps, kerf, j)
  }

  /** Likewise, the first of them going on sheet `j`. */
  ghost predicate FitsOn(ws: seq<int>, used: seq<int>, caps: seq<int>, kerf: nat, j: int)
    requires |used| == |caps| && 0 <= j < |caps| && ws != []
    decreases |ws|, 0
  {
    var u := used[j] + Need(ws[0], used[j], kerf);
    u <= caps[j] && Fits(ws[1..], used[j := u], caps, kerf)
  }

  // ---- symmetry: equal sheets are the same choice ---------------------------------

  function Swap(xs: seq<int>, i: int, j: int): (r: seq<int>)
    requires 0 <= i < |xs| && 0 <= j < |xs|
    ensures |r| == |xs|
    ensures forall k :: 0 <= k < |r| ==> r[k] == if k == i then xs[j] else if k == j then xs[i] else xs[k]
  {
    xs[i := xs[j]][j := xs[i]]
  }

  lemma {:induction false} FitsSwapped(ws: seq<int>, used: seq<int>, caps: seq<int>, kerf: nat, i: int, j: int)
    requires |used| == |caps| && 0 <= i < |caps| && 0 <= j < |caps| && caps[i] == caps[j]
    requires Fits(ws, used, caps, kerf)
    ensures Fits(ws, Swap(used, i, j), caps, kerf)
    decreases |ws|
  {
    if ws != [] {
      var k :| 0 <= k < |caps| && FitsOn(ws, used, caps, kerf, k);
      var k' := if k == i then j else if k == j then i else k;
      var u := used[k] + Need(ws[0], used[k], kerf);
      FitsSwapped(ws[1..], used[k := u], caps, kerf, i, j);
      assert Swap(used[k := u], i, j) == Swap(used, i, j)[k' := u];
      assert FitsOn(ws, Swap(used, i, j), caps, kerf, k');
    }
  }

  /** Two sheets in the same state: trying one is trying the other. */
  lemma SameSheetSameChoice(ws: seq<int>, used: seq<int>, caps: seq<int>, kerf: nat, i: int, j: int)
    requires |used| == |caps| && 0 <= i < |caps| && 0 <= j < |caps| && ws != []
    requires used[i] == used[j] && caps[i] == caps[j]
    requires FitsOn(ws, used, caps, kerf, j)
    ensures FitsOn(ws, used, caps, kerf, i)
  {
    var u := used[j] + Need(ws[0], used[j], kerf);
    FitsSwapped(ws[1..], used[j := u], caps, kerf, i, j);
    assert Swap(used[j := u], i, j) == used[i := u];
  }

  // ---- the free-width bound ---------------------------------------------------------

  lemma {:induction false} SumUpdate(xs: seq<int>, j: int, v: int)
    requires 0 <= j < |xs|
    ensures Sum(xs[j := v]) == Sum(xs) - xs[j] + v
  {
    if j == 0 {
      assert xs[0 := v][1..] == xs[1..];
    } else {
      assert xs[j := v][1..] == xs[1..][j-1 := v];
      SumUpdate(xs[1..], j - 1, v);
    }
  }

  lemma {:induction false} SumAtMost(xs: seq<int>, ys: seq<int>)
    requires |xs| == |ys| && forall j :: 0 <= j < |xs| ==> xs[j] <= ys[j]
    ensures Sum(xs) <= Sum(ys)
  {
    if xs != [] { SumAtMost(xs[1..], ys[1..]); }
  }

  /** What still has to be placed never exceeds the free width. */
  lemma {:induction false} FitsInFreeWidth(ws: seq<int>, used: seq<int>, caps: seq<int>, kerf: nat)
    requires |used| == |caps| && forall j :: 0 <= j < |caps| ==> used[j] <= caps[j]
    requires Fits(ws, used, caps, kerf)
    ensures Sum(ws) <= Sum(caps) - Sum(used)
    decreases |ws|
  {
    if ws == [] {
      SumAtMost(used, caps);
    } else {
      var j :| 0 <= j < |caps| && FitsOn(ws, used, caps, kerf, j);
      var u := used[j] + Need(ws[0], used[j], kerf);
      FitsInFreeWidth(ws[1..], used[j := u], caps, kerf);
      SumUpdate(used, j, u);
    }
  }

  // ---- packings ------------------------------------------------------------------------

  predicate Indices(idxs: seq<nat>, n: nat) {
    forall k :: 0 <= k < |idxs| ==> idxs[k] < n
  }

  function WidthsOf(idxs: seq<nat>, widths: seq<int>): (ws: seq<int>)
    requires Indices(idxs, |widths|)
    ensures |ws| == |idxs| && forall k :: 0 <= k < |ws| ==> ws[k] == widths[idxs[k]]
  {
    seq(|idxs|, k requires 0 <= k < |idxs| => widths[idxs[k]])
  }

  function Blades(kerf: nat, n: nat): nat {
    if n == 0 then 0 else kerf + Blades(kerf, n - 1)
  }

  /** Width a sheet has used once lanes `ws` join what already uses `used`. */
  function Load(used: int, ws: seq<int>, kerf: nat): int {
    if ws == [] then used else used + Sum(ws) + Blades(kerf, |ws|) - if used > 0 then 0 else kerf
  }

  function UnionOf(bins: seq<seq<nat>>): multiset<nat> {
    if bins == [] then multiset{} else UnionOf(bins[..|bins|-1]) + multiset(bins[|bins|-1])
  }

  /** The lanes `rest` spread over sheets that already use `used`, none overfull. */
  predicate Spreads(bins: seq<seq<nat>>, rest: multiset<nat>, widths: seq<int>, used: seq<int>, caps: seq<int>,
                    kerf: nat) {
    && |bins| == |caps| == |used| && UnionOf(bins) == rest
    && (forall j :: 0 <= j < |bins| ==> Indices(bins[j], |widths|))
    && (forall j :: 0 <= j < |bins| ==> Load(used[j], WidthsOf(bins[j], widths), kerf) <= caps[j])
  }

  /** A packing of all lanes onto empty sheets. */
  predicate Packs(bins: seq<seq<nat>>, order: seq<nat>, widths: seq<int>, caps: seq<int>, kerf: nat) {
    Spreads(bins, multiset(order), widths, Zeros(|caps|), caps, kerf)
  }

  function Zeros(n: nat): (z: seq<int>)
    ensures |z| == n && forall j :: 0 <= j < n ==> z[j] == 0
  {
    seq(n, _ => 0)
  }

  function NoLanes(n: nat): (bins: seq<seq<nat>>)
    ensures |bins| == n && forall j :: 0 <= j < n ==> bins[j] == []
  {
    seq(n, _ => [])
  }

  lemma {:induction false} UnionUpdate(bins: seq<seq<nat>>, j: nat, b: seq<nat>)
    requires j < |bins|
    ensures UnionOf(bins[j := b]) == UnionOf(bins) - multiset(bins[j]) + multiset(b)
    ensures multiset(bins[j]) <= UnionOf(bins)
  {
    var init, n := bins[..|bins|-1], |bins| - 1;
    if j == n {
      assert bins[j := b][..n] == init;
    } else {
      UnionUpdate(init, j, b);
      assert bins[j := b][..n] == init[j := b];
    }
  }

  lemma {:induction false} InSomeBin(bins: seq<seq<nat>>, i: nat) returns (j: nat)
    requires i in UnionOf(bins)
    ensures j < |bins| && i in bins[j]
  {
    var n := |bins| - 1;
    if i in bins[n] {
      j := n;
    } else {
      j := InSomeBin(bins[..n], i);
    }
  }

  lemma {:induction false} SumConcat(xs: seq<int>, ys: seq<int>)
    ensures Sum(xs + ys) == Sum(xs) + Sum(ys)
  {
    if xs == [] {
      assert xs + ys == ys;
    } else {
      assert (xs + ys)[1..] == xs[1..] + ys;
      SumConcat(xs[1..], ys);
    }
  }

  lemma {:induction false} SumNonNegative(xs: seq<int>)
    requires forall k :: 0 <= k < |xs| ==> xs[k] >= 0
    ensures Sum(xs) >= 0
  {
    if xs != [] { SumNonNegative(xs[1..]); }
  }

  function Without<T>(xs: seq<T>, p: nat): (r: seq<T>)
    requires p < |xs|
    ensures |r| == |xs| - 1
  {
    xs[..p] + xs[p+1..]
  }

  lemma SumOne(x: int)
    ensures Sum([x]) == x
  {
  }

  lemma SumWithout(ws: seq<int>, p: nat)
    requires p < |ws|
    ensures Sum(ws) == ws[p] + Sum(Without(ws, p))
  {
    hide Sum;
    CutAt(ws, p);
    SumApart(ws[..p], ws[p], ws[p+1..]);
  }

  lemma CutAt<T>(xs: seq<T>, p: nat)
    requires p < |xs|
    ensures xs == xs[..p] + ([xs[p]] + xs[p+1..])
  {
    assert xs[p..] == [xs[p]] + xs[p+1..];
    assert xs == xs[..p] + xs[p..];
  }

  lemma SumApart(a: seq<int>, x: int, b: seq<int>)
    ensures Sum(a + ([x] + b)) == x + Sum(a + b)
  {
    hide Sum;
    SumOne(x);
    SumConcat(a, [x] + b);
    SumConcat([x], b);
    SumConcat(a, b);
  }

  /** Taking one lane of a sheet first and the others after it uses the same width. */
  lemma LoadOneFirst(used: int, ws: seq<int>, p: nat, kerf: nat)
    requires p < |ws| && forall k :: 0 <= k < |ws| ==> ws[k] > 0
    requires used >= 0
    ensures var u := used + Need(ws[p], used, kerf);
            && u > 0 && Load(u, Without(ws, p), kerf) == Load(used, ws, kerf)
            && u <= Load(used, ws, kerf)
  {
    SumWithout(ws, p);
    SumNonNegative(Without(ws, p));
    assert Without(ws, p) == [] ==> Sum(Without(ws, p)) == 0;
    hide Sum, Without;
    assert |Without(ws, p)| == |ws| - 1;
  }

  lemma WidthsWithout(idxs: seq<nat>, p: nat, widths: seq<int>)
    requires Indices(idxs, |widths|) && p < |idxs|
    ensures Indices(Without(idxs, p), |widths|)
    ensures WidthsOf(Without(idxs, p), widths) == Without(WidthsOf(idxs, widths), p)
    ensures multiset(idxs) == multiset(Without(idxs, p)) + multiset{idxs[p]}
  {
    assert idxs == idxs[..p] + [idxs[p]] + idxs[p+1..];
  }

  /** A spread minus one lane, which goes first, is a spread of the others. */
  lemma SpreadWithout(bins: seq<seq<nat>>, rest: multiset<nat>, widths: seq<int>, used: seq<int>, caps: seq<int>,
                      kerf: nat, j: nat, p: nat)
    requires Spreads(bins, rest, widths, used, caps, kerf) && j < |bins| && p < |bins[j]|
    requires forall i :: 0 <= i < |widths| ==> widths[i] > 0
    requires used[j] >= 0
    ensures bins[j][p] < |widths|
    ensures var u := used[j] + Need(widths[bins[j][p]], used[j], kerf);
            && 0 < u <= caps[j]
            && Spreads(bins[j := Without(bins[j], p)], rest - multiset{bins[j][p]}, widths, used[j := u], caps, kerf)
  {
    hide Load, Sum, Without, UnionOf, Indices, WidthsOf;
    var b, fewer := bins[j], Without(bins[j], p);
    assert Indices(b, |widths|);
    WidthsInRange(b, widths);
    LoadOneFirst(used[j], WidthsOf(b, widths), p, kerf);
    WidthsWithout(b, p, widths);
    UnionUpdate(bins, j, fewer);
    TakeOne(UnionOf(bins), multiset(b), multiset(fewer), b[p]);
  }

  lemma WidthsInRange(idxs: seq<nat>, widths: seq<int>)
    requires Indices(idxs, |widths|) && forall i :: 0 <= i < |widths| ==> widths[i] > 0
    ensures forall k :: 0 <= k < |idxs| ==> idxs[k] < |widths| && WidthsOf(idxs, widths)[k] == widths[idxs[k]] > 0
  {
  }

  lemma TakeOne<T>(all: multiset<T>, b: multiset<T>, fewer: multiset<T>, x: T)
    requires b <= all && b == fewer + multiset{x}
    ensures all - b + fewer == all - multiset{x}
  {
  }

  lemma FirstOf(rest: seq<nat>, widths: seq<int>)
    requires rest != [] && Indices(rest, |widths|)
    ensures Indices(rest[1..], |widths|) && multiset(rest[1..]) == multiset(rest) - multiset{rest[0]}
    ensures rest[0] in multiset(rest)
    ensures WidthsOf(rest, widths)[0] == widths[rest[0]] && WidthsOf(rest, widths)[1..] == WidthsOf(rest[1..], widths)
  {
    hide WidthsOf;
    assert rest == [rest[0]] + rest[1..];
    FirstTaken(rest[0], rest[1..], rest);
    assert WidthsOf(rest, widths)[1..] == WidthsOf(rest[1..], widths);
  }

  lemma FirstTaken<T>(x: T, more: seq<T>, all: seq<T>)
    requires all == [x] + more
    ensures multiset(more) == multiset(all) - multiset{x} && x in multiset(all)
  {
  }

  /** Any spread at all can be found by placing the lanes in the given order. */
  lemma {:induction false} SpreadFits(bins: seq<seq<nat>>, rest: seq<nat>, widths: seq<int>, used: seq<int>,
                                      caps: seq<int>, kerf: nat)
    requires Indices(rest, |widths|) && forall i :: 0 <= i < |widths| ==> widths[i] > 0
    requires Spreads(bins, multiset(rest), widths, used, caps, kerf)
    requires forall j :: 0 <= j < |used| ==> used[j] >= 0
    ensures Fits(WidthsOf(rest, widths), used, caps, kerf)
    decreases |rest|
  {
    hide WidthsOf, Without, Load, Need, Indices, UnionOf, FitsOn;
    if rest != [] {
      FirstOf(rest, widths);
      var i := rest[0];
      var j := InSomeBin(bins, i);
      var p :| 0 <= p < |bins[j]| && bins[j][p] == i;
      SpreadWithout(bins, multiset(rest), widths, used, caps, kerf, j, p);
      var u := used[j] + Need(widths[i], used[j], kerf);
      UnfoldFitsOn(WidthsOf(rest, widths), used, caps, kerf, j);
      SpreadFits(bins[j := Without(bins[j], p)], rest[1..], widths, used[j := u], caps, kerf);
      assert FitsOn(WidthsOf(rest, widths), used, caps, kerf, j);
    }
  }

  // ---- what the search keeps ------------------------------------------------------------

  predicate AllPositive(xs: seq<int>) {
    forall k :: 0 <= k < |xs| ==> xs[k] > 0
  }

  predicate NoneNegative(xs: seq<int>) {
    forall k :: 0 <= k < |xs| ==> xs[k] >= 0
  }

  /** `used` is what the lanes in `bins`, which are those of `placed`, take up. */
  predicate Tracks(bins: seq<seq<nat>>, used: seq<int>, placed: seq<nat>, widths: seq<int>, caps: seq<int>, kerf: nat) {
    && Packs(bins, placed, widths, caps, kerf)
    && |used| == |bins|
    && (forall j :: 0 <= j < |bins| ==> used[j] == Load(0, WidthsOf(bins[j], widths), kerf))
  }

  lemma TracksNothing(widths: seq<int>, caps: seq<int>, kerf: nat)
    requires NoneNegative(caps)
    ensures Tracks(NoLanes(|caps|), Zeros(|caps|), [], widths, caps, kerf)
  {
    UnionOfEmpties(NoLanes(|caps|));
  }

  lemma {:induction false} UnionOfEmpties(bins: seq<seq<nat>>)
    requires forall j :: 0 <= j < |bins| ==> bins[j] == []
    ensures UnionOf(bins) == multiset{}
  {
    if bins != [] { UnionOfEmpties(bins[..|bins|-1]); }
  }

  lemma {:induction false} SumPositive(ws: seq<int>)
    requires AllPositive(ws) && ws != []
    ensures Sum(ws) > 0
  {
    if |ws| > 1 { SumPositive(ws[1..]); }
  }

  lemma LoadOneMore(ws: seq<int>, w: int, kerf: nat)
    requires AllPositive(ws) && w > 0
    ensures Load(0, ws + [w], kerf) == Load(0, ws, kerf) + Need(w, Load(0, ws, kerf), kerf)
    ensures Load(0, ws, kerf) >= 0
  {
    SumConcat(ws, [w]);
    assert Sum([w]) == w;
    if ws == [] {
      assert ws + [w] == [w];
    } else {
      SumPositive(ws);
    }
    hide Sum;
  }

  lemma TracksNonNegative(bins: seq<seq<nat>>, used: seq<int>, placed: seq<nat>, widths: seq<int>, caps: seq<int>,
                          kerf: nat)
    requires Tracks(bins, used, placed, widths, caps, kerf) && AllPositive(widths)
    ensures forall j :: 0 <= j < |used| ==> 0 <= used[j] <= caps[j]
  {
    hide Load, UnionOf;
    forall j | 0 <= j < |used| ensures 0 <= used[j] <= caps[j] {
      assert Load(Zeros(|caps|)[j], WidthsOf(bins[j], widths), kerf) <= caps[j];
      LoadOneMore(WidthsOf(bins[j], widths), 1, kerf);
    }
  }

  /** One more lane on sheet `j`, when it fits. */
  lemma TracksOneMore(bins: seq<seq<nat>>, used: seq<int>, placed: seq<nat>, widths: seq<int>, caps: seq<int>,
                      kerf: nat, i: nat, j: nat)
    requires Tracks(bins, used, placed, widths, caps, kerf) && AllPositive(widths)
    requires i < |widths| && j < |bins| && used[j] + Need(widths[i], used[j], kerf) <= caps[j]
    ensures Tracks(bins[j := bins[j] + [i]], used[j := used[j] + Need(widths[i], used[j], kerf)], placed + [i], widths,
                   caps, kerf)
  {
    hide Load, UnionOf, Need;
    var b := bins[j];
    assert Indices(b, |widths|) && used[j] == Load(0, WidthsOf(b, widths), kerf);
    LoadOneMore(WidthsOf(b, widths), widths[i], kerf);
    assert WidthsOf(b + [i], widths) == WidthsOf(b, widths) + [widths[i]];
    UnionUpdate(bins, j, b + [i]);
    assert multiset(b + [i]) == multiset(b) + multiset{i};
  }

  // ---- first fit ------------------------------------------------------------------------

  /** Lanes to pack, in this order, and the sheets they go on. */
  datatype Task = Task(order: seq<nat>, widths: seq<int>, caps: seq<int>, kerf: nat)

  predicate IsTask(q: Task, used: seq<int>, bins: seq<seq<nat>>) {
    Indices(q.order, |q.widths|) && |used| == |q.caps| && AreBins(q, bins)
  }

  predicate AreBins(q: Task, bins: seq<seq<nat>>) {
    |bins| == |q.caps| && forall j :: 0 <= j < |bins| ==> Indices(bins[j], |q.widths|)
  }

  /** What lane number `k` brings sheet `j` to. */
  function Filled(q: Task, k: nat, used: seq<int>, j: nat): int
    requires k < |q.order| && Indices(q.order, |q.widths|) && j < |used|
  {
    used[j] + Need(q.widths[q.order[k]], used[j], q.kerf)
  }

  /** The first sheet from `j` on that still holds lane number `k`. */
  function FirstHolding(q: Task, k: nat, used: seq<int>, j: nat): (r: nat)
    requires k < |q.order| && Indices(q.order, |q.widths|) && |used| == |q.caps| && j <= |q.caps|
    ensures j <= r <= |q.caps|
    decreases |q.caps| - j
  {
    if j == |q.caps| || Filled(q, k, used, j) <= q.caps[j] then j else FirstHolding(q, k, used, j + 1)
  }

  function FirstFitFrom(q: Task, k: nat, used: seq<int>, bins: seq<seq<nat>>): (r: Option<seq<seq<nat>>>)
    requires k <= |q.order| && IsTask(q, used, bins)
    ensures r.Some? ==> AreBins(q, r.value)
    decreases |q.order| - k
  {
    if k == |q.order| then Some(bins)
    else
      var j := FirstHolding(q, k, used, 0);
      if j == |q.caps| then None
      else FirstFitFrom(q, k + 1, used[j := Filled(q, k, used, j)], bins[j := bins[j] + [q.order[k]]])
  }

  /** Widest lane into the first sheet that still holds it. */
  method FirstFit(order: seq<nat>, widths: seq<int>, caps: seq<int>, kerf: nat) returns (res: Option<seq<seq<nat>>>)
    requires Indices(order, |widths|) && AllPositive(widths) && NoneNegative(caps)
    ensures res == FirstFitFrom(Task(order, widths, caps, kerf), 0, Zeros(|caps|), NoLanes(|caps|))
    ensures res.Some? ==> Packs(res.value, order, widths, caps, kerf)
  {
    hide Packs, UnionOf, Load, Need;
    ghost var q := Task(order, widths, caps, kerf);
    var used, bins := Zeros(|caps|), NoLanes(|caps|);
    TracksNothing(widths, caps, kerf);
    assert order[..0] == [];
    for k := 0 to |order|
      invariant Tracks(bins, used, order[..k], widths, caps, kerf) && IsTask(q, used, bins)
      invariant FirstFitFrom(q, k, used, bins) == FirstFitFrom(q, 0, Zeros(|caps|), NoLanes(|caps|))
    {
      var i := order[k];
      var j := 0;
      while j < |caps| && used[j] + Need(widths[i], used[j], kerf) > caps[j]
        invariant 0 <= j <= |caps|
        invariant FirstHolding(q, k, used, j) == FirstHolding(q, k, used, 0)
      {
        j := j + 1;
      }
      if j == |caps| {
        return None;
      }
      TracksOneMore(bins, used, order[..k], widths, caps, kerf, i, j);
      assert order[..k+1] == order[..k] + [i];
      used, bins := used[j := used[j] + Need(widths[i], used[j], kerf)], bins[j := bins[j] + [i]];
    }
    assert order[..|order|] == order;
    res := Some(bins);
  }

  // ---- the exact tree --------------------------------------------------------------------

  const PACK_NODE_BUDGET := 2000

  /** What one search comes to: the packing if it found one, and the nodes it has opened and
      may still open. */
  datatype Outcome = Outcome(bins: Option<seq<seq<nat>>>, nodes: int, left: int)

  predicate OutOfNodes(nodes: int, left: int) {
    nodes > PACK_NODE_BUDGET || left <= 0
  }

  /** Some sheet before `j` is in the same state. */
  predicate SeenBefore(q: Task, used: seq<int>, j: nat)
    requires j < |used| == |q.caps|
  {
    exists a :: 0 <= a < j && used[a] == used[j] && q.caps[a] == q.caps[j]
  }

  /** The search from lane number `k` on. */
  function PlaceFrom(q: Task, k: nat, used: seq<int>, bins: seq<seq<nat>>, nodes: int, left: int): (r: Outcome)
    requires k <= |q.order| && IsTask(q, used, bins)
    ensures r.bins.Some? ==> AreBins(q, r.bins.value)
    decreases |q.order| - k, |q.caps| + 2
  {
    if OutOfNodes(nodes + 1, left - 1) then Outcome(None, nodes + 1, left - 1)
    else if k == |q.order| then Outcome(Some(bins), nodes + 1, left - 1)
    else if Sum(WidthsOf(q.order[k..], q.widths)) > Sum(q.caps) - Sum(used) then Outcome(None, nodes + 1, left - 1)
    else SheetsFrom(q, k, 0, used, bins, nodes + 1, left - 1)
  }

  /** The same with lane number `k` on one of the sheets from `j` on. */
  function SheetsFrom(q: Task, k: nat, j: nat, used: seq<int>, bins: seq<seq<nat>>, nodes: int, left: int): (r: Outcome)
    requires k < |q.order| && IsTask(q, used, bins) && j <= |q.caps|
    ensures r.bins.Some? ==> AreBins(q, r.bins.value)
    decreases |q.order| - k, |q.caps| - j + 1
  {
    if j == |q.caps| then Outcome(None, nodes, left)
    else if SeenBefore(q, used, j) then SheetsFrom(q, k, j + 1, used, bins, nodes, left)
    else
      var r := SheetFrom(q, k, j, used, bins, nodes, left);
      if r.bins.Some? then r else SheetsFrom(q, k, j + 1, used, bins, r.nodes, r.left)
  }

  /** The same with lane number `k` on sheet `j`. */
  function SheetFrom(q: Task, k: nat, j: nat, used: seq<int>, bins: seq<seq<nat>>, nodes: int, left: int): (r: Outcome)
    requires k < |q.order| && IsTask(q, used, bins) && j < |q.caps|
    ensures r.bins.Some? ==> AreBins(q, r.bins.value)
    decreases |q.order| - k, 0
  {
    if Filled(q, k, used, j) > q.caps[j] then Outcome(None, nodes, left)
    else PlaceFrom(q, k + 1, used[j := Filled(q, k, used, j)], bins[j := bins[j] + [q.order[k]]], nodes, left)
  }

  /** Every way of putting lane after lane on a sheet that holds it, as a tree: its nodes. */
  function Tree(q: Task, k: nat, used: seq<int>): (n: nat)
    requires k <= |q.order| && Indices(q.order, |q.widths|) && |used| == |q.caps|
    ensures n >= 1
    decreases |q.order| - k, |q.caps| + 2
  {
    if k == |q.order| then 1 else 1 + TreesFrom(q, k, 0, used)
  }

  function TreesFrom(q: Task, k: nat, j: nat, used: seq<int>): nat
    requires k < |q.order| && Indices(q.order, |q.widths|) && |used| == |q.caps| && j <= |q.caps|
    decreases |q.order| - k, |q.caps| - j + 1
  {
    if j == |q.caps| then 0 else TreeOn(q, k, j, used) + TreesFrom(q, k, j + 1, used)
  }

  function TreeOn(q: Task, k: nat, j: nat, used: seq<int>): nat
    requires k < |q.order| && Indices(q.order, |q.widths|) && |used| == |q.caps| && j < |q.caps|
    decreases |q.order| - k, 0
  {
    if Filled(q, k, used, j) > q.caps[j] then 0 else Tree(q, k + 1, used[j := Filled(q, k, used, j)])
  }

  /** The search never opens more nodes than that tree has. */
  lemma {:induction false} SpendsWithinTree(q: Task, k: nat, used: seq<int>, bins: seq<seq<nat>>, nodes: int, left: int)
    requires k <= |q.order| && IsTask(q, used, bins)
    ensures var r := PlaceFrom(q, k, used, bins, nodes, left);
            r.nodes - nodes == left - r.left && 1 <= r.nodes - nodes <= Tree(q, k, used)
    decreases |q.order| - k, |q.caps| + 2
  {
    hide SheetFrom, SheetsFrom, TreesFrom, TreeOn, Filled, SeenBefore;
    if k < |q.order| { SheetsWithinTrees(q, k, 0, used, bins, nodes + 1, left - 1); }
  }

  lemma {:induction false} SheetsWithinTrees(q: Task, k: nat, j: nat, used: seq<int>, bins: seq<seq<nat>>, nodes: int,
                                             left: int)
    requires k < |q.order| && IsTask(q, used, bins) && j <= |q.caps|
    ensures var r := SheetsFrom(q, k, j, used, bins, nodes, left);
            r.nodes - nodes == left - r.left && 0 <= r.nodes - nodes <= TreesFrom(q, k, j, used)
    decreases |q.order| - k, |q.caps| - j + 1
  {
    hide PlaceFrom, Tree, SheetFrom, TreeOn, Filled, SeenBefore;
    if j < |q.caps| {
      if SeenBefore(q, used, j) {
        SheetsWithinTrees(q, k, j + 1, used, bins, nodes, left);
      } else {
        SheetWithinTree(q, k, j, used, bins, nodes, left);
        var r := SheetFrom(q, k, j, used, bins, nodes, left);
        if r.bins.None? { SheetsWithinTrees(q, k, j + 1, used, bins, r.nodes, r.left); }
      }
    }
  }

  lemma {:induction false} SheetWithinTree(q: Task, k: nat, j: nat, used: seq<int>, bins: seq<seq<nat>>, nodes: int,
                                           left: int)
    requires k < |q.order| && IsTask(q, used, bins) && j < |q.caps|
    ensures var r := SheetFrom(q, k, j, used, bins, nodes, left);
            r.nodes - nodes == left - r.left && 0 <= r.nodes - nodes <= TreeOn(q, k, j, used)
    decreases |q.order| - k, 0
  {
    hide PlaceFrom, Tree, Filled;
    var u := Filled(q, k, used, j);
    if u <= q.caps[j] {
      SpendsWithinTree(q, k + 1, used[j := u], bins[j := bins[j] + [q.order[k]]], nodes, left);
    }
  }

  class Assigner {
    const order: seq<nat>
    const widths: seq<int>
    const caps: seq<int>
    const kerf: nat
    var used: seq<int>
    var bins: seq<seq<nat>>
    var free: int
    var nodes: int
    var budget: int

    constructor (order: seq<nat>, widths: seq<int>, caps: seq<int>, kerf: nat, budget: int)
      requires Indices(order, |widths|) && AllPositive(widths) && NoneNegative(caps)
      ensures this.order == order && this.widths == widths && this.caps == caps && this.kerf == kerf
      ensures Valid(0) && used == Zeros(|caps|) && bins == NoLanes(|caps|) && nodes == 0 && this.budget == budget
    {
      this.order, this.widths, this.caps, this.kerf := order, widths, caps, kerf;
      used, bins, free, nodes, this.budget := Zeros(|caps|), NoLanes(|caps|), Sum(caps), 0, budget;
      TracksNothing(widths, caps, kerf);
      SumOfZeros(|caps|);
    }

    ghost predicate Valid(k: nat)
      reads this
    {
      && Indices(order, |widths|) && AllPositive(widths) && k <= |order|
      && |used| == |caps| && AreBins(Asked(), bins)
      && Tracks(bins, used, order[..k], widths, caps, kerf)
      && free == Sum(caps) - Sum(used)
    }

    /** Some node was refused for lack of budget. */
    predicate CutOff()
      reads this
    {
      OutOfNodes(nodes, budget)
    }

    function Asked(): Task {
      Task(order, widths, caps, kerf)
    }

    ghost predicate CameTo(r: Outcome, ok: bool)
      reads this
    {
      ok == r.bins.Some? && nodes == r.nodes && budget == r.left && (ok ==> bins == r.bins.value)
    }

    /** Places the lanes from step `k` on. A refusal leaves everything as it was and,
        unless nodes ran out, proves that no placement of these lanes exists. */
    method Place(k: nat) returns (ok: bool)
      requires Valid(k)
      modifies this
      ensures CameTo(PlaceFrom(Asked(), k, old(used), old(bins), old(nodes), old(budget)), ok)
      ensures nodes >= old(nodes) && budget <= old(budget)
      ensures ok ==> Packs(bins, order, widths, caps, kerf)
      ensures !ok ==> Valid(k) && used == old(used) && bins == old(bins) && free == old(free)
      ensures !ok && !CutOff() ==> !Fits(WidthsOf(order[k..], widths), used, caps, kerf)
      decreases |order| - k, 1
    {
      hide Tracks, Packs, Load, Sum, Fits, FitsOn, WidthsOf, SheetFrom, Filled, AreBins;
      nodes, budget := nodes + 1, budget - 1;
      if nodes > PACK_NODE_BUDGET || budget <= 0 {
        return false;
      }
      if k == |order| {
        assert order[..k] == order;
        PacksTracked(bins, used, order, widths, caps, kerf);
        return true;
      }
      ghost var ws := WidthsOf(order[k..], widths);
      var pending := Sum(WidthsOf(order[k..], widths));
      if pending > free {
        TracksNonNegative(bins, used, order[..k], widths, caps, kerf);
        if Fits(ws, used, caps, kerf) { FitsInFreeWidth(ws, used, caps, kerf); }
        return false;
      }
      var seen: set<(int, int)> := {};
      var j := 0;
      while j < |caps|
        invariant 0 <= j <= |caps| && Valid(k)
        invariant used == old(used) && bins == old(bins) && free == old(free)
        invariant nodes >= old(nodes) && budget <= old(budget)
        invariant forall s :: s in seen ==> exists a :: 0 <= a < j && s == (used[a], caps[a])
        invariant forall a :: 0 <= a < j ==> (used[a], caps[a]) in seen
        invariant SheetsFrom(Asked(), k, j, used, bins, nodes, budget)
               == PlaceFrom(Asked(), k, old(used), old(bins), old(nodes), old(budget))
        invariant !CutOff() ==> forall a :: 0 <= a < j ==> !FitsOn(ws, used, caps, kerf, a)
      {
        var state := (used[j], caps[j]);
        if state in seen {
          var a :| 0 <= a < j && state == (used[a], caps[a]);
          if FitsOn(ws, used, caps, kerf, j) { SameSheetSameChoice(ws, used, caps, kerf, a, j); }
        } else {
          seen := seen + {state};
          ok := TrySheet(k, j);
          if ok {
            return;
          }
        }
        j := j + 1;
      }
      if Fits(ws, used, caps, kerf) { UnfoldFits(ws, used, caps, kerf); }
      ok := false;
    }

    /** Puts lane `k` on sheet `j` if it fits, goes on from there, and takes it back
        when that leads nowhere. */
    method TrySheet(k: nat, j: nat) returns (ok: bool)
      requires Valid(k) && k < |order| && j < |caps|
      modifies this
      ensures CameTo(SheetFrom(Asked(), k, j, old(used), old(bins), old(nodes), old(budget)), ok)
      ensures nodes >= old(nodes) && budget <= old(budget)
      ensures ok ==> Packs(bins, order, widths, caps, kerf)
      ensures !ok ==> Valid(k) && used == old(used) && bins == old(bins) && free == old(free)
      ensures !ok && !CutOff() ==> !FitsOn(WidthsOf(order[k..], widths), used, caps, kerf, j)
      decreases |order| - k, 0
    {
      hide Tracks, Packs, Load, Sum, Fits, FitsOn, WidthsOf, PlaceFrom;
      var i := order[k];
      FirstOf(order[k..], widths);
      assert order[k..][1..] == order[k+1..] && order[..k+1] == order[..k] + [i];
      UnfoldFitsOn(WidthsOf(order[k..], widths), used, caps, kerf, j);
      var need := Need(widths[i], used[j], kerf);
      ok := false;
      if used[j] + need <= caps[j] {
        TracksOneMore(bins, used, order[..k], widths, caps, kerf, i, j);
        SumUpdate(used, j, used[j] + need);
        var used0, bins0 := used, bins;
        used, free, bins := used[j := used[j] + need], free - need, bins[j := bins[j] + [i]];
        ok := Place(k + 1);
        if !ok {
          used, bins, free := used[j := used[j] - need], bins[j := bins[j][..|bins[j]|-1]], free + need;
          assert used == used0 && bins == bins0;
        }
      }
    }
  }

  lemma {:induction false} SumOfZeros(n: nat)
    ensures Sum(Zeros(n)) == 0
  {
    if n > 0 {
      assert Zeros(n)[1..] == Zeros(n - 1);
      SumOfZeros(n - 1);
    }
  }

  lemma PacksTracked(bins: seq<seq<nat>>, used: seq<int>, placed: seq<nat>, widths: seq<int>, caps: seq<int>, kerf: nat)
    requires Tracks(bins, used, placed, widths, caps, kerf)
    ensures Packs(bins, placed, widths, caps, kerf)
  {
  }

  lemma UnfoldFits(ws: seq<int>, used: seq<int>, caps: seq<int>, kerf: nat)
    requires |used| == |caps| && ws != [] && Fits(ws, used, caps, kerf)
    ensures exists j :: 0 <= j < |caps| && FitsOn(ws, used, caps, kerf, j)
  {
  }

  lemma UnfoldFitsOn(ws: seq<int>, used: seq<int>, caps: seq<int>, kerf: nat, j: int)
    requires |used| == |caps| && 0 <= j < |caps| && ws != []
    ensures var u := used[j] + Need(ws[0], used[j], kerf);
            FitsOn(ws, used, caps, kerf, j) <==> u <= caps[j] && Fits(ws[1..], used[j := u], caps, kerf)
  {
  }

  /** First fit, then the exact tree if that fails. */
  function Assigned(q: Task, budget: int): (r: Outcome)
    requires Indices(q.order, |q.widths|)
    ensures r.bins.Some? ==> AreBins(q, r.bins.value)
  {
    var quick := FirstFitFrom(q, 0, Zeros(|q.caps|), NoLanes(|q.caps|));
    if quick.Some? then Outcome(quick, 0, budget)
    else PlaceFrom(q, 0, Zeros(|q.caps|), NoLanes(|q.caps|), 0, budget)
  }

  /** Given up for lack of nodes. */
  predicate GivenUp(r: Outcome) {
    r.bins.None? && OutOfNodes(r.nodes, r.left)
  }

  /** Nodes enough for every way of placing the lanes. */
  predicate Affords(q: Task, budget: int)
    requires Indices(q.order, |q.widths|)
  {
    var n := Tree(q, 0, Zeros(|q.caps|));
    n <= PACK_NODE_BUDGET && n < budget
  }

  /** A search is given up only once its nodes are spent, and not at all when it is afforded
      the whole tree. */
  lemma AssignedSpends(q: Task, budget: int)
    requires Indices(q.order, |q.widths|)
    ensures var r := Assigned(q, budget);
            && r.nodes == budget - r.left && 0 <= r.nodes <= Tree(q, 0, Zeros(|q.caps|))
            && (Affords(q, budget) ==> !GivenUp(r))
  {
    hide FirstFitFrom, PlaceFrom, Tree;
    SpendsWithinTree(q, 0, Zeros(|q.caps|), NoLanes(|q.caps|), 0, budget);
  }

  /** Bin packing of lane widths: first fit, then the exact tree if that fails. No answer
      means that no packing exists, or that the search was given up with its nodes spent,
      which does not happen when the nodes are enough for every way of placing the lanes. */
  method Assign(order: seq<nat>, widths: seq<int>, caps: seq<int>, kerf: nat, budget: int)
    returns (res: Option<seq<seq<nat>>>, left: int, cutOff: bool)
    requires Indices(order, |widths|) && AllPositive(widths) && NoneNegative(caps)
    ensures var r := Assigned(Task(order, widths, caps, kerf), budget);
            res == r.bins && left == r.left && cutOff == GivenUp(r)
    ensures left <= budget && budget - left <= Tree(Task(order, widths, caps, kerf), 0, Zeros(|caps|))
    ensures cutOff ==> res.None? && (left <= 0 || budget - left > PACK_NODE_BUDGET)
    ensures Affords(Task(order, widths, caps, kerf), budget) ==> !cutOff
    ensures res.Some? ==> Packs(res.value, order, widths, caps, kerf)
    ensures res.None? && !cutOff ==> forall bins :: !Packs(bins, order, widths, caps, kerf)
  {
    hide Packs, Fits, FirstFitFrom, PlaceFrom, Tree, Affords;
    AssignedSpends(Task(order, widths, caps, kerf), budget);
    left, cutOff := budget, false;
    res := FirstFit(order, widths, caps, kerf);
    if res.None? {
      var a := new Assigner(order, widths, caps, kerf, budget);
      var ok := a.Place(0);
      left, cutOff := a.budget, !ok && a.CutOff();
      assert order[0..] == order;
      if ok {
        res := Some(a.bins);
      } else if !cutOff {
        forall bins ensures !Packs(bins, order, widths, caps, kerf) {
          if Packs(bins, order, widths, caps, kerf) { PackFits(bins, order, widths, caps, kerf); }
        }
      }
    }
  }

  lemma PackFits(bins: seq<seq<nat>>, order: seq<nat>, widths: seq<int>, caps: seq<int>, kerf: nat)
    requires Indices(order, |widths|) && AllPositive(widths) && Packs(bins, order, widths, caps, kerf)
    ensures Fits(WidthsOf(order, widths), Zeros(|caps|), caps, kerf)
  {
    SpreadFits(bins, order, widths, Zeros(|caps|), caps, kerf);
  }
}
