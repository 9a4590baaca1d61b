/**
_pack_widths of lanes.py: the cheapest combination of sheets the lanes pack onto.
*/
module LaneCombos {
  import opened Plans
  import opened LanePacking

  /** A bin class of unlimited supply. */
  datatype SheetClass = SheetClass(cost: int, width: int)

  /** So many sheets of each class. */
  type Combo = seq<nat>

  function CostOf(combo: Combo, classes: seq<SheetClass>): int
    requires |combo| == |classes|
  {
    if combo == [] then 0
        else CostOf(combo[..|combo|-1], classes[..|combo|-1]) + combo[|combo|-1] * classes[|combo|-1].cost
  }

  function Total(combo: Combo): nat {
    if combo == [] then 0 else Total(combo[..|combo|-1]) + combo[|combo|-1]
  }

  function Repeat(c: SheetClass, n: nat): (r: seq<SheetClass>)
    ensures |r| == n && forall j :: 0 <= j < n ==> r[j] == c
  {
    seq(n, _ => c)
  }

  function Expand(combo: Combo, classes: seq<SheetClass>): (r: seq<SheetClass>)
    requires |combo| == |classes|
    ensures forall s :: s in r ==> s in classes
  {
    if combo == [] then []
    else Expand(combo[..|combo|-1], classes[..|combo|-1]) + Repeat(classes[|combo|-1], combo[|combo|-1])
  }

  /** Widest sheet first, the cheaper of equals before the other. */
  function InsertSheet(ss: seq<SheetClass>, s: SheetClass): (r: seq<SheetClass>)
    ensures multiset(r) == multiset(ss) + multiset{s}
  {
    if ss == [] || !(s.width > ss[|ss|-1].width || (s.width == ss[|ss|-1].width && s.cost < ss[|ss|-1].cost))
        then ss + [s]
    else
      assert ss == ss[..|ss|-1] + [ss[|ss|-1]];
      InsertSheet(ss[..|ss|-1], s) + [ss[|ss|-1]]
  }

  function SortSheets(ss: seq<SheetClass>): (r: seq<SheetClass>)
    ensures multiset(r) == multiset(ss)
  {
    if ss == [] then []
    else
      assert ss == ss[..|ss|-1] + [ss[|ss|-1]];
      InsertSheet(SortSheets(ss[..|ss|-1]), ss[|ss|-1])
  }

  /** The sheets a combination opens, in the order they are filled. */
  function SheetsOf(combo: Combo, classes: seq<SheetClass>): (r: seq<SheetClass>)
    requires |combo| == |classes|
    ensures forall s :: s in r ==> s in classes
  {
    var ss := Expand(combo, classes);
    assert forall s :: s in SortSheets(ss) ==> s in multiset(ss);
    SortSheets(ss)
  }

  function CapsOf(ss: seq<SheetClass>): (caps: seq<int>)
    ensures |caps| == |ss| && forall j :: 0 <= j < |caps| ==> caps[j] == ss[j].width
  {
    seq(|ss|, j requires 0 <= j < |ss| => ss[j].width)
  }

  /** All the lanes pack onto the sheets of the combination. */
  ghost predicate Feasible(combo: Combo, classes: seq<SheetClass>, order: seq<nat>, widths: seq<int>, kerf: nat)
    requires |combo| == |classes|
  {
    exists bins :: Packs(bins, order, widths, CapsOf(SheetsOf(combo, classes)), kerf)
  }

  /** A combination worth proposing: it opens some sheets, not too many, and bills
      less than the plan to beat. */
  predicate Eligible(combo: Combo, classes: seq<SheetClass>, belowCost: int, maxSheets: nat) {
    |combo| == |classes| && 1 <= Total(combo) <= maxSheets && CostOf(combo, classes) < belowCost
  }

  // ---- enumerating the combinations ---------------------------------------------------------

  function Least(a: int, b: int): int {
    if a <= b then a else b
  }

  /** More sheets of a class than this already cost too much. */
  function Limit(c: SheetClass, belowCost: int, maxSheets: nat): int {
    if c.cost > 0 then Least(maxSheets, belowCost / c.cost) else maxSheets
  }

  /** Every combination extended by 0 to `limit` sheets of one more class. */
  function Extend(out: seq<Combo>, limit: int): (r: seq<Combo>)
    ensures forall c :: c in r <==> |c| > 0 && c[..|c|-1] in out && c[|c|-1] <= limit
  {
    if out == [] then []
    else Extend(out[..|out|-1], limit) + Counts(out[|out|-1], limit)
  }

  function Counts(prev: Combo, limit: int): (r: seq<Combo>)
    ensures forall c :: c in r <==> |c| > 0 && c[..|c|-1] == prev && c[|c|-1] <= limit
    decreases limit
  {
    if limit < 0 then []
    else
      var r := Counts(prev, limit - 1) + [prev + [limit]];
      assert forall c: Combo :: |c| > 0 && c[..|c|-1] == prev && c[|c|-1] == limit ==> c == prev + [limit];
      r
  }

  function Product(classes: seq<SheetClass>, belowCost: int, maxSheets: nat): (r: seq<Combo>)
    ensures forall c :: c in r ==> |c| == |classes|
  {
    if classes == [] then [[]]
    else Extend(Product(classes[..|classes|-1], belowCost, maxSheets),
                Limit(classes[|classes|-1], belowCost, maxSheets))
  }

  lemma {:induction false} CostNonNegative(combo: Combo, classes: seq<SheetClass>)
    requires |combo| == |classes| && forall c :: c in classes ==> c.cost >= 0
    ensures CostOf(combo, classes) >= 0
  {
    if combo != [] {
      CostNonNegative(combo[..|combo|-1], classes[..|combo|-1]);
      assert classes[|combo|-1] in classes;
    }
  }

  /** Every combination that is cheap and small enough is enumerated. */
  lemma {:induction false} ProductHasAll(combo: Combo, classes: seq<SheetClass>, belowCost: int, maxSheets: nat)
    requires |combo| == |classes| && forall c :: c in classes ==> c.cost >= 0
    requires Total(combo) <= maxSheets && CostOf(combo, classes) < belowCost
    ensures combo in Product(classes, belowCost, maxSheets)
  {
    if combo != [] {
      var n := |combo| - 1;
      var init, last := classes[..n], classes[n];
      assert last in classes;
      CostNonNegative(combo[..n], init);
      assert combo[n] * last.cost >= 0;
      ProductHasAll(combo[..n], init, belowCost, maxSheets);
      if last.cost > 0 { QuotientBound(combo[n], last.cost, belowCost); }
      assert combo[n] <= Limit(last, belowCost, maxSheets);
    }
  }

  lemma QuotientBound(n: nat, d: int, m: int)
    requires d > 0 && n * d < m
    ensures n <= m / d
  {
    var q := m / d;
    assert m == q * d + m % d;
    PositiveFactor(q + 1 - n, d);
  }

  lemma PositiveFactor(x: int, d: int)
    requires d > 0 && x * d > 0
    ensures x > 0
  {
  }

  // ---- cheapest first -------------------------------------------------------------------------

  predicate LexBefore(a: Combo, b: Combo) {
    if a == [] || b == [] then a == [] && b != []
    else a[0] < b[0] || (a[0] == b[0] && LexBefore(a[1..], b[1..]))
  }

  predicate Sized(cs: seq<Combo>, n: nat) {
    forall k :: 0 <= k < |cs| ==> |cs[k]| == n
  }

  predicate CheapestFirst(cs: seq<Combo>, classes: seq<SheetClass>) {
    && Sized(cs, |classes|)
    && forall i, j :: 0 <= i < j < |cs| ==> CostOf(cs[i], classes) <= CostOf(cs[j], classes)
  }

  function InsertCombo(cs: seq<Combo>, c: Combo, classes: seq<SheetClass>): (r: seq<Combo>)
    requires CheapestFirst(cs, classes) && |c| == |classes|
    ensures CheapestFirst(r, classes) && forall d :: d in r <==> d in cs || d == c
  {
    if cs == [] then [c]
    else
      var last := cs[|cs|-1];
      if CostOf(last, classes) < CostOf(c, classes)
          || (CostOf(last, classes) == CostOf(c, classes) && !LexBefore(c, last)) then
        cs + [c]
      else
        var rest := InsertCombo(cs[..|cs|-1], c, classes);
        CheapestStays(rest, last, cs, c, classes);
        rest + [last]
  }

  lemma CheapestStays(rest: seq<Combo>, last: Combo, cs: seq<Combo>, c: Combo, classes: seq<SheetClass>)
    requires CheapestFirst(cs, classes) && cs != [] && last == cs[|cs|-1] && |c| == |classes|
    requires CheapestFirst(rest, classes) && forall d :: d in rest <==> d in cs[..|cs|-1] || d == c
    requires CostOf(c, classes) <= CostOf(last, classes)
    ensures CheapestFirst(rest + [last], classes) && forall d :: d in rest + [last] <==> d in cs || d == c
  {
    hide CostOf;
    forall k | 0 <= k < |rest| ensures CostOf(rest[k], classes) <= CostOf(last, classes) {
      assert rest[k] in rest;
      if rest[k] in cs[..|cs|-1] {
        var i :| 0 <= i < |cs| - 1 && cs[i] == rest[k];
      }
    }
    assert cs == cs[..|cs|-1] + [last];
  }

  /** The eligible combinations of a list, in increasing cost. */
  function Eligibles(cs: seq<Combo>, classes: seq<SheetClass>, belowCost: int, maxSheets: nat): (r: seq<Combo>)
    requires Sized(cs, |classes|)
    ensures CheapestFirst(r, classes)
    ensures forall c :: c in r <==> c in cs && Eligible(c, classes, belowCost, maxSheets)
  {
    if cs == [] then []
    else
      var rest, c := Eligibles(cs[..|cs|-1], classes, belowCost, maxSheets), cs[|cs|-1];
      if Eligible(c, classes, belowCost, maxSheets) then InsertCombo(rest, c, classes) else rest
  }

  // ---- the search over combinations ---------------------------------------------------------------

  lemma TooNarrow(combo: Combo, classes: seq<SheetClass>, order: seq<nat>, widths: seq<int>, kerf: nat)
    requires |combo| == |classes| && forall c :: c in classes ==> c.width > 0
    requires Indices(order, |widths|) && AllPositive(widths)
    requires Feasible(combo, classes, order, widths, kerf)
    ensures Sum(WidthsOf(order, widths)) <= Sum(CapsOf(SheetsOf(combo, classes)))
  {
    var caps := CapsOf(SheetsOf(combo, classes));
    var bins :| Packs(bins, order, widths, caps, kerf);
    PackFits(bins, order, widths, caps, kerf);
    CapsPositive(combo, classes);
    FitsInFreeWidth(WidthsOf(order, widths), Zeros(|caps|), caps, kerf);
    SumOfZeros(|caps|);
  }

  lemma CapsPositive(combo: Combo, classes: seq<SheetClass>)
    requires |combo| == |classes| && forall c :: c in classes ==> c.width > 0
    ensures AllPositive(CapsOf(SheetsOf(combo, classes)))
  {
    var ss := SheetsOf(combo, classes);
    forall j | 0 <= j < |ss| ensures ss[j].width > 0 { assert ss[j] in ss; }
  }

  /** What `PackWidths` proposes: sheets of an eligible combination, all lanes packed. */
  ghost predicate Proposal(combo: Combo, bins: seq<seq<nat>>, classes: seq<SheetClass>, order: seq<nat>,
                           widths: seq<int>, kerf: nat, belowCost: int, maxSheets: nat) {
    && Eligible(combo, classes, belowCost, maxSheets)
    && Packs(bins, order, widths, CapsOf(SheetsOf(combo, classes)), kerf)
  }

  /** Lanes of these widths, in this order, and what the sheets for them may be and cost. */
  datatype Question = Question(order: seq<nat>, widths: seq<int>, classes: seq<SheetClass>, kerf: nat, belowCost: int,
                               maxSheets: nat)

  predicate IsQuestion(q: Question) {
    && Indices(q.order, |q.widths|) && AllPositive(q.widths)
    && forall c :: c in q.classes ==> c.width > 0 && c.cost >= 0
  }

  /** The combinations to try, cheapest first. */
  function CombosFor(q: Question): (cs: seq<Combo>)
    ensures Sized(cs, |q.classes|)
  {
    ProductSized(q.classes, q.belowCost, q.maxSheets);
    Eligibles(Product(q.classes, q.belowCost, q.maxSheets), q.classes, q.belowCost, q.maxSheets)
  }

  function TaskFor(q: Question, combo: Combo): Task
    requires |combo| == |q.classes|
  {
    Task(q.order, q.widths, CapsOf(SheetsOf(combo, q.classes)), q.kerf)
  }

  /** What the search over combinations comes to: sheets and their lanes, the nodes left, and
      whether some probe was given up. */
  datatype Answer = Answer(choice: Option<(Combo, seq<seq<nat>>)>, left: int, cutOff: bool)

  predicate IsAnswer(q: Question, r: Answer) {
    r.choice.Some? ==> |r.choice.value.0| == |q.classes| && AreBins(TaskFor(q, r.choice.value.0), r.choice.value.1)
  }

  /** One probe after the other until one packs the lanes or no nodes are left. */
  function Probed(q: Question, combos: seq<Combo>, left: int): (r: Answer)
    requires Indices(q.order, |q.widths|) && Sized(combos, |q.classes|)
    ensures IsAnswer(q, r)
  {
    if combos == [] then Answer(None, left, false)
    else
      var t := TaskFor(q, combos[0]);
      if Sum(WidthsOf(q.order, q.widths)) > Sum(t.caps) then Probed(q, combos[1..], left)
      else if left <= 0 then Answer(None, left, true)
      else
        var r := Assigned(t, left);
        if r.bins.Some? then Answer(Some((combos[0], r.bins.value)), r.left, false)
        else
          var rest := Probed(q, combos[1..], r.left);
          rest.(cutOff := rest.cutOff || GivenUp(r))
  }

  function PackedWidths(q: Question, budget: int): (r: Answer)
    requires Indices(q.order, |q.widths|)
    ensures IsAnswer(q, r)
  {
    if q.widths == [] then Answer(None, budget, false) else Probed(q, CombosFor(q), budget)
  }

  /** The nodes of all the ways to place the lanes on the sheets of these combinations. */
  function AllNodes(q: Question, combos: seq<Combo>): nat
    requires Indices(q.order, |q.widths|) && Sized(combos, |q.classes|)
  {
    if combos == [] then 0
    else
      var t := TaskFor(q, combos[0]);
      Tree(t, 0, Zeros(|t.caps|)) + AllNodes(q, combos[1..])
  }

  /** Nodes enough for all of them, and for each within what one probe may open. */
  predicate AffordsAll(q: Question, combos: seq<Combo>, budget: int)
    requires Indices(q.order, |q.widths|) && Sized(combos, |q.classes|)
  {
    && AllNodes(q, combos) < budget
    && forall k :: 0 <= k < |combos| ==>
         var t := TaskFor(q, combos[k]); Tree(t, 0, Zeros(|t.caps|)) <= PACK_NODE_BUDGET
  }

  /** A probe is given up only with the nodes spent, and not when they are enough. */
  lemma {:induction false} ProbedSpends(q: Question, combos: seq<Combo>, left: int)
    requires Indices(q.order, |q.widths|) && Sized(combos, |q.classes|)
    ensures var r := Probed(q, combos, left);
            && 0 <= left - r.left <= AllNodes(q, combos)
            && (r.cutOff ==> r.left <= 0 || left - r.left > PACK_NODE_BUDGET)
            && (AffordsAll(q, combos, left) ==> !r.cutOff)
  {
    hide Assigned, Tree, Sum, TaskFor;
    if combos != [] {
      var t, more := TaskFor(q, combos[0]), combos[1..];
      TaskIsFor(q, combos[0]);
      AssignedSpends(t, left);
      var at := if Sum(WidthsOf(q.order, q.widths)) > Sum(t.caps) then left else Assigned(t, left).left;
      if AffordsAll(q, combos, left) {
        assert TaskFor(q, combos[0]) == t;
        forall k | 0 <= k < |more|
          ensures TaskFor(q, more[k]) == TaskFor(q, combos[k + 1]) { assert more[k] == combos[k + 1]; }
        assert AffordsAll(q, more, at);
      }
      ProbedSpends(q, more, at);
    }
  }

  lemma TaskIsFor(q: Question, combo: Combo)
    requires |combo| == |q.classes|
    ensures TaskFor(q, combo).order == q.order && TaskFor(q, combo).widths == q.widths
  {
  }

  /** The cheapest assignment of lane widths to sheets. With no probe given up, no eligible
      combination that could carry the lanes bills less, and no answer means that none
      could. A probe is given up only with the nodes spent, and none is when they are enough
      for every way of placing the lanes. */
  method PackWidths(q: Question, budget: int)
    returns (res: Option<(Combo, seq<seq<nat>>)>, left: int, cutOff: bool)
    requires IsQuestion(q)
    ensures Answer(res, left, cutOff) == PackedWidths(q, budget)
    ensures 0 <= budget - left <= AllNodes(q, CombosFor(q))
    ensures cutOff ==> left <= 0 || budget - left > PACK_NODE_BUDGET
    ensures AffordsAll(q, CombosFor(q), budget) ==> !cutOff
    ensures res.Some? ==>
              Proposal(res.value.0, res.value.1, q.classes, q.order, q.widths, q.kerf, q.belowCost, q.maxSheets)
    ensures !cutOff && q.widths != [] ==>
              forall c :: Eligible(c, q.classes, q.belowCost, q.maxSheets)
                          && Feasible(c, q.classes, q.order, q.widths, q.kerf) ==>
                res.Some? && CostOf(res.value.0, q.classes) <= CostOf(c, q.classes)
  {
    hide Feasible, Eligible, CostOf, Packs, SheetsOf, Product, Sum, AllNodes, AffordsAll, Tree, Assigned, Eligibles;
    res, left, cutOff := None, budget, false;
    var Question(order, widths, classes, kerf, belowCost, maxSheets) := q;
    ProbedSpends(q, CombosFor(q), budget);
    if widths == [] {
      return;
    }
    ProductSized(classes, belowCost, maxSheets);
    var combos := CombosFor(q);
    AllEligible(combos, classes, belowCost, maxSheets);
    var total := Sum(WidthsOf(order, widths));
    for k := 0 to |combos|
      invariant left <= budget && res.None?
      invariant !cutOff ==> forall i :: 0 <= i < k ==> !Feasible(combos[i], classes, order, widths, kerf)
      invariant var r := Probed(q, combos[k..], left);
                Probed(q, combos, budget) == r.(cutOff := r.cutOff || cutOff)
    {
      var combo := combos[k];
      assert combo in combos && combos[k..][0] == combo && combos[k..][1..] == combos[k+1..];
      var sheets := SheetsOf(combo, classes);
      var caps := CapsOf(sheets);
      CapsPositive(combo, classes);
      if total > Sum(caps) {
        if Feasible(combo, classes, order, widths, kerf) { TooNarrow(combo, classes, order, widths, kerf); }
      } else {
        if left <= 0 {
          cutOff := true;
          return;
        }
        var packed, rest, cut := Assign(order, widths, caps, kerf, left);
        left := rest;
        if packed.Some? {
          res := Some((combo, packed.value));
          if !cutOff {
            FirstFeasibleIsCheapest(combos, k, classes, order, widths, kerf, belowCost, maxSheets);
          }
          return;
        }
        cutOff := cutOff || cut;
        if !cut { NotFeasible(combo, classes, order, widths, kerf); }
      }
    }
    if !cutOff { NoneFeasible(combos, classes, order, widths, kerf, belowCost, maxSheets); }
  }

  lemma ProductSized(classes: seq<SheetClass>, belowCost: int, maxSheets: nat)
    ensures Sized(Product(classes, belowCost, maxSheets), |classes|)
  {
    var cs := Product(classes, belowCost, maxSheets);
    forall k | 0 <= k < |cs| ensures |cs[k]| == |classes| { assert cs[k] in cs; }
  }

  lemma AllEligible(combos: seq<Combo>, classes: seq<SheetClass>, belowCost: int, maxSheets: nat)
    requires forall c :: c in classes ==> c.width > 0 && c.cost >= 0
    requires Sized(Product(classes, belowCost, maxSheets), |classes|)
    requires combos == Eligibles(Product(classes, belowCost, maxSheets), classes, belowCost, maxSheets)
    ensures CheapestFirst(combos, classes)
    ensures forall c :: c in combos <==> Eligible(c, classes, belowCost, maxSheets)
  {
    forall c ensures c in combos <==> Eligible(c, classes, belowCost, maxSheets) {
      if Eligible(c, classes, belowCost, maxSheets) { ProductHasAll(c, classes, belowCost, maxSheets); }
    }
  }

  lemma NotFeasible(combo: Combo, classes: seq<SheetClass>, order: seq<nat>, widths: seq<int>, kerf: nat)
    requires |combo| == |classes|
    requires forall bins :: !Packs(bins, order, widths, CapsOf(SheetsOf(combo, classes)), kerf)
    ensures !Feasible(combo, classes, order, widths, kerf)
  {
  }

  lemma FirstFeasibleIsCheapest(combos: seq<Combo>, k: nat, classes: seq<SheetClass>, order: seq<nat>, widths: seq<int>,
                                kerf: nat, belowCost: int, maxSheets: nat)
    requires k < |combos| && CheapestFirst(combos, classes)
    requires forall c :: c in combos <==> Eligible(c, classes, belowCost, maxSheets)
    requires forall i :: 0 <= i < k ==> !Feasible(combos[i], classes, order, widths, kerf)
    ensures forall c :: Eligible(c, classes, belowCost, maxSheets) && Feasible(c, classes, order, widths, kerf) ==>
              CostOf(combos[k], classes) <= CostOf(c, classes)
  {
    hide Feasible, CostOf;
    forall c | Eligible(c, classes, belowCost, maxSheets) && Feasible(c, classes, order, widths, kerf)
      ensures CostOf(combos[k], classes) <= CostOf(c, classes)
    {
      assert c in combos;
      var i :| 0 <= i < |combos| && combos[i] == c;
      assert i >= k;
    }
  }

  lemma NoneFeasible(combos: seq<Combo>, classes: seq<SheetClass>, order: seq<nat>, widths: seq<int>, kerf: nat,
                     belowCost: int, maxSheets: nat)
    requires Sized(combos, |classes|)
    requires forall c :: c in combos <==> Eligible(c, classes, belowCost, maxSheets)
    requires forall i :: 0 <= i < |combos| ==> !Feasible(combos[i], classes, order, widths, kerf)
    ensures forall c :: Eligible(c, classes, belowCost, maxSheets) ==> !Feasible(c, classes, order, widths, kerf)
  {
    hide Feasible;
    forall c | Eligible(c, classes, belowCost, maxSheets) ensures !Feasible(c, classes, order, widths, kerf) {
      assert c in combos;
    }
  }
}
