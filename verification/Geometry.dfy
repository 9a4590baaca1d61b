/**
Axis-aligned boxes and the two coordinates a straight cut can fix.

Every length is an integer count of one small unit, so the tolerances of
src/cutting/ are exactly zero here. A cut is `horizontal` when it fixes a y
coordinate; `Lo` and `Hi` read a box along the fixed coordinate, so that each
statement about cuts is made once for both directions.
*/
module Geometry {
  datatype Box = Box(x0: int, y0: int, x1: int, y1: int)

  function Lo(b: Box, horizontal: bool): int {
    if horizontal then b.y0 else b.x0
  }

  function Hi(b: Box, horizontal: bool): int {
    if horizontal then b.y1 else b.x1
  }

  function WithLo(b: Box, horizontal: bool, v: int): Box {
    if horizontal then b.(y0 := v) else b.(x0 := v)
  }

  function WithHi(b: Box, horizontal: bool, v: int): Box {
    if horizontal then b.(y1 := v) else b.(x1 := v)
  }

  function Min(a: int, b: int): int {
    if a <= b then a else b
  }

  function Max(a: int, b: int): int {
    if a <= b then b else a
  }

  function Width(b: Box): int {
    b.x1 - b.x0
  }

  function Height(b: Box): int {
    b.y1 - b.y0
  }

  function Area(b: Box): int {
    Width(b) * Height(b)
  }

  /** A box with positive width and height. */
  predicate Solid(b: Box) {
    b.x0 < b.x1 && b.y0 < b.y1
  }

  predicate AllSolid(S: seq<Box>) {
    forall b :: b in S ==> Solid(b)
  }

  predicate Inside(b: Box, r: Box) {
    r.x0 <= b.x0 && r.y0 <= b.y0 && b.x1 <= r.x1 && b.y1 <= r.y1
  }

  /** The gap on the axis that separates the boxes best; negative when they overlap. */
  function Separation(a: Box, b: Box): int {
    Max(Max(b.x0 - a.x1, a.x0 - b.x1), Max(b.y0 - a.y1, a.y0 - b.y1))
  }

  /** Every two entries of `S` are at least a blade apart. */
  predicate PairwiseApart(S: seq<Box>, kerf: int) {
    forall i, j :: 0 <= i < j < |S| ==> Separation(S[i], S[j]) >= kerf
  }

  function Shift(b: Box, dx: int, dy: int): Box {
    Box(b.x0 + dx, b.y0 + dy, b.x1 + dx, b.y1 + dy)
  }

  function ShiftAll(S: seq<Box>, dx: int, dy: int): (r: seq<Box>)
    ensures |r| == |S|
    ensures forall i :: 0 <= i < |S| ==> r[i] == Shift(S[i], dx, dy)
  {
    seq(|S|, i requires 0 <= i < |S| => Shift(S[i], dx, dy))
  }

  /** The order of boxes as tuples. */
  predicate Before(a: Box, b: Box) {
    || a.x0 < b.x0
    || (a.x0 == b.x0 && a.y0 < b.y0)
    || (a.x0 == b.x0 && a.y0 == b.y0 && a.x1 < b.x1)
    || (a.x0 == b.x0 && a.y0 == b.y0 && a.x1 == b.x1 && a.y1 < b.y1)
  }
}
