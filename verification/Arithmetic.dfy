/** Division that rounds up, as math.ceil of a quotient. */
module Arithmetic {
  function CeilDiv(a: int, b: int): int
    requires b > 0
  {
    (a + b - 1) / b
  }

  lemma CeilDivLeast(a: int, b: int, n: int)
    requires b > 0 && n * b >= a
    ensures CeilDiv(a, b) <= n
  {
    var q := CeilDiv(a, b);
    assert a + b - 1 == q * b + (a + b - 1) % b;
    NotPositive(q - n, b);
  }

  lemma NotPositive(x: int, b: int)
    requires b > 0 && x * b < b
    ensures x <= 0
  {
  }

  lemma CeilDivCovers(a: int, b: int)
    requires b > 0
    ensures a <= CeilDiv(a, b) * b < a + b
    ensures a > 0 ==> CeilDiv(a, b) >= 1
  {
    var q := CeilDiv(a, b);
    assert a + b - 1 == q * b + (a + b - 1) % b;
  }
}
