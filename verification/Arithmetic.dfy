/** Division facts that the solver needs spelled out. */
module Arithmetic {
  lemma Distributes(d: int, x: int, y: int)
    ensures d * (x - y) == d * x - d * y
    ensures d * (y - x) == d * y - d * x
  {}

  lemma AtLeast(d: nat, x: nat)
    requires x >= 1
    ensures d * x >= d
  {}

  lemma DivModUnique(a: nat, d: nat, q: nat, r: nat)
    requires d > 0 && a == d * q + r && r < d
    ensures a / d == q && a % d == r
  {
    var q' := a / d;
    assert d * q' + a % d == d * q + r;
    Distributes(d, q, q');
    if q' < q {
      AtLeast(d, q - q');
    } else if q < q' {
      AtLeast(d, q' - q);
    }
  }

  /** Remainder of a number at most one lap past n. */
  lemma Lap(i: nat, n: nat)
    requires n > 0 && i < 2 * n
    ensures i % n == if i < n then i else i - n
  {
    if i < n {
      DivModUnique(i, n, 0, i);
    } else {
      DivModUnique(i, n, 1, i - n);
    }
  }
}
