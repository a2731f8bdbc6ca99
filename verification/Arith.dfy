/** Products, quotients and ceilings of integers. */
module Arith {

  function CeilDiv(a: int, b: int): int
    requires a >= 0 && b > 0
  {
    (a + b - 1) / b
  }

  function Min(a: int, b: int): int { if a < b then a else b }
  function Max(a: int, b: int): int { if a < b then b else a }

  lemma MulMono(k: int, a: int, b: int)
    requires k >= 0 && a <= b
    ensures k * a <= k * b
  {
  }

  lemma MulStep(k: int, a: int)
    ensures k * (a + 1) == k * a + k && k * (a - 1) == k * a - k
  {
  }

  /** Quotient and remainder are determined by what they have to satisfy. */
  lemma DivUnique(a: int, n: int, q: int, rem: int)
    requires n > 0 && a == n * q + rem && 0 <= rem < n
    ensures a / n == q && a % n == rem
  {
    var d := a / n;
    assert a == n * d + a % n;
    MulStep(n, d);
    MulStep(n, q);
    if d < q {
      MulMono(n, d + 1, q);
    } else if d > q {
      MulMono(n, q + 1, d);
    }
  }

  lemma CeilDivBounds(a: int, b: int)
    requires a >= 0 && b > 0
    ensures 0 <= CeilDiv(a, b)
    ensures a <= b * CeilDiv(a, b) <= a + b - 1
  {
    assert a + b - 1 == b * CeilDiv(a, b) + (a + b - 1) % b;
  }
}
