/** Go's integers as far as they matter here: 64-bit wrap-around, truncating division, and the
    nanoseconds in which durations are counted. */
module GoInts {

  const TWO63: int := 0x8000_0000_0000_0000
  const TWO64: int := 0x1_0000_0000_0000_0000

  predicate Int64(x: int) { -TWO63 <= x < TWO63 }

  /** Two's complement wrap-around to 64 bits: the int64 that differs by a multiple of 2^64. */
  function Wrap(x: int): (r: int)
    ensures Int64(r) && (Int64(x) ==> r == x)
    decreases if x < 0 then -x else x + 1
  {
    if x < -TWO63 then Wrap(x + TWO64) else if x >= TWO63 then Wrap(x - TWO64) else x
  }

  /** Go's division, which truncates toward zero. */
  function TruncDiv(a: int, b: int): int
    requires b > 0
  {
    if a >= 0 then a / b else -(-a / b)
  }

  lemma WrapsOnce(x: int)
    requires TWO63 <= x < TWO64 + TWO63
    ensures Wrap(x) == x - TWO64
  {
  }

  lemma {:induction false} WrapCongruent(x: int)
    ensures (x - Wrap(x)) % TWO64 == 0
    decreases if x < 0 then -x else x + 1
  {
    if x < -TWO63 { WrapCongruent(x + TWO64); } else if x >= TWO63 { WrapCongruent(x - TWO64); }
  }

  const SECOND: int := 1_000_000_000
}
