/**
 * Go's `int` on a 64-bit platform: the range of the type, the wrap-around of
 * `+=` on overflow, and the integer division `/`, which truncates toward zero.
 */
module GoInt {

  const MinInt64: int := -0x8000_0000_0000_0000
  const MaxInt64: int := 0x7FFF_FFFF_FFFF_FFFF
  const Modulus: int := 0x1_0000_0000_0000_0000

  predicate InInt64(n: int) {
    MinInt64 <= n <= MaxInt64
  }

  /** Two's-complement wrap-around: an int64 value, `x` itself when it fits. */
  function Wrap64(x: int): (r: int)
    ensures InInt64(r)
    ensures InInt64(x) ==> r == x
  {
    (x - MinInt64) % Modulus + MinInt64
  }

  /** The wrapped value differs from `x` by a whole number of 2^64 steps. */
  lemma WrapCongruent(x: int)
    ensures (Wrap64(x) - x) % Modulus == 0
  {
    var k := (x - MinInt64) / Modulus;
    assert Wrap64(x) - x == -k * Modulus;
  }

  /** Adding to an already wrapped total wraps like adding to the exact total. */
  lemma WrapAdd(a: int, b: int)
    ensures Wrap64(Wrap64(a) + b) == Wrap64(a + b)
  {
    var k := (a - MinInt64) / Modulus;
    assert Wrap64(a) == a - k * Modulus;
    assert Wrap64(a) + b - MinInt64 == (a + b - MinInt64) - k * Modulus;
  }

  /** Go's `a / b` for b > 0: the quotient truncated toward zero. */
  function TruncDiv(a: int, b: int): (q: int)
    requires b > 0
    ensures 0 <= a ==> q * b <= a < q * b + b
    ensures a < 0 ==> q * b - b < a <= q * b
  {
    if a >= 0 then a / b else -((-a) / b)
  }
}
