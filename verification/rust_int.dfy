/** Rust's fixed-width integers as ranges of `int`, and the `%` operator of
    Rust, which truncates toward zero (unlike Dafny's Euclidean `%`). */
module RustInt {

  const I32_MIN: int := -0x8000_0000
  const I32_MAX: int := 0x7FFF_FFFF
  const U32_MAX: int := 0xFFFF_FFFF

  predicate IsI32(n: int) { I32_MIN <= n <= I32_MAX }

  predicate IsU32(n: int) { 0 <= n <= U32_MAX }

  /** `a / b` in Rust for a positive divisor: the quotient is truncated
      toward zero. It agrees with Dafny's `/` on a non-negative dividend and
      never has the opposite sign of the dividend. */
  function Quot(a: int, b: int): (q: int)
    requires b > 0
    ensures a >= 0 ==> q == a / b
    ensures (a >= 0 ==> q >= 0) && (a <= 0 ==> q <= 0)
  {
    if a >= 0 then a / b else -((-a) / b)
  }

  /** Truncation is symmetric about zero: negating the dividend negates the
      quotient (floored division, such as Dafny's, is not). */
  lemma QuotNegates(a: int, b: int)
    requires b > 0
    ensures Quot(-a, b) == -Quot(a, b)
  {
  }

  /** `a % b` in Rust for a positive divisor: the remainder of the truncating
      division, so it takes the sign of the dividend and `-3 % 2 == -1`. */
  function Rem(a: int, b: int): (r: int)
    requires b > 0
    ensures a == Quot(a, b) * b + r
    ensures -b < r < b
    ensures r > 0 ==> a > 0
    ensures r < 0 ==> a < 0
  {
    if a >= 0 then a % b else -((-a) % b)
  }
}
