/** Exact-arithmetic models of the few Swift standard-library operations the
    classifiers rely on: `Optional`, `Double.truncatingRemainder(dividingBy:)`,
    `floor` and the integer remainder operator `%`, which truncates toward zero
    (unlike Dafny's Euclidean `%`). */
module SwiftCore {

  datatype Option<+T> = None | Some(value: T)

  /** True when `x` is a whole number. */
  predicate IsWhole(x: real) {
    x.Floor as real == x
  }

  /** `floor(x)`: the greatest whole number not above `x`. */
  function Floor(x: real): (f: int)
    ensures f as real <= x < f as real + 1.0
  {
    x.Floor
  }

  /** Rounding toward zero, the quotient that `truncatingRemainder` uses. */
  function Trunc(x: real): (t: int)
    ensures 0.0 <= x ==> t as real <= x < t as real + 1.0
    ensures x < 0.0 ==> t as real - 1.0 < x <= t as real
  {
    if x >= 0.0 then x.Floor else -((-x).Floor)
  }

  /** `x.truncatingRemainder(dividingBy: 360)`: the remainder of the division
      whose quotient is rounded toward zero, so it has the sign of `x`. */
  function TruncatingRemainder360(x: real): (r: real)
    ensures 0.0 <= x ==> 0.0 <= r < 360.0
    ensures x < 0.0 ==> -360.0 < r <= 0.0
    ensures IsWhole((x - r) / 360.0)
  {
    x - 360.0 * Trunc(x / 360.0) as real
  }

  /** The Euclidean remainder is the only one in `[0, b)`. */
  lemma ModUnique(x: int, b: int, k: int, m: int)
    requires b > 0 && 0 <= m < b && x == b * k + m
    ensures x % b == m
  {
    var d := k - x / b;
    assert b * d == x % b - m by {
      assert x == b * (x / b) + x % b;
      calc { b * d; b * k - b * (x / b); }
    }
  }

  /** Swift's `a % b` on `Int` for a positive divisor: the remainder of the
      division rounded toward zero, so it has the sign of `a`; it differs from
      Dafny's Euclidean `%` exactly when it is negative. */
  function IntRem(a: int, b: int): (r: int)
    requires b > 0
    ensures 0 <= a ==> 0 <= r < b
    ensures a < 0 ==> -b < r <= 0
    ensures a % b == (if r < 0 then r + b else r)
  {
    if a >= 0 then a % b
    else
      var n := -a;
      var q, m := n / b, n % b;
      assert n == b * q + m;
      if m == 0 then ModUnique(a, b, -q, 0); 0
      else ModUnique(a, b, -q - 1, b - m); -m
  }
}
