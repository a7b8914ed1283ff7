/** Swift's integer semantics where they differ from Dafny's: the `Int(_:)` conversion of a
    `Double` and the truncating `/` and `%` operators on `Int`. */
module SwiftInt {

  /** The bounds of Swift's 64-bit `Int`. */
  const IntMin: int := -0x8000_0000_0000_0000
  const IntMax: int := 0x7FFF_FFFF_FFFF_FFFF

  predicate InIntRange(n: int) {
    IntMin <= n <= IntMax
  }

  /** `Int(d)` traps unless the truncated value fits in an `Int`. */
  predicate RepresentableAsInt(d: real) {
    (IntMin - 1) as real < d < (IntMax + 1) as real
  }

  /** `Int(d)`: truncation toward zero, so the result never lies farther from zero than `d`. */
  function TruncateToInt(d: real): (r: int)
    requires RepresentableAsInt(d)
    ensures InIntRange(r)
    ensures 0.0 <= d ==> 0 <= r && r as real <= d < r as real + 1.0
    ensures d < 0.0 ==> r <= 0 && r as real - 1.0 < d <= r as real
  {
    if d >= 0.0 then d.Floor else -((-d).Floor)
  }

  /** Swift's `a / b` for a positive divisor: the quotient is truncated toward zero. */
  function Quot(a: int, b: int): (q: int)
    requires b > 0
    ensures a >= 0 ==> 0 <= q * b <= a < q * b + b
    ensures a < 0 ==> q * b - b < a <= q * b <= 0
  {
    if a >= 0 then
      EuclideanSplit(a, b);
      a / b
    else
      EuclideanSplit(-a, b);
      Negate((-a) / b, b);
      -((-a) / b)
  }

  lemma EuclideanSplit(n: nat, b: int)
    requires b > 0
    ensures (n / b) * b <= n < (n / b) * b + b
    ensures 0 <= (n / b) * b
  {
    var q, r := n / b, n % b;
    assert n == q * b + r;
    assert q >= 0;
  }

  lemma Negate(x: int, b: int)
    ensures (-x) * b == -(x * b)
  {
  }

  /** Swift's `a % b` for a positive divisor: the remainder takes the sign of the dividend and
      completes the quotient, `Quot(a, b) * b + Rem(a, b) == a`. */
  function Rem(a: int, b: int): (r: int)
    requires b > 0
    ensures Quot(a, b) * b + r == a
    ensures a >= 0 ==> 0 <= r < b
    ensures a < 0 ==> -b < r <= 0
  {
    if a >= 0 then a % b else -((-a) % b)
  }
}
