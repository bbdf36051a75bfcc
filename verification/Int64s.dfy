/** Go's int64 and uint64: two's-complement wrap-around and division that truncates toward zero. */
module Int64s {

  const TWO64: int := 0x1_0000_0000_0000_0000
  const MIN64: int := -0x8000_0000_0000_0000
  const MAX64: int := 0x7fff_ffff_ffff_ffff

  predicate Fits(x: int) {
    MIN64 <= x <= MAX64
  }

  type Int64 = x: int | MIN64 <= x <= MAX64

  /** What an int64 operation stores when its mathematical result is x. */
  function Wrap(x: int): (r: Int64)
    ensures Fits(x) ==> r == x
  {
    (x - MIN64) % TWO64 + MIN64
  }

  /** It differs from x by whole turns, and is the only int64 that does. */
  lemma WrapIsCongruent(x: int, r: Int64)
    ensures Wrap(x) == r <==> (r - x) % TWO64 == 0
  {
  }

  /** The operators + - * on int64. */
  function Plus(x: int, y: int): (r: Int64) {
    Wrap(x + y)
  }

  function Minus(x: int, y: int): (r: Int64) {
    Wrap(x - y)
  }

  function Times(x: int, y: int): (r: Int64) {
    Wrap(x * y)
  }

  lemma WrapAt(x: int, turns: int, r: Int64)
    requires x == turns * TWO64 + r
    ensures Wrap(x) == r
  {
    WrapIsCongruent(x, r);
  }

  /** Sums may be wrapped on the way or once at the end. */
  lemma WrapOfSum(x: int, y: int)
    ensures Wrap(Wrap(x) + Wrap(y)) == Wrap(x + y)
  {
    WrapIsCongruent(x, Wrap(x));
    WrapIsCongruent(y, Wrap(y));
    WrapIsCongruent(x + y, Wrap(Wrap(x) + Wrap(y)));
    WrapIsCongruent(Wrap(x) + Wrap(y), Wrap(Wrap(x) + Wrap(y)));
    var r := Wrap(Wrap(x) + Wrap(y));
    SumOfTurns(r - (Wrap(x) + Wrap(y)), Wrap(x) - x, Wrap(y) - y);
    assert r - (x + y) == (r - (Wrap(x) + Wrap(y))) + (Wrap(x) - x) + (Wrap(y) - y);
  }

  lemma SumOfTurns(a: int, b: int, c: int)
    requires a % TWO64 == 0 && b % TWO64 == 0 && c % TWO64 == 0
    ensures (a + b + c) % TWO64 == 0
  {
  }

  /** The / operator of Go. */
  function Div(a: int, b: int): (r: int)
    requires b > 0
  {
    if a >= 0 then a / b else -((-a) / b)
  }

  /** The % operator of Go. */
  function Rem(a: int, b: int): (r: int)
    requires b > 0
  {
    if a >= 0 then a % b else -((-a) % b)
  }

  /** Quotient and remainder fit together; the remainder is smaller than the divisor and has
      the sign of the dividend, as the quotient has, which is no larger than the dividend. */
  lemma DivRem(a: int, b: int)
    requires b > 0
    ensures a == b * Div(a, b) + Rem(a, b)
    ensures -b < Rem(a, b) < b
    ensures if a >= 0 then 0 <= Div(a, b) <= a && Rem(a, b) >= 0 else a <= Div(a, b) <= 0 && Rem(a, b) <= 0
  {
    var p := if a >= 0 then a else -a;
    assert p == b * (p / b) + p % b;
    QuotientAtMost(p, b);
    assert b * (-(p / b)) == -(b * (p / b));
  }

  lemma QuotientAtMost(p: nat, b: int)
    requires b > 0
    ensures 0 <= p / b <= p
  {
    var q, r := p / b, p % b;
    NonNegative(b - 1, q);
    Distribute(b - 1, 1, q);
    assert p == b * q + r && 0 <= r;
  }

  lemma NonNegative(x: nat, y: nat)
    ensures x * y >= 0
  {
  }

  lemma Distribute(x: int, y: int, z: int)
    ensures (x + y) * z == x * z + y * z
  {
  }

  /** absInt64: the negation of the smallest int64 is itself. */
  function AbsInt64(n: Int64): (r: Int64)
    ensures n != MIN64 ==> r as int == if n < 0 then -(n as int) else n as int
    ensures n == MIN64 ==> r == MIN64
  {
    if n < 0 then Wrap(-(n as int)) else n
  }

  /** isOffsetInRange. */
  predicate IsOffsetInRange(offset: Int64, max: Int64) {
    AbsInt64(offset) < max
  }

  /** It is the mathematical |offset| < max for every offset but the smallest int64,
      which is in range of every threshold except itself. */
  lemma IsOffsetInRangeExactly(offset: Int64, max: Int64)
    ensures offset != MIN64 ==> (IsOffsetInRange(offset, max) <==> -(max as int) < offset < max)
    ensures offset == MIN64 ==> (IsOffsetInRange(offset, max) <==> max != MIN64)
  {
  }
}
