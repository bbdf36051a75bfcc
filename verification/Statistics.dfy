/** The running offset statistics of a clock: stats.go AddValue, StDev and MaxAbs. */
module Statistics {
  import opened Int64s

  /** The counters of a Stats object. */
  datatype Accum = Accum(num: nat, max: int, min: int, mean: int, sumSqr: int, sumDiffSqr: int)

  const ZERO := Accum(0, 0, 0, 0, 0, 0)

  /** AddValue on unbounded integers; the mean moves by a truncated quotient. */
  function Add(a: Accum, v: int): (r: Accum) {
    var num := a.num + 1;
    var mean := a.mean + Div(v - a.mean, num);
    Accum(num,
          if a.max < v then v else a.max,
          if a.num == 0 || a.min > v then v else a.min,
          mean,
          a.sumSqr + v * v,
          a.sumDiffSqr + (v - a.mean) * (v - mean))
  }

  /** AddValue as int64 computes it: every intermediate result wraps. */
  function Add64(a: Accum, v: int): (r: Accum) {
    var num := a.num + 1;
    var mean := Plus(a.mean, Div(Minus(v, a.mean), num));
    Accum(num,
          if a.max < v then v else a.max,
          if a.num == 0 || a.min > v then v else a.min,
          mean,
          Plus(a.sumSqr, Times(v, v)),
          Plus(a.sumDiffSqr, Times(Minus(v, a.mean), Minus(v, mean))))
  }

  /** The counters after a fresh or reset object has taken in these values. */
  function Run(vs: seq<int>): (a: Accum) {
    if vs == [] then ZERO else Add(Run(vs[..|vs| - 1]), vs[|vs| - 1])
  }

  function Run64(vs: seq<int>): (a: Accum) {
    if vs == [] then ZERO else Add64(Run64(vs[..|vs| - 1]), vs[|vs| - 1])
  }

  // ----- Independent definitions the counters are compared with

  function Sum(vs: seq<int>): (r: int) {
    if vs == [] then 0 else Sum(vs[..|vs| - 1]) + vs[|vs| - 1]
  }

  function SumOfSquares(vs: seq<int>): (r: int) {
    if vs == [] then 0 else SumOfSquares(vs[..|vs| - 1]) + vs[|vs| - 1] * vs[|vs| - 1]
  }

  /** The sum of the squared distances of the values to m. */
  function SquaredDistance(vs: seq<int>, m: int): (r: int) {
    if vs == [] then 0
    else SquaredDistance(vs[..|vs| - 1], m) + (vs[|vs| - 1] - m) * (vs[|vs| - 1] - m)
  }

  /** The remainder the last division of a run threw away. */
  function LastRemainder(vs: seq<int>): (r: int)
    requires vs != []
  {
    Rem(vs[|vs| - 1] - Run(vs[..|vs| - 1]).mean, |vs|)
  }

  /** All that truncation threw away so far. */
  function Lost(vs: seq<int>): (r: int) {
    if vs == [] then 0 else Lost(vs[..|vs| - 1]) + LastRemainder(vs)
  }

  /** How far the mean moved at each step, weighed with what truncation had lost around it. */
  function SpreadError(vs: seq<int>): (r: int) {
    if vs == [] then 0
    else
      var before := vs[..|vs| - 1];
      SpreadError(before) + (Run(vs).mean - Run(before).mean) * (Lost(vs) + Lost(before))
  }

  // ----- The mean

  lemma {:induction false} CountIsLength(vs: seq<int>)
    ensures Run(vs).num == |vs|
  {
    if vs != [] {
      CountIsLength(vs[..|vs| - 1]);
    }
  }

  lemma EmptyRun()
    ensures Run([]) == ZERO
  {
  }

  /** One step of a run: the new value's distance d to the old mean m splits into n times the
      move q of the mean and a remainder r, and the mean never moves past the new value. */
  lemma Step(vs: seq<int>) returns (before: seq<int>, v: int, m: int, q: int, r: int)
    requires vs != []
    ensures before == vs[..|vs| - 1] && v == vs[|vs| - 1] && vs == before + [v]
    ensures m == Run(before).mean && Run(before).num == |before|
    ensures Run(vs) == Add(Run(before), v) && Run(vs).mean == m + q
    ensures r == LastRemainder(vs) && v - m == |vs| * q + r && -|vs| < r < |vs|
    ensures if v >= m then 0 <= q <= v - m && r >= 0 else v - m <= q <= 0
  {
    before, v := vs[..|vs| - 1], vs[|vs| - 1];
    CountIsLength(before);
    m := Run(before).mean;
    DivRem(v - m, |vs|);
    q, r := Div(v - m, |vs|), Rem(v - m, |vs|);
  }

  /** The sum is the count times the mean plus everything truncation threw away,
      and that is at most 0 + 1 + ... + (n-1) in either direction. */
  lemma {:induction false} MeanDrift(vs: seq<int>)
    ensures Sum(vs) == |vs| * Run(vs).mean + Lost(vs)
    ensures -Triangle(|vs|) <= Lost(vs) <= Triangle(|vs|)
  {
    hide Run, LastRemainder;
    if vs == [] {
      EmptyRun();
    } else {
      var before, v, m, q, r := Step(vs);
      MeanDrift(before);
      MoveMean(|before|, m, q, v, r, Sum(before), Lost(before));
    }
  }

  lemma MoveMean(n: int, m: int, q: int, v: int, r: int, sum: int, lost: int)
    requires sum == n * m + lost && v - m == (n + 1) * q + r
    ensures sum + v == (n + 1) * (m + q) + lost + r
  {
    Distribute(n, 1, m);
  }

  /** 0 + 1 + ... + (n-1). */
  function Triangle(n: nat): (r: int) {
    if n == 0 then 0 else Triangle(n - 1) + n - 1
  }

  lemma {:induction false} TriangleClosed(n: nat)
    ensures 2 * Triangle(n) == n * (n - 1)
  {
    if n > 0 {
      TriangleClosed(n - 1);
      assert n * (n - 1) == (n - 1) * (n - 2) + 2 * (n - 1);
    }
  }

  /** The drift bound in closed form. */
  lemma MeanDriftBound(vs: seq<int>)
    ensures -(|vs| * (|vs| - 1)) <= 2 * (|vs| * Run(vs).mean - Sum(vs)) <= |vs| * (|vs| - 1)
  {
    MeanDrift(vs);
    TriangleClosed(|vs|);
  }

  /** 0, 1, ..., n-1. */
  function Ramp(n: nat): (vs: seq<int>)
    ensures |vs| == n
  {
    if n == 0 then [] else Ramp(n - 1) + [n - 1]
  }

  /** The bound is met for every n: on a ramp the mean never leaves 0. */
  lemma {:induction false} MeanDriftIsTight(n: nat)
    ensures Run(Ramp(n)).mean == 0
    ensures Sum(Ramp(n)) == Triangle(n)
  {
    hide Run, LastRemainder;
    if n == 0 {
      EmptyRun();
    } else {
      var before, v, m, q, r := Step(Ramp(n));
      assert before == Ramp(n - 1);
      MeanDriftIsTight(n - 1);
      QuotientIsZero(n, q, r);
    }
  }

  lemma QuotientIsZero(n: int, q: int, r: int)
    requires 0 <= q && 0 <= r < n && n - 1 == n * q + r
    ensures q == 0
  {
    if q >= 1 {
      NonNegative(n, q - 1);
      Distribute(q - 1, 1, n);
    }
  }

  /** min is the least value, max is the greatest of 0 and the values, the mean lies between
      the least and the greatest value, and MaxAbs reports max. */
  lemma {:induction false} Extremes(vs: seq<int>)
    requires vs != []
    ensures Run(vs).min in vs && forall v :: v in vs ==> Run(vs).min <= v
    ensures (Run(vs).max in vs || Run(vs).max == 0) && Run(vs).max >= 0
    ensures forall v :: v in vs ==> v <= Run(vs).max
    ensures Run(vs).min <= Run(vs).mean
    ensures exists v :: v in vs && Run(vs).mean <= v
    ensures MaxAbs(Run(vs)) == Run(vs).max
  {
    var before, v, m, q, r := Step(vs);
    assert v in vs;
    if before == [] {
      assert vs == [v] && Div(v, 1) == v;
    } else {
      Extremes(before);
      var top :| top in before && m <= top;
      assert top in vs;
    }
  }

  /** stats.go MaxAbs: the larger of the two extremes. */
  function MaxAbs(a: Accum): (r: int) {
    if a.max > a.min then a.max else a.min
  }

  // ----- The spread

  /** Every contribution to sumDiffSqr is non-negative, so StDev takes the root of a
      non-negative number. */
  lemma {:induction false} SpreadNeverShrinks(vs: seq<int>)
    ensures Run(vs).sumDiffSqr >= 0
    ensures vs != [] ==> Run(vs).sumDiffSqr >= Run(vs[..|vs| - 1]).sumDiffSqr
    ensures Run(vs).sumSqr == SumOfSquares(vs)
  {
    if vs != [] {
      var before, v, m, q, r := Step(vs);
      SpreadNeverShrinks(before);
      SameSign(v - m, v - (m + q));
    }
  }

  lemma SameSign(a: int, b: int)
    requires (a >= 0 && b >= 0) || (a <= 0 && b <= 0)
    ensures a * b >= 0
  {
    if a <= 0 && b <= 0 {
      assert a * b == (-a) * (-b);
    }
  }

  /** Moving the centre from m to m + q. */
  lemma {:induction false} ShiftCentre(vs: seq<int>, m: int, q: int)
    ensures SquaredDistance(vs, m + q)
         == SquaredDistance(vs, m) - 2 * (q * (Sum(vs) - |vs| * m)) + |vs| * (q * q)
  {
    if vs != [] {
      var before, v := vs[..|vs| - 1], vs[|vs| - 1];
      ShiftCentre(before, m, q);
      ShiftOne(|before|, Sum(before), v, m, q);
    }
  }

  lemma ShiftOne(n: int, s: int, v: int, m: int, q: int)
    ensures -2 * (q * (s - n * m)) + n * (q * q) + (v - (m + q)) * (v - (m + q))
         == -2 * (q * (s + v - (n + 1) * m)) + (n + 1) * (q * q) + (v - m) * (v - m)
  {
    var d := v - m;
    assert s + v - (n + 1) * m == (s - n * m) + d;
    assert q * ((s - n * m) + d) == q * (s - n * m) + q * d;
    assert (d - q) * (d - q) == d * d - 2 * (q * d) + q * q;
  }

  /** What sumDiffSqr holds: the sum of squared distances to the current mean, plus an error
      that is made only where the mean moved while truncation had lost something. */
  lemma {:induction false} SpreadIdentity(vs: seq<int>)
    ensures Run(vs).sumDiffSqr == SquaredDistance(vs, Run(vs).mean) + SpreadError(vs)
  {
    hide Run, LastRemainder;
    if vs == [] {
      EmptyRun();
    } else {
      var before, v, m, q, r := Step(vs);
      SpreadIdentity(before);
      MeanDrift(before);
      ShiftCentre(before, m, q);
      SpreadAlgebra(v - m, |vs|, q, r, Lost(before));
      assert v - (m + q) == v - m - q;
    }
  }

  lemma SpreadAlgebra(d: int, n: int, q: int, r: int, lost: int)
    requires d == n * q + r
    ensures d * (d - q) == -2 * (q * lost) + (n - 1) * (q * q) + (d - q) * (d - q) + q * (lost + r + lost)
  {
    assert d * (d - q) == (d - q) * (d - q) + q * (d - q);
    assert d - q == (n - 1) * q + r;
    assert q * ((n - 1) * q + r) == q * ((n - 1) * q) + q * r;
    assert q * ((n - 1) * q) == (n - 1) * (q * q);
    assert q * (lost + r + lost) == 2 * (q * lost) + q * r;
  }

  /** When no division of the run had a remainder the mean and the spread are exact. */
  lemma {:induction false} ExactRun(vs: seq<int>)
    requires forall i :: 0 < i <= |vs| ==> LastRemainder(vs[..i]) == 0
    ensures |vs| * Run(vs).mean == Sum(vs)
    ensures Run(vs).sumDiffSqr == SquaredDistance(vs, Run(vs).mean)
  {
    NothingLost(vs, |vs|);
    assert vs[..|vs|] == vs;
    MeanDrift(vs);
    SpreadIdentity(vs);
  }

  lemma {:induction false} NothingLost(vs: seq<int>, k: nat)
    requires k <= |vs|
    requires forall i :: 0 < i <= |vs| ==> LastRemainder(vs[..i]) == 0
    ensures Lost(vs[..k]) == 0 && SpreadError(vs[..k]) == 0
  {
    hide Run, LastRemainder;
    if k > 0 {
      NothingLost(vs, k - 1);
      assert vs[..k][..k - 1] == vs[..k - 1];
      assert Lost(vs[..k]) + Lost(vs[..k - 1]) == 0;
    }
  }

  // ----- int64

  predicate AllWithin(vs: seq<int>, bound: int) {
    forall i :: 0 <= i < |vs| ==> -bound <= vs[i] <= bound
  }

  lemma ProductMonotone(x: int, y: int, bound: int)
    requires 0 <= x <= bound && 0 <= y <= bound
    ensures 0 <= x * y <= bound * bound
  {
    NonNegative(x, y);
    NonNegative(x, bound - y);
    NonNegative(bound - x, bound);
    Distribute(x, bound - x, bound);
    Distribute(y, bound - y, x);
  }

  lemma SquareBound(x: int, bound: int)
    requires -bound <= x <= bound
    ensures 0 <= x * x <= bound * bound
  {
    if x < 0 {
      assert x * x == (-x) * (-x);
    }
    var y := if x < 0 then -x else x;
    ProductMonotone(y, y, bound);
  }

  lemma ProductBound(x: int, y: int, bound: int)
    requires -bound <= x <= bound && -bound <= y <= bound
    requires (x >= 0 && y >= 0) || (x <= 0 && y <= 0)
    ensures 0 <= x * y <= bound * bound
  {
    var a, b := if x < 0 then -x else x, if y < 0 then -y else y;
    assert x * y == a * b;
    ProductMonotone(a, b, bound);
  }

  /** Sizes of the counters after values of magnitude at most bound. */
  lemma {:induction false} MeanBound(vs: seq<int>, bound: int)
    requires bound >= 0 && AllWithin(vs, bound)
    ensures -bound <= Run(vs).mean <= bound
  {
    hide Run, LastRemainder;
    if vs == [] {
      EmptyRun();
    } else {
      var before, v, m, q, r := Step(vs);
      MeanBound(before, bound);
    }
  }

  lemma {:induction false} CounterBounds(vs: seq<int>, bound: int)
    requires bound >= 0 && AllWithin(vs, bound)
    ensures 0 <= Run(vs).sumSqr <= |vs| * (bound * bound)
    ensures 0 <= Run(vs).sumDiffSqr <= |vs| * (4 * (bound * bound))
  {
    hide Run, LastRemainder;
    if vs == [] {
      EmptyRun();
    } else {
      var before, square, sq, diff := Growth(vs, bound);
      CounterBounds(before, bound);
      Distribute(|before|, 1, square);
      Distribute(|before|, 1, 4 * square);
    }
  }

  /** What the last of those values adds to the two sums of squares. */
  lemma Growth(vs: seq<int>, bound: int) returns (before: seq<int>, square: int, sq: int, diff: int)
    requires bound >= 0 && vs != [] && AllWithin(vs, bound)
    ensures before == vs[..|vs| - 1] && AllWithin(before, bound) && square == bound * bound
    ensures 0 <= sq <= square && 0 <= diff <= 4 * square
    ensures Run(vs).sumSqr == Run(before).sumSqr + sq
    ensures Run(vs).sumDiffSqr == Run(before).sumDiffSqr + diff
    ensures sq == vs[|vs| - 1] * vs[|vs| - 1]
    ensures diff == (vs[|vs| - 1] - Run(before).mean) * (vs[|vs| - 1] - Run(vs).mean)
  {
    hide Run, LastRemainder;
    var v, m, q, r;
    before, v, m, q, r := Step(vs);
    MeanBound(before, bound);
    SquareBound(v, bound);
    ProductBound(v - m, v - (m + q), 2 * bound);
    Doubled(bound);
    square, sq, diff := bound * bound, v * v, (v - m) * (v - (m + q));
  }

  lemma Doubled(bound: int)
    ensures (2 * bound) * (2 * bound) == 4 * (bound * bound)
  {
  }

  lemma Run64Step(vs: seq<int>)
    ensures Run64(vs) == if vs == [] then ZERO else Add64(Run64(vs[..|vs| - 1]), vs[|vs| - 1])
  {
  }

  /** The counters with the two sums wrapped. */
  function Wrapped(a: Accum): (r: Accum) {
    a.(sumSqr := Wrap(a.sumSqr), sumDiffSqr := Wrap(a.sumDiffSqr))
  }

  /** One more value whose distances to the mean fit. */
  lemma AddWraps(a: Accum, v: int)
    requires Fits(v - a.mean) && Fits(Add(a, v).mean) && Fits(v - Add(a, v).mean)
    ensures Add64(Wrapped(a), v) == Wrapped(Add(a, v))
  {
    var mean := Add(a, v).mean;
    WrapOfSum(a.sumSqr, v * v);
    WrapOfSum(a.sumDiffSqr, (v - a.mean) * (v - mean));
    hide Div, Wrap;
  }

  /** What int64 computes from values whose distances fit: count, extremes and mean are right, and
      the two sums of squares are right up to whole turns. */
  lemma {:induction false} OnlySumsWrap(vs: seq<int>, bound: int)
    requires bound >= 0 && AllWithin(vs, bound) && 2 * bound <= MAX64
    ensures Run64(vs) == Wrapped(Run(vs))
  {
    Run64Step(vs);
    if vs == [] {
      EmptyRun();
    } else {
      hide Run, Run64, Add, Add64, LastRemainder, Wrapped;
      var before, v, m, q, r := Step(vs);
      OnlySumsWrap(before, bound);
      MeanBound(before, bound);
      MeanBound(vs, bound);
      AddWraps(Run(before), v);
    }
  }

  lemma {:induction false} SquaresAre(vs: seq<int>)
    ensures Run(vs).sumSqr == SumOfSquares(vs) >= 0 && Run(vs).sumDiffSqr >= 0
  {
    SpreadNeverShrinks(vs);
    SquaresGrow(vs, 0);
  }

  /** int64 computes what integers would exactly when both sums of squares fit, for any values. */
  lemma {:induction false} OverflowsExactly(vs: seq<int>)
    ensures Run64(vs) == Run(vs) <==> SumOfSquares(vs) <= MAX64 && Run(vs).sumDiffSqr <= MAX64
  {
    hide Run, Run64, LastRemainder, SumOfSquares;
    SquaresAre(vs);
    SumsFit(vs);
    if SumOfSquares(vs) <= MAX64 {
      forall i | 0 <= i < |vs| ensures -SQUARE_ROOT <= vs[i] <= SQUARE_ROOT {
        SquaresGrow(vs, i);
        RootBounds(vs[i]);
      }
      OnlySumsWrap(vs, SQUARE_ROOT);
    }
  }

  /** Anything whose square fits is smaller. */
  const SQUARE_ROOT: int := 0x1_0000_0000

  lemma RootBounds(v: int)
    requires v * v <= MAX64
    ensures -SQUARE_ROOT <= v <= SQUARE_ROOT
  {
    var x := if v < 0 then -v else v;
    assert x * x == v * v;
    if x > SQUARE_ROOT {
      LargeSquare(x);
    }
  }

  lemma LargeSquare(x: int)
    requires x > SQUARE_ROOT
    ensures x * x > MAX64
  {
    var d := x - SQUARE_ROOT;
    assert x * x == d * d + 2 * SQUARE_ROOT * d + SQUARE_ROOT * SQUARE_ROOT;
    NonNegative(d, d);
  }

  lemma SumsFit(vs: seq<int>)
    ensures Fits(Run64(vs).sumSqr) && Fits(Run64(vs).sumDiffSqr)
  {
    Run64Step(vs);
  }

  lemma {:induction false} SquaresGrow(vs: seq<int>, i: nat)
    ensures SumOfSquares(vs) >= 0
    ensures i < |vs| ==> vs[i] * vs[i] <= SumOfSquares(vs)
  {
    if vs != [] {
      var v := vs[|vs| - 1];
      SquaresGrow(vs[..|vs| - 1], i);
      SameSign(v, v);
    }
  }

  /** Values of magnitude at most bound with 4 * n * bound^2 < 2^63 never overflow. */
  lemma NoOverflow(vs: seq<int>, bound: int)
    requires bound >= 0 && AllWithin(vs, bound)
    requires |vs| * (4 * (bound * bound)) <= MAX64
    ensures Run64(vs) == Run(vs)
  {
    hide Run, Run64, LastRemainder, SumOfSquares;
    CounterBounds(vs, bound);
    SquaresAre(vs);
    OverflowsExactly(vs);
    FourTimes(|vs|, bound * bound);
    NonNegative(|vs|, bound * bound);
  }

  lemma FourTimes(n: int, x: int)
    ensures n * (4 * x) == 4 * (n * x)
  {
  }

  const FREE_RUN_OFFSET: int := -9999999999999999

  /** The offset recorded when a process dies: any run that takes it in overflows. */
  lemma {:induction false} FreeRunOffsetOverflows(vs: seq<int>)
    requires FREE_RUN_OFFSET in vs
    ensures Run64(vs) != Run(vs)
  {
    hide Run, Run64;
    var i :| 0 <= i < |vs| && vs[i] == FREE_RUN_OFFSET;
    SquaresGrow(vs, i);
    OverflowsExactly(vs);
  }

  /** After one sample of 0 it leaves a negative spread, of which StDev takes the root. */
  lemma FreeRunOffsetSpoilsSpread(vs: seq<int>)
    requires |vs| == 2 && vs[0] == 0 && vs[1] == FREE_RUN_OFFSET
    ensures Run64(vs).sumDiffSqr < 0 <= Run(vs).sumDiffSqr
  {
    hide Run, Run64, Add64, LastRemainder;
    SpreadNeverShrinks(vs);
    Run64Step(vs);
    var before := vs[..1];
    NoOverflow(before, 0);
    MeanBound(before, 0);
    CounterBounds(before, 0);
    CountIsLength(before);
    AddFreeRunOffset(Run(before));
  }

  lemma AddFreeRunOffset(a: Accum)
    requires a.num == 1 && a.mean == 0 && a.sumDiffSqr == 0
    ensures Add64(a, FREE_RUN_OFFSET).sumDiffSqr == -4412203516670541824
  {
    var mean := -4999999999999999;
    assert Add64(a, FREE_RUN_OFFSET).mean == mean;
    var product := FREE_RUN_OFFSET * (FREE_RUN_OFFSET - mean);
    WrapAt(product, 2710505431214, -4412203516670541824);
  }
}
