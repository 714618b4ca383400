/** JavaScript number semantics as far as the scoring and dashboard code needs them:
    exact reals for finite values, plus the NaN and infinities that a division by
    zero produces. `Math.round` is `floor(x + 1/2)` (round half up, also for negatives). */
module JsNumber {

  datatype Num = NaN | PosInf | NegInf | Finite(r: real)

  /** Math.round on an exact real. */
  function RoundHalfUp(x: real): (n: int)
    ensures n as real - 0.5 <= x < n as real + 0.5
  {
    (x + 0.5).Floor
  }

  /** Floor of an exact quotient is Euclidean (floor) division for a positive divisor. */
  lemma FloorOfQuotient(a: int, b: int)
    requires b > 0
    ensures (a as real / b as real).Floor == a / b
  {
    var q, m := a / b, a % b;
    assert a == q * b + m && 0 <= m < b;
    assert a as real / b as real == q as real + m as real / b as real;
    assert 0.0 <= m as real / b as real < 1.0;
  }

  lemma QuotientOf(p: real, q: real, w: real)
    requires q > 0.0 && w * q == p
    ensures p / q == w
  {
  }

  /** Rounding a quotient of integers is an integer division: round(a/b) == (2a + b) / 2b. */
  lemma RoundQuotient(a: int, b: int)
    requires b > 0
    ensures RoundHalfUp(a as real / b as real) == (2 * a + b) / (2 * b)
  {
    var x, y := a as real, b as real;
    var z := x / y;
    assert z * y == x;
    assert (z + 0.5) * (2.0 * y) == 2.0 * x + y;
    var p, q := (2 * a + b) as real, (2 * b) as real;
    assert p == 2.0 * x + y && q == 2.0 * y;
    assert (z + 0.5) * q == p;
    QuotientOf(p, q, z + 0.5);
    FloorOfQuotient(2 * a + b, 2 * b);
  }

  /** Scaling a quotient: (a / b) * w == (a * w) / b. */
  lemma ScaledQuotient(a: int, b: int, w: int)
    requires b > 0
    ensures (a as real / b as real) * w as real == (a * w) as real / b as real
  {
    var z := a as real / b as real;
    assert z * b as real == a as real;
    assert (a * w) as real == a as real * w as real;
    assert (z * w as real) * b as real == (a * w) as real;
    QuotientOf((a * w) as real, b as real, z * w as real);
  }

  /** `Math.round(a / b * w)` == (2aw + b) / 2b. */
  lemma RoundScaled(a: int, b: int, w: int)
    requires b > 0
    ensures RoundHalfUp((a as real / b as real) * w as real) == (2 * a * w + b) / (2 * b)
  {
    ScaledQuotient(a, b, w);
    RoundQuotient(a * w, b);
    assert 2 * (a * w) == 2 * a * w;
  }

  lemma QuotientAtLeast(a: real, b: real, c: real)
    requires b > 0.0 && c * b <= a
    ensures c <= a / b
  {
    var q := a / b;
    assert q * b == a;
  }

  lemma QuotientAtMost(a: real, b: real, c: real)
    requires b > 0.0 && a <= c * b
    ensures a / b <= c
  {
    var q := a / b;
    assert q * b == a;
  }

  /** A rounded mean lies between bounds of the values: lo*n <= sum <= hi*n gives
      lo <= round(sum / n) <= hi. */
  lemma RoundedMeanWithin(sum: int, n: int, lo: int, hi: int)
    requires n > 0 && lo * n <= sum <= hi * n
    ensures lo <= RoundHalfUp(sum as real / n as real) <= hi
  {
    assert (lo * n) as real == lo as real * n as real;
    assert (hi * n) as real == hi as real * n as real;
    QuotientAtLeast(sum as real, n as real, lo as real);
    QuotientAtMost(sum as real, n as real, hi as real);
  }

  /** A quotient of values 0 <= a <= b, b > 0, is at most 1. */
  lemma QuotientAtMostOne(a: real, b: real)
    requires 0.0 <= a <= b && b > 0.0
    ensures 0.0 <= a / b <= 1.0
  {
    var q := a / b;
    assert q * b == a;
  }

  /** `a / b` in JavaScript: division by zero gives an infinity, or NaN for 0/0. */
  function Div(a: real, b: real): (q: Num)
    ensures b != 0.0 ==> q == Finite(a / b)
    ensures b == 0.0 ==> (q == PosInf <==> a > 0.0) && (q == NegInf <==> a < 0.0) && (q == NaN <==> a == 0.0)
  {
    if b != 0.0 then Finite(a / b)
    else if a > 0.0 then PosInf
    else if a < 0.0 then NegInf
    else NaN
  }

  /** `x * c` for a positive constant c. */
  function Scale(x: Num, c: real): (y: Num)
    requires c > 0.0
    ensures y.Finite? <==> x.Finite?
    ensures x.Finite? ==> y.r == x.r * c
    ensures !x.Finite? ==> y == x
  {
    match x
    case Finite(r) => Finite(r * c)
    case _ => x
  }

  /** Math.round: finite values round half up; NaN and the infinities are unchanged. */
  function Round(x: Num): (y: Num)
    ensures x.Finite? ==> y == Finite(RoundHalfUp(x.r) as real)
    ensures !x.Finite? ==> y == x
  {
    match x
    case Finite(r) => Finite(RoundHalfUp(r) as real)
    case _ => x
  }

  /** `c - x`. */
  function Minus(c: real, x: Num): (y: Num)
    ensures x.Finite? ==> y == Finite(c - x.r)
    ensures x == PosInf ==> y == NegInf
    ensures x == NegInf ==> y == PosInf
    ensures x == NaN ==> y == NaN
  {
    match x
    case Finite(r) => Finite(c - r)
    case PosInf => NegInf
    case NegInf => PosInf
    case NaN => NaN
  }

  /** `x + c` for a finite c. */
  function Plus(x: Num, c: real): (y: Num)
    ensures x.Finite? ==> y == Finite(x.r + c)
    ensures !x.Finite? ==> y == x
  {
    match x
    case Finite(r) => Finite(r + c)
    case _ => x
  }

  /** `Math.round((a / b) * 100)`: a rounded percentage, with no guard against b == 0. */
  function RoundedPercent(a: real, b: real): Num
  {
    Round(Scale(Div(a, b), 100.0))
  }

  /** For whole numbers and a positive divisor the percentage is (200a + b) / 2b. */
  lemma RoundedPercentOfInts(a: int, b: int)
    requires b > 0
    ensures RoundedPercent(a as real, b as real) == Finite(((200 * a + b) / (2 * b)) as real)
  {
    RoundScaled(a, b, 100);
    assert 2 * a * 100 == 200 * a;
  }

  /** A value measured against itself is 100 percent. */
  lemma RoundedPercentOfSelf(a: real)
    requires a != 0.0
    ensures RoundedPercent(a, a) == Finite(100.0)
  {
    assert a / a == 1.0;
    assert RoundHalfUp(100.0) == 100;
  }

  /** Against 0 the percentage is never a number: NaN for 0/0, an infinity otherwise. */
  lemma RoundedPercentByZero(a: real)
    ensures !RoundedPercent(a, 0.0).Finite?
    ensures RoundedPercent(a, 0.0) == NaN <==> a == 0.0
  {
  }

  /** `x >= c`: every comparison with NaN is false. */
  predicate AtLeast(x: Num, c: real)
  {
    match x
    case Finite(r) => r >= c
    case PosInf => true
    case NegInf => false
    case NaN => false
  }

  /** `x <= y` on two numbers, false whenever one of them is NaN. */
  predicate LessEq(x: Num, y: Num)
  {
    match (x, y)
    case (NaN, _) => false
    case (_, NaN) => false
    case (NegInf, _) => true
    case (_, PosInf) => true
    case (Finite(a), Finite(b)) => a <= b
    case (_, _) => false
  }

  /** AtLeast is monotone in its first argument. */
  lemma AtLeastMonotone(x: Num, y: Num, c: real)
    requires LessEq(x, y) && AtLeast(x, c)
    ensures AtLeast(y, c)
  {
  }

  /** `Math.max(a, b)`: NaN wins; otherwise the larger value. */
  function Max(a: Num, b: Num): (m: Num)
    ensures a == NaN || b == NaN ==> m == NaN
    ensures a != NaN && b != NaN ==> LessEq(a, m) && LessEq(b, m) && (m == a || m == b)
  {
    if a == NaN || b == NaN then NaN
    else if LessEq(a, b) then b
    else a
  }

  /** `Math.max(...xs)`: the maximum of a list, and -Infinity for an empty list. */
  function MaxOf(xs: seq<Num>): (m: Num)
  {
    if xs == [] then NegInf else Max(MaxOf(xs[..|xs| - 1]), xs[|xs| - 1])
  }
}
