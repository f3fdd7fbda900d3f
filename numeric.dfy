/** Arithmetic helpers shared by the indicators, the risk gates and the simulator.
    Prices and amounts are `real`; JavaScript numbers are only their carrier. */
module Numeric {

  /** `xs.reduce((a, b) => a + b, 0)`: the left-to-right sum. */
  function Sum(xs: seq<real>): real
  {
    if xs == [] then 0.0 else Sum(xs[..|xs| - 1]) + xs[|xs| - 1]
  }

  lemma {:induction false} SumAppend(a: seq<real>, b: seq<real>)
    ensures Sum(a + b) == Sum(a) + Sum(b)
    decreases |b|
  {
    if b == [] {
      assert a + b == a;
    } else {
      assert (a + b)[..|a + b| - 1] == a + b[..|b| - 1];
      SumAppend(a, b[..|b| - 1]);
    }
  }

  lemma {:induction false} SumSnoc(xs: seq<real>, k: nat)
    requires k < |xs|
    ensures Sum(xs[..k + 1]) == Sum(xs[..k]) + xs[k]
  {
    assert xs[..k + 1][..k] == xs[..k];
  }

  lemma {:induction false} SumNonNegative(xs: seq<real>)
    requires forall k :: 0 <= k < |xs| ==> 0.0 <= xs[k]
    ensures 0.0 <= Sum(xs)
    decreases |xs|
  {
    if xs != [] {
      SumNonNegative(xs[..|xs| - 1]);
    }
  }

  lemma {:induction false} SumConstant(xs: seq<real>, c: real)
    requires forall k :: 0 <= k < |xs| ==> xs[k] == c
    ensures Sum(xs) == |xs| as real * c
    decreases |xs|
  {
    if xs != [] {
      SumConstant(xs[..|xs| - 1], c);
    }
  }

  lemma ProductNonNegative(a: real, b: real)
    requires a >= 0.0 && b >= 0.0
    ensures a * b >= 0.0
  {
  }

  lemma QuotientNonNegative(a: real, b: real)
    requires a >= 0.0 && b > 0.0
    ensures a / b >= 0.0
  {
  }

  /** Dividing a positive amount by at least one leaves it positive and no larger. */
  lemma QuotientBounds(a: real, d: real)
    requires a > 0.0 && d >= 1.0
    ensures 0.0 < a / d <= a
  {
    var q := a / d;
    assert q * d == a;
    assert q > 0.0;
    ProductNonNegative(q, d - 1.0);
    assert q * d - q == q * (d - 1.0);
  }

  lemma QuotientZero(a: real, d: real)
    requires d > 0.0
    ensures a / d == 0.0 <==> a == 0.0
  {
  }

  lemma SquareNonNegative(x: real)
    ensures x * x >= 0.0
  {
    if x < 0.0 {
      ProductNonNegative(-x, -x);
      assert x * x == (-x) * (-x);
    } else {
      ProductNonNegative(x, x);
    }
  }

  function Max(a: real, b: real): real { if a >= b then a else b }

  function Min(a: real, b: real): real { if a <= b then a else b }

  function Abs(x: real): real { if x < 0.0 then -x else x }

  /** `Math.floor`. */
  function Floor(x: real): (n: int)
    ensures n as real <= x < n as real + 1.0
  {
    x.Floor
  }

  /** `Math.round`: the nearest integer, halves rounded up. */
  function Round(x: real): (n: int)
    ensures x - 0.5 < n as real <= x + 0.5
  {
    Floor(x + 0.5)
  }

  /** `x || d` for a number `x` that is present: zero is falsy and falls back to `d`. */
  function OrElse(x: real, d: real): (r: real)
    ensures r == x || r == d
    ensures r == 0.0 ==> d == 0.0
  {
    if x != 0.0 then x else d
  }

  /** `Number(p) || d` for an integer period parameter; 0 stands for an absent parameter. */
  function PeriodOr(p: nat, d: nat): (r: nat)
    ensures d >= 1 ==> r >= 1
  {
    if p != 0 then p else d
  }

  /** Decimal rendering of a non-negative integer, as template literals print it. */
  function NatToString(n: nat): (s: string)
    ensures |s| >= 1
    ensures forall k :: 0 <= k < |s| ==> '0' <= s[k] <= '9'
  {
    if n < 10 then [Digit(n)] else NatToString(n / 10) + [Digit(n % 10)]
  }

  function Digit(d: nat): (c: char)
    requires d < 10
    ensures '0' <= c <= '9'
  {
    ['0', '1', '2', '3', '4', '5', '6', '7', '8', '9'][d]
  }

  /** A JavaScript number that may have left the reals: the result of a division by zero. */
  datatype Extended = Finite(value: real) | PositiveInfinity | NegativeInfinity | NotANumber

  /** `a / b` on finite operands, as IEEE-754 divides (a zero divisor is taken to be +0). */
  function Divide(a: real, b: real): (q: Extended)
    ensures b != 0.0 ==> q == Finite(a / b)
    ensures b == 0.0 ==> (q == PositiveInfinity <==> a > 0.0)
    ensures b == 0.0 ==> (q == NegativeInfinity <==> a < 0.0)
    ensures b == 0.0 ==> (q == NotANumber <==> a == 0.0)
  {
    if b != 0.0 then Finite(a / b)
    else if a > 0.0 then PositiveInfinity
    else if a < 0.0 then NegativeInfinity
    else NotANumber
  }

  /** `x * k` for a positive finite factor: infinities and NaN are kept. */
  function Scale(x: Extended, k: real): (y: Extended)
    requires k > 0.0
    ensures x.Finite? <==> y.Finite?
    ensures x.Finite? ==> y.value == x.value * k
    ensures !x.Finite? ==> y == x
  {
    if x.Finite? then Finite(x.value * k) else x
  }

  /** `x >= bound` as JavaScript compares: every finite bound is below +Infinity and above
      -Infinity, and any comparison with NaN is false. */
  predicate AtLeast(x: Extended, bound: real)
  {
    match x
    case Finite(v) => v >= bound
    case PositiveInfinity => true
    case NegativeInfinity => false
    case NotANumber => false
  }

  /** Whole hundredths: lot sizes are multiples of 0.01. */
  predicate WholeHundredths(x: real)
  {
    (x * 100.0).Floor as real == x * 100.0
  }

  /** `Math.max(x, y)`: NaN if either is NaN, otherwise the larger, with -Infinity below
      and +Infinity above every finite value. */
  function MaxExtended(x: Extended, y: Extended): (m: Extended)
    ensures x.NotANumber? || y.NotANumber? <==> m.NotANumber?
    ensures x.Finite? && y.Finite? ==> m == Finite(Max(x.value, y.value))
    ensures m.Finite? ==> x.Finite? || y.Finite?
  {
    if x.NotANumber? || y.NotANumber? then NotANumber
    else if x.PositiveInfinity? || y.PositiveInfinity? then PositiveInfinity
    else if x.NegativeInfinity? then y
    else if y.NegativeInfinity? then x
    else Finite(Max(x.value, y.value))
  }

  /** `c - (d - x)` for finite `c` and `d`: an infinite `x` keeps its sign. */
  function Shift(x: Extended, offset: real): (y: Extended)
    ensures x.Finite? <==> y.Finite?
    ensures x.Finite? ==> y.value == x.value + offset
    ensures !x.Finite? ==> y == x
  {
    if x.Finite? then Finite(x.value + offset) else x
  }

  /** `x * k` for any finite factor: an infinity times zero is NaN, and a negative factor
      flips the sign of an infinity. */
  function Times(x: Extended, k: real): (y: Extended)
    ensures x.Finite? <==> y.Finite?
    ensures x.Finite? ==> y.value == x.value * k
    ensures k > 0.0 ==> y == Scale(x, k)
  {
    match x
    case Finite(v) => Finite(v * k)
    case NotANumber => NotANumber
    case PositiveInfinity => if k > 0.0 then PositiveInfinity else if k < 0.0 then NegativeInfinity else NotANumber
    case NegativeInfinity => if k > 0.0 then NegativeInfinity else if k < 0.0 then PositiveInfinity else NotANumber
  }
}
