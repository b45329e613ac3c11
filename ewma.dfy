/**
 * The EWMA chart: the exponentially weighted moving average of the series
 * (pandas `ewm(alpha = lambda, adjust = False)`), its per-index control
 * limits and the points beyond them.
 */
module Ewma {
  import opened Wrappers
  import opened Series

  /** The limit multiplier L for each weighting factor offered on the slider. */
  function Multiplier(lam: real): (r: Option<real>)
    ensures r.Some? <==> lam in {0.05, 0.1, 0.2, 0.3, 0.4, 0.5, 0.75, 1.0}
    ensures r.Some? ==> 2.615 <= r.value <= 3.090
  {
    if lam == 0.05 then Some(2.615)
    else if lam == 0.1 then Some(2.814)
    else if lam == 0.2 then Some(2.962)
    else if lam == 0.3 then Some(3.023)
    else if lam == 0.4 then Some(3.054)
    else if lam == 0.5 then Some(3.071)
    else if lam == 0.75 then Some(3.087)
    else if lam == 1.0 then Some(3.090)
    else None
  }

  /** A heavier weighting factor comes with a wider limit multiplier. */
  lemma MultiplierIncreasing(lam1: real, lam2: real)
    requires Multiplier(lam1).Some? && Multiplier(lam2).Some? && lam1 < lam2
    ensures Multiplier(lam1).value < Multiplier(lam2).value
  {
  }

  /**
   * The smoothed value at index `i`: seeded with the first value, then
   * `lam*x + (1-lam)*previous`. With `lam = 1` it is the observation itself.
   */
  function EwmaAt(xs: seq<real>, lam: real, i: nat): (z: real)
    requires i < |xs|
    ensures i == 0 ==> z == xs[0]
    ensures lam == 1.0 ==> z == xs[i]
  {
    if i == 0 then xs[0] else Blend(lam, xs[i], EwmaAt(xs, lam, i - 1))
  }

  /** One smoothing step: the new observation weighted `lam`, the previous average `1 - lam`. */
  function Blend(lam: real, x: real, z: real): real
  {
    lam * x + (1.0 - lam) * z
  }

  /** The smoothed series, one value per observation. */
  function Smooth(xs: seq<real>, lam: real): (z: seq<real>)
    ensures |z| == |xs|
    ensures forall i :: 0 <= i < |xs| ==> z[i] == EwmaAt(xs, lam, i)
  {
    seq(|xs|, i requires 0 <= i < |xs| => EwmaAt(xs, lam, i))
  }

  lemma MulNonNegative(a: real, b: real)
    requires a >= 0.0 && b >= 0.0
    ensures a * b >= 0.0
  {
  }

  /** A weighted average with weights `lam` and `1-lam` lies between its two operands' bounds. */
  lemma ConvexStep(lam: real, x: real, z: real, lo: real, hi: real)
    requires 0.0 < lam <= 1.0
    requires lo <= x <= hi && lo <= z <= hi
    ensures lo <= Blend(lam, x, z) <= hi
  {
    MulNonNegative(lam, x - lo);
    MulNonNegative(1.0 - lam, z - lo);
    MulNonNegative(lam, hi - x);
    MulNonNegative(1.0 - lam, hi - z);
    assert lam * x + (1.0 - lam) * z - lo == lam * (x - lo) + (1.0 - lam) * (z - lo);
    assert hi - (lam * x + (1.0 - lam) * z) == lam * (hi - x) + (1.0 - lam) * (hi - z);
  }

  /** The least of `xs[0..i]`. */
  function PrefixMin(xs: seq<real>, i: nat): (m: real)
    requires i < |xs|
    ensures forall j :: 0 <= j <= i ==> m <= xs[j]
    ensures exists j :: 0 <= j <= i && m == xs[j]
  {
    if i == 0 then xs[0]
    else if xs[i] < PrefixMin(xs, i - 1) then xs[i] else PrefixMin(xs, i - 1)
  }

  /** The greatest of `xs[0..i]`. */
  function PrefixMax(xs: seq<real>, i: nat): (m: real)
    requires i < |xs|
    ensures forall j :: 0 <= j <= i ==> xs[j] <= m
    ensures exists j :: 0 <= j <= i && m == xs[j]
  {
    if i == 0 then xs[0]
    else if xs[i] > PrefixMax(xs, i - 1) then xs[i] else PrefixMax(xs, i - 1)
  }

  /** With `0 < lam <= 1` every smoothed value lies between the least and the greatest value seen so far. */
  lemma EwmaWithinRange(xs: seq<real>, lam: real, i: nat)
    requires 0.0 < lam <= 1.0 && i < |xs|
    ensures PrefixMin(xs, i) <= EwmaAt(xs, lam, i) <= PrefixMax(xs, i)
  {
    EwmaBounded(xs, lam, i, PrefixMin(xs, i), PrefixMax(xs, i));
  }

  /** Bounds that hold for `xs[0..i]` hold for the smoothed value at `i`. */
  lemma {:induction false} EwmaBounded(xs: seq<real>, lam: real, i: nat, lo: real, hi: real)
    requires 0.0 < lam <= 1.0 && i < |xs|
    requires forall j :: 0 <= j <= i ==> lo <= xs[j] <= hi
    ensures lo <= EwmaAt(xs, lam, i) <= hi
  {
    if i > 0 {
      EwmaBounded(xs, lam, i - 1, lo, hi);
      ConvexStep(lam, xs[i], EwmaAt(xs, lam, i - 1), lo, hi);
    }
  }

  /** A constant series smooths to itself. */
  lemma EwmaOfConstant(xs: seq<real>, lam: real, c: real, i: nat)
    requires 0.0 < lam <= 1.0 && i < |xs|
    requires forall j :: 0 <= j < |xs| ==> xs[j] == c
    ensures EwmaAt(xs, lam, i) == c
  {
    EwmaBounded(xs, lam, i, c, c);
  }

  /** With `lam = 1` the chart follows the raw series. */
  lemma LambdaOneIsRaw(xs: seq<real>)
    ensures Smooth(xs, 1.0) == xs
  {
  }

  /** A five-point example of `lam = 1`. */
  lemma LambdaOneExample()
    ensures Smooth([4.0, 5.5, 3.0, 6.25, 5.0], 1.0) == [4.0, 5.5, 3.0, 6.25, 5.0]
  {
    LambdaOneIsRaw([4.0, 5.5, 3.0, 6.25, 5.0]);
  }

  function Pow(q: real, n: nat): real
  {
    if n == 0 then 1.0 else q * Pow(q, n - 1)
  }

  /** For `0 <= q <= 1`, the powers of `q` stay in `[0, 1]` and do not increase. */
  lemma {:induction false} PowDecreasing(q: real, m: nat, n: nat)
    requires 0.0 <= q <= 1.0 && m <= n
    ensures 0.0 <= Pow(q, n) <= Pow(q, m) <= 1.0
  {
    if n > m {
      PowDecreasing(q, m, n - 1);
      MulNonNegative(q, Pow(q, n - 1));
      MulNonNegative(1.0 - q, Pow(q, n - 1));
      assert Pow(q, n - 1) - Pow(q, n) == (1.0 - q) * Pow(q, n - 1);
    } else if m > 0 {
      PowDecreasing(q, m - 1, m - 1);
      MulNonNegative(q, Pow(q, m - 1));
      MulNonNegative(1.0 - q, Pow(q, m - 1));
      assert Pow(q, m - 1) - Pow(q, m) == (1.0 - q) * Pow(q, m - 1);
    }
  }

  /**
   * The squared half-width factor of the limits at the 1-based index `i`:
   * `lam * (1 - (1-lam)^(2i)) / (2 - lam)`; the limits are
   * `mean +- L * sd * sqrt(LimitFactor(lam, i))`.
   */
  function LimitFactor(lam: real, i: nat): (f: real)
    requires 0.0 < lam <= 1.0
    ensures 0.0 <= f <= lam / (2.0 - lam)
  {
    PowDecreasing(1.0 - lam, 0, 2 * i);
    FactorOrder(lam, Pow(1.0 - lam, 2 * i), 0.0);
    Factor(lam, Pow(1.0 - lam, 2 * i))
  }

  /** `lam * (1 - a) / (2 - lam)`, the factor once the power `a` is known. */
  function Factor(lam: real, a: real): real
    requires 0.0 < lam <= 1.0
  {
    lam * (1.0 - a) / (2.0 - lam)
  }

  /** The factor widens with the index and never reaches past its asymptote `lam / (2 - lam)`. */
  lemma LimitFactorMonotone(lam: real, i: nat, j: nat)
    requires 0.0 < lam <= 1.0 && i <= j
    ensures 0.0 <= LimitFactor(lam, i) <= LimitFactor(lam, j) <= lam / (2.0 - lam)
  {
    PowDecreasing(1.0 - lam, 2 * i, 2 * j);
    FactorOrder(lam, Pow(1.0 - lam, 2 * i), Pow(1.0 - lam, 2 * j));
  }

  lemma FactorOrder(lam: real, a: real, b: real)
    requires 0.0 < lam <= 1.0 && 0.0 <= b <= a <= 1.0
    ensures 0.0 <= Factor(lam, a) <= Factor(lam, b) <= lam / (2.0 - lam)
  {
    MulNonNegative(lam, 1.0 - a);
    MulNonNegative(lam, a - b);
    MulNonNegative(lam, b);
    assert lam * (1.0 - b) - lam * (1.0 - a) == lam * (a - b);
    assert lam - lam * (1.0 - b) == lam * b;
    ScaledOrder(lam * (1.0 - a), lam * (1.0 - b), lam, 2.0 - lam);
  }

  lemma ScaledOrder(a: real, b: real, c: real, d: real)
    requires 0.0 <= a <= b <= c && d > 0.0
    ensures 0.0 <= a / d <= b / d <= c / d
  {
    assert b / d - a / d == (b - a) / d;
    assert c / d - b / d == (c - b) / d;
  }

  /** At the first index the factor is `lam^2`, so the first limits are `mean +- L * sd * lam`. */
  lemma LimitFactorFirst(lam: real)
    requires 0.0 < lam <= 1.0
    ensures LimitFactor(lam, 1) == lam * lam
  {
    var q := 1.0 - lam;
    assert Pow(q, 1) == q;
    assert Pow(q, 2) == q * q;
    FirstFactorAlgebra(lam);
  }

  lemma FirstFactorAlgebra(lam: real)
    requires 0.0 < lam <= 1.0
    ensures lam * (1.0 - (1.0 - lam) * (1.0 - lam)) / (2.0 - lam) == lam * lam
  {
    assert 1.0 - (1.0 - lam) * (1.0 - lam) == lam * (2.0 - lam);
    assert lam * (lam * (2.0 - lam)) == (lam * lam) * (2.0 - lam);
  }

  /** With `lam = 1` the factor is 1 at every index: fixed limits `mean +- L * sd`. */
  lemma LimitFactorLambdaOne(i: nat)
    requires i >= 1
    ensures LimitFactor(1.0, i) == 1.0
  {
    assert Pow(0.0, 2 * i) == 0.0 * Pow(0.0, 2 * i - 1);
  }

  /** `w` holds the non-negative square roots of the limit factors at indices 1, 2, ... */
  predicate Spreads(w: seq<real>, lam: real)
    requires 0.0 < lam <= 1.0
  {
    forall i :: 0 <= i < |w| ==> IsSqrt(w[i], LimitFactor(lam, i + 1))
  }

  /** Square roots keep the order of their squares. */
  lemma SqrtMonotone(a: real, u: real, b: real, v: real)
    requires IsSqrt(a, u) && IsSqrt(b, v) && u <= v
    ensures a <= b
  {
    if a > b {
      SquaresOrdered(a, b);
    }
  }

  lemma SquaresOrdered(a: real, b: real)
    requires a > b >= 0.0
    ensures a * a > b * b
  {
    assert a * a - b * b == (a + b) * (a - b);
    PositiveProduct(a + b, a - b);
  }

  lemma PositiveProduct(a: real, b: real)
    requires a > 0.0 && b > 0.0
    ensures a * b > 0.0
  {
  }

  /** The upper limit at spread `wi`, with `c = L * sd`. */
  function UpperLimit(mean: real, c: real, wi: real): real
  {
    mean + c * wi
  }

  /** The lower limit at spread `wi`, with `c = L * sd`. */
  function LowerLimit(mean: real, c: real, wi: real): real
  {
    mean - c * wi
  }

  /** A non-negative scale keeps spreads `0 <= wi <= wj` ordered around the centre line. */
  lemma ScaledSpreads(mean: real, c: real, wi: real, wj: real)
    requires c >= 0.0 && 0.0 <= wi <= wj
    ensures LowerLimit(mean, c, wj) <= LowerLimit(mean, c, wi) <= mean
    ensures mean <= UpperLimit(mean, c, wi) <= UpperLimit(mean, c, wj)
  {
    MulNonNegative(c, wi);
    MulNonNegative(c, wj - wi);
    assert c * wj - c * wi == c * (wj - wi);
  }

  /** Limits built from a spread sequence widen when `c = L * sd >= 0`. */
  lemma LimitsWiden(mean: real, c: real, lam: real, w: seq<real>, i: nat, j: nat)
    requires 0.0 < lam <= 1.0 && Spreads(w, lam) && c >= 0.0 && i <= j < |w|
    ensures LowerLimit(mean, c, w[j]) <= LowerLimit(mean, c, w[i]) <= mean
    ensures mean <= UpperLimit(mean, c, w[i]) <= UpperLimit(mean, c, w[j])
  {
    LimitFactorMonotone(lam, i + 1, j + 1);
    SqrtMonotone(w[i], LimitFactor(lam, i + 1), w[j], LimitFactor(lam, j + 1));
    ScaledSpreads(mean, c, w[i], w[j]);
  }

  /**
   * The per-index limits `UCL_i = mean + L*sd*w_i` and `LCL_i = mean - L*sd*w_i`,
   * built by appending one index at a time. They are symmetric about the mean
   * and, when `L*sd >= 0`, widen (never narrow) from one index to the next.
   */
  method ControlLimits(mean: real, sd: real, lam: real, mult: real, w: seq<real>)
    returns (ucl: seq<real>, lcl: seq<real>)
    requires 0.0 < lam <= 1.0 && Spreads(w, lam)
    ensures |ucl| == |w| && |lcl| == |w|
    ensures forall i :: 0 <= i < |w| ==>
      ucl[i] == UpperLimit(mean, mult * sd, w[i]) && lcl[i] == LowerLimit(mean, mult * sd, w[i])
    ensures forall i :: 0 <= i < |w| ==> ucl[i] - mean == mean - lcl[i]
    ensures mult * sd >= 0.0 ==>
      forall i, j :: 0 <= i <= j < |w| ==> lcl[j] <= lcl[i] <= mean <= ucl[i] <= ucl[j]
  {
    var c := mult * sd;
    ucl, lcl := [], [];
    var ind := 1;
    while ind <= |w|
      invariant 1 <= ind <= |w| + 1
      invariant |ucl| == ind - 1 && |lcl| == ind - 1
      invariant forall i :: 0 <= i < ind - 1 ==>
        ucl[i] == UpperLimit(mean, c, w[i]) && lcl[i] == LowerLimit(mean, c, w[i])
    {
      ucl := ucl + [UpperLimit(mean, c, w[ind - 1])];
      lcl := lcl + [LowerLimit(mean, c, w[ind - 1])];
      ind := ind + 1;
    }
    if c >= 0.0 {
      forall i, j | 0 <= i <= j < |w|
        ensures lcl[j] <= lcl[i] <= mean <= ucl[i] <= ucl[j]
      {
        LimitsWiden(mean, c, lam, w, i, j);
      }
    }
  }

  /** The stored excursion columns: `Z_i >= UCL_i` and `Z_i <= LCL_i`. */
  function AboveMask(z: seq<real>, ucl: seq<real>): (m: seq<bool>)
    requires |z| == |ucl|
    ensures |m| == |z| && forall i :: 0 <= i < |z| ==> (m[i] <==> z[i] >= ucl[i])
  {
    seq(|z|, i requires 0 <= i < |z| => z[i] >= ucl[i])
  }

  function BelowMask(z: seq<real>, lcl: seq<real>): (m: seq<bool>)
    requires |z| == |lcl|
    ensures |m| == |z| && forall i :: 0 <= i < |z| ==> (m[i] <==> z[i] <= lcl[i])
  {
    seq(|z|, i requires 0 <= i < |z| => z[i] <= lcl[i])
  }

  datatype EwmaResult = EwmaResult(
    z: seq<real>, ucl: seq<real>, lcl: seq<real>, above: seq<bool>, below: seq<bool>)

  /**
   * The EWMA chart of a series against the chart's mean and SD. `w` holds
   * the square roots of the limit factors. A weighting factor outside the
   * lookup table has no multiplier and is reported.
   */
  method EwmaChart(xs: seq<real>, mean: real, sd: real, lam: real, w: seq<real>)
    returns (r: Result<EwmaResult>)
    requires |w| == |xs|
    requires 0.0 < lam <= 1.0 ==> Spreads(w, lam)
    ensures r.Err? <==> Multiplier(lam).None?
    ensures r.Err? ==> r.error == UnsupportedLambda
    ensures r.Ok? ==>
      var e := r.value;
      e.z == Smooth(xs, lam) &&
      |e.ucl| == |xs| && |e.lcl| == |xs| && |e.above| == |xs| && |e.below| == |xs| &&
      (forall i :: 0 <= i < |xs| ==>
         e.ucl[i] == UpperLimit(mean, Multiplier(lam).value * sd, w[i]) &&
         e.lcl[i] == LowerLimit(mean, Multiplier(lam).value * sd, w[i]) &&
         (e.above[i] <==> e.z[i] >= e.ucl[i]) &&
         (e.below[i] <==> e.z[i] <= e.lcl[i]))
  {
    var mult := Multiplier(lam);
    if mult.None? {
      return Err(UnsupportedLambda);
    }
    var z := Smooth(xs, lam);
    var ucl, lcl := ControlLimits(mean, sd, lam, mult.value, w);
    r := Ok(EwmaResult(z, ucl, lcl, AboveMask(z, ucl), BelowMask(z, lcl)));
  }

  /**
   * With `lam = 1` the EWMA chart is a Shewhart chart: a point is above the
   * upper limit exactly when it is at or beyond `mean + 3.090 * sd`.
   */
  lemma LambdaOneIsShewhart(xs: seq<real>, mean: real, sd: real, w: seq<real>, i: nat)
    requires |w| == |xs| && Spreads(w, 1.0) && i < |xs|
    ensures w[i] == 1.0
    ensures Smooth(xs, 1.0)[i] >= UpperLimit(mean, Multiplier(1.0).value * sd, w[i])
            <==> xs[i] >= mean + 3.090 * sd
  {
    LimitFactorLambdaOne(i + 1);
    assert IsSqrt(w[i], LimitFactor(1.0, i + 1));
    SqrtMonotone(w[i], 1.0, 1.0, 1.0);
    SqrtMonotone(1.0, 1.0, w[i], 1.0);
    assert Smooth(xs, 1.0)[i] == xs[i];
    assert Multiplier(1.0).value == 3.090;
    assert UpperLimit(mean, 3.090 * sd, 1.0) == mean + 3.090 * sd;
  }

  /** The first smoothed value is the first observation and its limits are `mean +- L * sd * lam`. */
  lemma FirstPoint(xs: seq<real>, lam: real, w: seq<real>)
    requires 0.0 < lam <= 1.0 && |xs| > 0 && |w| == |xs| && Spreads(w, lam)
    ensures Smooth(xs, lam)[0] == xs[0]
    ensures w[0] == lam
  {
    LimitFactorFirst(lam);
    SqrtMonotone(w[0], lam * lam, lam, lam * lam);
    SqrtMonotone(lam, lam * lam, w[0], lam * lam);
  }
}
