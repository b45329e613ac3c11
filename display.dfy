/**
 * The numbers shown to the user: half-up rounding and the coefficient of
 * variation of the control data.
 */
module Display {
  import opened Wrappers

  function Pow10(d: nat): (p: nat)
    ensures p >= 1
  {
    if d == 0 then 1 else 10 * Pow10(d - 1)
  }

  /** `10^d` as a real: the number of rounding steps per unit. */
  function Scale(d: nat): (m: real)
    ensures m >= 1.0
  {
    Pow10(d) as real
  }

  /**
   * `r` is a whole number of `1/m` steps and the nearest one to `n`: it lies
   * in `(n - h, n + h]` with `h` half a step, so a value halfway between two
   * steps goes to the upper one.
   */
  predicate NearestStep(r: real, n: real, m: real)
  {
    (r * m).Floor as real == r * m && n * m - 0.5 < r * m <= n * m + 0.5
  }

  /** `floor(n * 10^d + 0.5) / 10^d`: rounds to `d` decimals, halves going up. */
  function RoundHalfUp(n: real, decimals: nat): (r: real)
    ensures NearestStep(r, n, Scale(decimals))
  {
    RoundToStep(n, Scale(decimals))
  }

  /** `floor(n * m + 0.5) / m`, for `m` steps per unit. */
  function RoundToStep(n: real, m: real): (r: real)
    requires m > 0.0
    ensures NearestStep(r, n, m)
  {
    QuotientNearest(HalfUp(n * m), n, m);
    HalfUp(n * m) as real / m
  }

  lemma QuotientNearest(k: int, n: real, m: real)
    requires m > 0.0
    requires n * m - 0.5 < k as real <= n * m + 0.5
    ensures NearestStep(k as real / m, n, m)
  {
    var r := k as real / m;
    QuotientTimes(k as real, m);
    assert r * m == k as real;
    assert (k as real).Floor == k;
  }

  /** `floor(y + 0.5)`: the whole number nearest to `y`, halves going up. */
  function HalfUp(y: real): (k: int)
    ensures y - 0.5 < k as real <= y + 0.5
  {
    (y + 0.5).Floor
  }

  lemma QuotientTimes(a: real, m: real)
    requires m > 0.0
    ensures a / m * m == a
  {
  }

  /** At most one step count is within half a step of `n * m`, so `NearestStep` fixes `r`. */
  lemma NearestStepUnique(r: real, s: real, n: real, m: real)
    requires m > 0.0
    requires NearestStep(r, n, m) && NearestStep(s, n, m)
    ensures r == s
  {
    var a := (r * m).Floor;
    var b := (s * m).Floor;
    assert a == b;
    CancelFactor(r, s, m);
  }

  lemma CancelFactor(r: real, s: real, m: real)
    requires m > 0.0
    requires r * m == s * m
    ensures r == s
  {
  }

  /** Rounding an already rounded value changes nothing. */
  lemma RoundHalfUpIdempotent(n: real, decimals: nat)
    ensures RoundHalfUp(RoundHalfUp(n, decimals), decimals) == RoundHalfUp(n, decimals)
  {
    var m := Scale(decimals);
    var r := RoundHalfUp(n, decimals);
    var rr := RoundHalfUp(r, decimals);
    assert NearestStep(r, r, m);
    NearestStepUnique(rr, r, r, m);
  }

  /** Examples: 2.5 and -2.5 to whole numbers, 1.005 to two decimals (exact, not binary, arithmetic). */
  lemma RoundHalfUpExamples()
    ensures RoundHalfUp(2.5, 0) == 3.0
    ensures RoundHalfUp(-2.5, 0) == -2.0
    ensures RoundHalfUp(1.005, 2) == 1.01
  {
    assert Scale(0) == 1.0;
    assert Pow10(2) == 100;
    assert Scale(2) == 100.0;
    assert NearestStep(3.0, 2.5, 1.0);
    NearestStepUnique(RoundHalfUp(2.5, 0), 3.0, 2.5, 1.0);
    assert NearestStep(-2.0, -2.5, 1.0);
    NearestStepUnique(RoundHalfUp(-2.5, 0), -2.0, -2.5, 1.0);
    assert NearestStep(1.01, 1.005, 100.0);
    NearestStepUnique(RoundHalfUp(1.005, 2), 1.01, 1.005, 100.0);
  }

  /**
   * A computed value as shown on screen, to two decimals; an error is shown
   * as its message instead (the sigma-metrics and the CV).
   */
  function ShownToTwoDecimals(r: Result<real>): (s: Result<real>)
    ensures s.Err? <==> r.Err?
    ensures s.Err? ==> s.error == r.error
    ensures s.Ok? ==> NearestStep(s.value, r.value, 100.0)
  {
    assert Pow10(2) == 100;
    match r
    case Ok(v) => Ok(RoundHalfUp(v, 2))
    case Err(e) => Err(e)
  }

  /** The CV in percent, `sd * 100 / mean`; a zero mean is reported instead. */
  function CvPercent(mean: real, sd: real): (r: Result<real>)
    ensures r.Err? <==> mean == 0.0
    ensures r.Err? ==> r.error == ZeroMean
    ensures r.Ok? ==> r.value * mean == sd * 100.0
  {
    if mean == 0.0 then Err(ZeroMean) else Ok(sd * 100.0 / mean)
  }

  /**
   * The table of analytical performance characteristics: mean, SD and CV,
   * each to two decimals. The whole table is one formatted string, so a zero
   * mean shows none of it.
   */
  datatype Summary = Summary(mean: real, sd: real, cv: real)

  function PerformanceSummary(mean: real, sd: real): (s: Result<Summary>)
    ensures s.Err? <==> mean == 0.0
    ensures s.Err? ==> s.error == ZeroMean
    ensures s.Ok? ==> NearestStep(s.value.mean, mean, 100.0)
    ensures s.Ok? ==> NearestStep(s.value.sd, sd, 100.0)
    ensures s.Ok? ==> NearestStep(s.value.cv, sd * 100.0 / mean, 100.0)
  {
    assert Pow10(2) == 100;
    match ShownToTwoDecimals(CvPercent(mean, sd))
    case Ok(cv) => Ok(Summary(RoundHalfUp(mean, 2), RoundHalfUp(sd, 2), cv))
    case Err(e) => Err(e)
  }

  /** Half-up rounding to two decimals moves a value by at most half a cent. */
  lemma TwoDecimalsWithinHalfCent(r: real, n: real)
    requires NearestStep(r, n, 100.0)
    ensures n - 0.005 < r <= n + 0.005
  {
  }
}
