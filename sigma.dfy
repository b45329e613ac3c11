/**
 * Sigma-metrics and the coordinates of the OPSpecs (operating
 * specifications) charts. All quantities are percentages: TEa (total
 * allowable error), bias, CV (analytical imprecision) and CVI (within-subject
 * biological variation).
 */
module Sigma {
  import opened Wrappers

  /**
   * The conventional sigma-metric `(TEa - bias) / CV`. A zero CV is reported
   * first; then a bias that is not below TEa.
   */
  function ConventionalSigma(tea: real, bias: real, cv: real): (r: Result<real>)
    ensures cv == 0.0 ==> r == Err(ZeroImprecision)
    ensures cv != 0.0 && bias >= tea ==> r == Err(BiasAtLeastTea)
    ensures r.Ok? <==> cv != 0.0 && bias < tea
    ensures r.Ok? ==> r.value * cv == tea - bias
    ensures r.Ok? && cv > 0.0 ==> r.value > 0.0
  {
    if cv == 0.0 then Err(ZeroImprecision)
    else if bias < tea then
      SignOfQuotient(tea - bias, cv);
      Ok((tea - bias) / cv)
    else Err(BiasAtLeastTea)
  }

  /** The alternative (biological variation) sigma-metric `CVI / CV`. */
  function AlternativeSigma(cvi: real, cv: real): (r: Result<real>)
    ensures r.Err? <==> cv == 0.0
    ensures r.Err? ==> r.error == ZeroImprecision
    ensures r.Ok? ==> r.value * cv == cvi
  {
    if cv == 0.0 then Err(ZeroImprecision) else Ok(cvi / cv)
  }

  lemma SignOfQuotient(a: real, b: real)
    requires a > 0.0
    ensures b > 0.0 ==> a / b > 0.0
  {
  }

  /** TEa 12, bias 2, CV 2 give a conventional sigma of 5; CVI 12 with CV 2 gives 6. */
  lemma SigmaExamples()
    ensures ConventionalSigma(12.0, 2.0, 2.0) == Ok(5.0)
    ensures AlternativeSigma(12.0, 2.0) == Ok(6.0)
  {
  }

  /**
   * The OPSpecs chart of one test: the largest intercept on the imprecision
   * axis, the allowable bias every line starts from, and the x-intercepts of
   * the 2..6 sigma lines.
   */
  datatype OpSpecs = OpSpecs(xMax: real, yMax: real, intercepts: seq<real>)

  /**
   * The n-sigma line runs from `(TEa/n, 0)` to `(0, TEa)`, for n = 2..6; the
   * chart is drawn only when TEa is not zero.
   */
  function OpSpecsChart(tea: real): (r: Option<OpSpecs>)
    ensures r.None? <==> tea == 0.0
    ensures r.Some? ==>
      |r.value.intercepts| == 5 &&
      r.value.xMax == r.value.intercepts[0] && r.value.yMax == tea &&
      forall k :: 0 <= k < 5 ==> r.value.intercepts[k] * (k + 2) as real == tea
  {
    if tea == 0.0 then None
    else Some(OpSpecs(tea / 2.0, tea, [tea / 2.0, tea / 3.0, tea / 4.0, tea / 5.0, tea / 6.0]))
  }

  /** The point `(cv, bias)` lies on or below the line from `(x0, 0)` to `(0, y0)`. */
  predicate OnOrBelowLine(x0: real, y0: real, cv: real, bias: real)
  {
    bias * x0 + cv * y0 <= x0 * y0
  }

  /**
   * Reading the OPSpecs chart agrees with the sigma-metric: with positive
   * TEa and CV, a test lies on or below the n-sigma line exactly when its
   * sigma is at least n.
   */
  lemma OpSpecsAgreesWithSigma(tea: real, bias: real, cv: real, k: nat)
    requires tea > 0.0 && cv > 0.0 && bias < tea && k < 5
    ensures var n := (k + 2) as real;
      OnOrBelowLine(OpSpecsChart(tea).value.intercepts[k], tea, cv, bias)
      <==> ConventionalSigma(tea, bias, cv).value >= n
  {
    var n := (k + 2) as real;
    var x0 := OpSpecsChart(tea).value.intercepts[k];
    var s := ConventionalSigma(tea, bias, cv).value;
    assert x0 * n == tea;
    LineScaling(x0, n, tea, cv, bias);
    SigmaThreshold(s, cv, tea - bias, n);
  }

  /** `bias*x0 + cv*y0 <= x0*y0` with `y0 = n*x0` and `x0 > 0` is `bias + n*cv <= y0`. */
  lemma LineScaling(x0: real, n: real, y0: real, cv: real, bias: real)
    requires x0 > 0.0 && x0 * n == y0
    ensures OnOrBelowLine(x0, y0, cv, bias) <==> bias + n * cv <= y0
  {
    assert bias * x0 + cv * y0 == x0 * (bias + n * cv);
    ProductOrder(x0, bias + n * cv, y0);
  }

  lemma ProductOrder(c: real, a: real, b: real)
    requires c > 0.0
    ensures c * a <= c * b <==> a <= b
  {
    assert c * b - c * a == c * (b - a);
    if a > b {
      assert c * (a - b) > 0.0;
    } else {
      assert c * (b - a) >= 0.0;
    }
  }

  /** With `s * cv == num` and `cv > 0`: `s >= n` exactly when `n * cv <= num`. */
  lemma SigmaThreshold(s: real, cv: real, num: real, n: real)
    requires cv > 0.0 && s * cv == num
    ensures s >= n <==> n * cv <= num
  {
    ProductOrder(cv, n, s);
  }

  /** One test of the normalised OPSpecs table. */
  datatype TestRow = TestRow(name: string, bias: real, cv: real, tea: real)

  /**
   * The derived columns. A value the source computes by dividing by zero
   * (pandas yields inf or NaN there) is `None`.
   */
  datatype NormalizedRow = NormalizedRow(
    name: string, normBias: Option<real>, normCv: Option<real>, sigma: Option<real>)

  /** `100*bias/TEa`, `100*CV/TEa` and the unguarded sigma `(TEa - bias)/CV`. */
  function Normalize(t: TestRow): (r: NormalizedRow)
    ensures r.name == t.name
    ensures r.normBias.Some? <==> t.tea != 0.0
    ensures r.normCv.Some? <==> t.tea != 0.0
    ensures r.sigma.Some? <==> t.cv != 0.0
    ensures r.normBias.Some? ==> r.normBias.value * t.tea == 100.0 * t.bias
    ensures r.normCv.Some? ==> r.normCv.value * t.tea == 100.0 * t.cv
    ensures r.sigma.Some? ==> r.sigma.value * t.cv == t.tea - t.bias
  {
    NormalizedRow(
      t.name,
      if t.tea != 0.0 then Some(100.0 * t.bias / t.tea) else None,
      if t.tea != 0.0 then Some(100.0 * t.cv / t.tea) else None,
      if t.cv != 0.0 then Some((t.tea - t.bias) / t.cv) else None)
  }

  /** The whole table, row by row. */
  function NormalizeTable(rows: seq<TestRow>): (r: seq<NormalizedRow>)
    ensures |r| == |rows|
    ensures forall i :: 0 <= i < |rows| ==> r[i] == Normalize(rows[i])
  {
    seq(|rows|, i requires 0 <= i < |rows| => Normalize(rows[i]))
  }

  /** The x-intercepts of the 2..6 sigma lines on the normalised chart, whose axes run to 100. */
  function NormalizedIntercepts(): (r: seq<real>)
    ensures |r| == 5 && forall k :: 0 <= k < 5 ==> r[k] * (k + 2) as real == 100.0
  {
    [100.0 / 2.0, 100.0 / 3.0, 100.0 / 4.0, 100.0 / 5.0, 100.0 / 6.0]
  }

  /** The normalised table's sigma agrees with the conventional sigma-metric wherever the latter is defined. */
  lemma NormalizedSigmaAgrees(t: TestRow)
    requires ConventionalSigma(t.tea, t.bias, t.cv).Ok?
    ensures Normalize(t).sigma == Some(ConventionalSigma(t.tea, t.bias, t.cv).value)
  {
  }

  /**
   * Normalising is a rescaling by `100/TEa`: for positive TEa a test lies on
   * or below the normalised n-sigma line exactly when it lies on or below the
   * n-sigma line of its own OPSpecs chart.
   */
  lemma NormalizedChartAgrees(t: TestRow, k: nat)
    requires t.tea > 0.0 && k < 5
    ensures var r := Normalize(t);
      OnOrBelowLine(NormalizedIntercepts()[k], 100.0, r.normCv.value, r.normBias.value)
      <==> OnOrBelowLine(OpSpecsChart(t.tea).value.intercepts[k], t.tea, t.cv, t.bias)
  {
    var n := (k + 2) as real;
    var r := Normalize(t);
    var nb, nc := r.normBias.value, r.normCv.value;
    LineScaling(NormalizedIntercepts()[k], n, 100.0, nc, nb);
    LineScaling(OpSpecsChart(t.tea).value.intercepts[k], n, t.tea, t.cv, t.bias);
    assert (nb + n * nc) * t.tea == 100.0 * (t.bias + n * t.cv);
    RescaledThreshold(nb + n * nc, t.bias + n * t.cv, t.tea);
  }

  /** With `u * tea == 100 * v` and `tea > 0`: `u <= 100` exactly when `v <= tea`. */
  lemma RescaledThreshold(u: real, v: real, tea: real)
    requires tea > 0.0 && u * tea == 100.0 * v
    ensures u <= 100.0 <==> v <= tea
  {
    ProductOrder(tea, u, 100.0);
    ProductOrder(100.0, v, tea);
  }
}
