/**
 * The Levey-Jennings centre line and its +-1, 2 and 3 SD bands, taken from
 * the series itself or from a user-entered target mean and SD.
 */
module Limits {
  import opened Wrappers
  import opened Series

  /** "From the entered/uploaded data" or "Custom" with the entered mean and SD. */
  datatype LimitMode = FromData | Custom(mean: real, sd: real)

  datatype LimitSet = LimitSet(
    mean: real, sd: real,
    plus1: real, minus1: real,
    plus2: real, minus2: real,
    plus3: real, minus3: real)

  /** The bands `mean + k*sd` and `mean - k*sd` for k = 1, 2, 3: symmetric about the mean, one SD apart. */
  function Bands(mean: real, sd: real): (l: LimitSet)
    ensures l.mean == mean && l.sd == sd
    ensures l.plus1 - mean == mean - l.minus1 == sd
    ensures l.plus2 - mean == mean - l.minus2 == 2.0 * sd
    ensures l.plus3 - mean == mean - l.minus3 == 3.0 * sd
  {
    LimitSet(mean, sd,
             mean + 1.0 * sd, mean - 1.0 * sd,
             mean + 2.0 * sd, mean - 2.0 * sd,
             mean + 3.0 * sd, mean - 3.0 * sd)
  }

  /** A limit set whose bands were derived from its own mean and SD. */
  predicate WellFormed(l: LimitSet)
  {
    l == Bands(l.mean, l.sd)
  }

  /**
   * The limits for a series of cells. Missing cells are skipped by the
   * statistics (pandas' `mean`/`std` skip NaN). The population SD is a
   * square root, which the caller supplies as `sampleSd`.
   */
  function ComputeLimits(mode: LimitMode, data: seq<Option<real>>, sampleSd: real): (r: Result<LimitSet>)
    requires mode.FromData? && DropMissing(data) != [] ==>
               IsSqrt(sampleSd, PopVariance(DropMissing(data)))
    ensures r.Ok? ==> WellFormed(r.value)
    ensures mode.Custom? ==> r == Ok(Bands(mode.mean, mode.sd))
    ensures mode.FromData? ==> (r.Err? <==> DropMissing(data) == [])
    ensures mode.FromData? && DropMissing(data) != [] ==>
              var xs := DropMissing(data);
              r.Ok? && r.value.mean == Mean(xs) && Min(xs) <= r.value.mean <= Max(xs) &&
              IsSqrt(r.value.sd, PopVariance(xs))
  {
    match mode
    case Custom(m, s) => Ok(Bands(m, s))
    case FromData =>
      var xs := DropMissing(data);
      if xs == [] then Err(NoData)
      else
        Ok(Bands(Mean(xs), sampleSd))
  }

  /** With a non-negative SD the bands are ordered around the mean. */
  lemma BandsOrdered(mean: real, sd: real)
    requires sd >= 0.0
    ensures var l := Bands(mean, sd);
      l.minus3 <= l.minus2 <= l.minus1 <= mean <= l.plus1 <= l.plus2 <= l.plus3
  {
  }

  /**
   * Entering the data-derived mean and SD as custom values gives back the
   * same limit set, whatever series is then selected.
   */
  lemma ModeSwitchRoundTrip(data: seq<Option<real>>, sampleSd: real, other: seq<Option<real>>, otherSd: real)
    requires DropMissing(data) != [] ==> IsSqrt(sampleSd, PopVariance(DropMissing(data)))
    requires ComputeLimits(FromData, data, sampleSd).Ok?
    ensures var l := ComputeLimits(FromData, data, sampleSd).value;
      ComputeLimits(Custom(l.mean, l.sd), other, otherSd) == Ok(l)
  {
  }
}
