/**
 * The standardised tabular CUSUM: an upper sum `Cp` and a lower sum `Cm`
 * (kept as a magnitude), with reference value k = 0.5 and decision
 * interval h = 5.
 */
module Cusum {
  import opened Wrappers
  import opened Series

  const K: real := 0.5
  const H: real := 5.0

  /** `np.max([0, v])`. */
  function Max0(v: real): (r: real)
    ensures r >= 0.0 && r >= v && (r == 0.0 || r == v)
  {
    if v > 0.0 then v else 0.0
  }

  /** The observation in SD units from the target mean. */
  function Standardize(x: real, mu: real, sd: real): real
    requires sd != 0.0
  {
    (x - mu) / sd
  }

  /** What each observation adds to the upper sum: `z - k`. */
  function UpperIncrements(xs: seq<real>, mu: real, sd: real): (d: seq<real>)
    requires sd != 0.0
    ensures |d| == |xs|
  {
    seq(|xs|, i requires 0 <= i < |xs| => Standardize(xs[i], mu, sd) - K)
  }

  /** What each observation adds to the lower sum: `-k - z`. */
  function LowerIncrements(xs: seq<real>, mu: real, sd: real): (d: seq<real>)
    requires sd != 0.0
    ensures |d| == |xs|
  {
    seq(|xs|, i requires 0 <= i < |xs| => -K - Standardize(xs[i], mu, sd))
  }

  /**
   * The tabular sum at index `i` over the increments `d`: 0 at index 0 (the
   * first observation never contributes), then `max(0, d_i + C_{i-1})`.
   */
  function TabularAt(d: seq<real>, i: nat): (c: real)
    requires i < |d|
    ensures c >= 0.0
    ensures i == 0 ==> c == 0.0
  {
    if i == 0 then 0.0 else Max0(d[i] + TabularAt(d, i - 1))
  }

  /** The sum of the increments `d[j..i]`, both ends included (0 when `j > i`). */
  function RunSum(d: seq<real>, j: nat, i: nat): real
    requires i < |d|
  {
    if j > i then 0.0 else if j == i then d[i] else RunSum(d, j, i - 1) + d[i]
  }

  /**
   * Fills `Cp` and `Cm` one index at a time, as the source's loop writes
   * into its zero-initialised buffers.
   */
  method ComputeCusum(xs: seq<real>, mu: real, sd: real) returns (cp: array<real>, cm: array<real>)
    requires sd != 0.0
    ensures fresh(cp) && fresh(cm)
    ensures cp.Length == |xs| && cm.Length == |xs|
    ensures forall i :: 0 <= i < |xs| ==>
      cp[i] == TabularAt(UpperIncrements(xs, mu, sd), i) &&
      cm[i] == TabularAt(LowerIncrements(xs, mu, sd), i)
  {
    ghost var up, down := UpperIncrements(xs, mu, sd), LowerIncrements(xs, mu, sd);
    ghost var wantP := seq(|xs|, i requires 0 <= i < |xs| => TabularAt(up, i));
    ghost var wantM := seq(|xs|, i requires 0 <= i < |xs| => TabularAt(down, i));
    cp := new real[|xs|];
    cm := new real[|xs|];
    var ii := 0;
    while ii < |xs|
      invariant 0 <= ii <= |xs|
      invariant forall i :: 0 <= i < ii ==> cp[i] == wantP[i]
      invariant forall i :: 0 <= i < ii ==> cm[i] == wantM[i]
    {
      if ii == 0 {
        cp[ii] := 0.0;
        cm[ii] := 0.0;
      } else {
        var z := Standardize(xs[ii], mu, sd);
        StepMatches(up, ii, wantP[ii - 1], z - K);
        StepMatches(down, ii, wantM[ii - 1], -K - z);
        cp[ii] := Max0(z - K + cp[ii - 1]);
        cm[ii] := Max0(-K - z + cm[ii - 1]);
      }
      ii := ii + 1;
    }
  }

  /** One step of the loop computes the next value of the recurrence. */
  lemma StepMatches(d: seq<real>, i: nat, prev: real, inc: real)
    requires 0 < i < |d| && prev == TabularAt(d, i - 1) && inc == d[i]
    ensures Max0(inc + prev) == TabularAt(d, i)
  {
  }

  /** The stored violation column `C_i >= h`. */
  function ExceedsH(c: seq<real>): (m: seq<bool>)
    ensures |m| == |c| && forall i :: 0 <= i < |c| ==> (m[i] <==> c[i] >= H)
  {
    seq(|c|, i requires 0 <= i < |c| => c[i] >= H)
  }

  datatype CusumResult = CusumResult(cp: seq<real>, cm: seq<real>, upper: seq<bool>, lower: seq<bool>)

  /**
   * The CUSUM columns added to the results table. Missing cells are dropped
   * first and the remaining observations renumbered from 0.
   */
  method CusumChart(cells: seq<Option<real>>, mu: real, sd: real) returns (r: CusumResult)
    requires sd != 0.0
    ensures var xs := DropMissing(cells);
      |r.cp| == |xs| && |r.cm| == |xs| && |r.upper| == |xs| && |r.lower| == |xs| &&
      forall i :: 0 <= i < |xs| ==>
        r.cp[i] == TabularAt(UpperIncrements(xs, mu, sd), i) &&
        r.cm[i] == TabularAt(LowerIncrements(xs, mu, sd), i) &&
        (r.upper[i] <==> r.cp[i] >= H) && (r.lower[i] <==> r.cm[i] >= H)
  {
    var cp, cm := ComputeCusum(DropMissing(cells), mu, sd);
    r := CusumResult(cp[..], cm[..], ExceedsH(cp[..]), ExceedsH(cm[..]));
  }

  // ---------------------------------------------------------------------
  // Properties

  /**
   * The closed form of the recurrence: `C_i` is the largest of 0 and the
   * sums of the increments over the runs `j..i` with `1 <= j <= i`.
   */
  lemma {:induction false} TabularIsMaxSuffixSum(d: seq<real>, i: nat)
    requires i < |d|
    ensures forall j :: 1 <= j <= i ==> RunSum(d, j, i) <= TabularAt(d, i)
    ensures TabularAt(d, i) == 0.0 || exists j :: 1 <= j <= i && TabularAt(d, i) == RunSum(d, j, i)
  {
    if i > 0 {
      TabularIsMaxSuffixSum(d, i - 1);
      var prev := TabularAt(d, i - 1);
      assert prev >= 0.0;
      forall j | 1 <= j <= i ensures RunSum(d, j, i) <= TabularAt(d, i) {
        if j < i {
          assert RunSum(d, j, i) == RunSum(d, j, i - 1) + d[i];
        }
      }
      if TabularAt(d, i) != 0.0 {
        assert TabularAt(d, i) == d[i] + prev;
        var j: nat;
        if prev == 0.0 {
          j := i;
        } else {
          j :| 1 <= j <= i - 1 && prev == RunSum(d, j, i - 1);
        }
        if j < i {
          assert RunSum(d, j, i) == RunSum(d, j, i - 1) + d[i];
        }
        assert 1 <= j <= i && TabularAt(d, i) == RunSum(d, j, i);
        assert exists j' :: 1 <= j' <= i && TabularAt(d, i) == RunSum(d, j', i);
      }
    }
  }

  /** Increments that are never positive keep the sum at zero. */
  lemma {:induction false} NonPositiveIncrementsStayZero(d: seq<real>, i: nat)
    requires i < |d|
    requires forall j :: 0 <= j < |d| ==> d[j] <= 0.0
    ensures TabularAt(d, i) == 0.0
  {
    if i > 0 {
      NonPositiveIncrementsStayZero(d, i - 1);
    }
  }

  /** A series sitting exactly on the target mean accumulates nothing on either side. */
  lemma OnTargetStaysZero(xs: seq<real>, mu: real, sd: real, i: nat)
    requires sd > 0.0 && i < |xs|
    requires forall j :: 0 <= j < |xs| ==> xs[j] == mu
    ensures TabularAt(UpperIncrements(xs, mu, sd), i) == 0.0
    ensures TabularAt(LowerIncrements(xs, mu, sd), i) == 0.0
  {
    NonPositiveIncrementsStayZero(UpperIncrements(xs, mu, sd), i);
    NonPositiveIncrementsStayZero(LowerIncrements(xs, mu, sd), i);
  }

  /**
   * The decision rule in closed form: the upper (lower) column flags `i`
   * exactly when, for some run `j..i` that does not start at the first
   * observation, the increments `z - k` (`-k - z`) add up to `h` or more.
   */
  lemma SignalIffRunSum(xs: seq<real>, mu: real, sd: real, i: nat)
    requires sd != 0.0 && i < |xs|
    ensures TabularAt(UpperIncrements(xs, mu, sd), i) >= H
            <==> exists j :: 1 <= j <= i && RunSum(UpperIncrements(xs, mu, sd), j, i) >= H
    ensures TabularAt(LowerIncrements(xs, mu, sd), i) >= H
            <==> exists j :: 1 <= j <= i && RunSum(LowerIncrements(xs, mu, sd), j, i) >= H
  {
    TabularIsMaxSuffixSum(UpperIncrements(xs, mu, sd), i);
    TabularIsMaxSuffixSum(LowerIncrements(xs, mu, sd), i);
  }
}
