/**
 * The Westgard multi-rule masks. Every rule is a predicate on a point index
 * of the series; a mask is that predicate evaluated at every index.
 *
 * The source builds each rule from comparisons of `shift(n)`ed columns. A
 * shift past either end of the series gives NaN, and so does an empty cell
 * of the entered table; NaN compares false. Both are `None` here, so an
 * alignment that needs such a neighbour is simply not satisfied.
 */
module Westgard {
  import opened Wrappers
  import opened Series
  import opened Limits

  datatype Rule = Rule13s | Rule12s | Rule22s | RuleR4s | Rule41s | Rule10x

  /** The comparison a rule makes against a limit. */
  datatype Cmp = Ge | Le | Gt | Lt

  /** The cell at index `j`, or `None` outside the series. */
  function At(s: seq<Option<real>>, j: int): Option<real>
  {
    if 0 <= j < |s| then s[j] else None
  }

  /** The cell at `j` is present and compares as `c` against `t`. */
  predicate Holds(s: seq<Option<real>>, j: int, c: Cmp, t: real)
  {
    var v := At(s, j);
    v.Some? &&
    match c
    case Ge => v.value >= t
    case Le => v.value <= t
    case Gt => v.value > t
    case Lt => v.value < t
  }

  /** The `len` consecutive cells from `start` all compare as `c` against `t`. */
  predicate Run(s: seq<Option<real>>, start: int, len: nat, c: Cmp, t: real)
  {
    forall j :: start <= j < start + len ==> Holds(s, j, c, t)
  }

  /** A run of `len` cells that contains index `i` holds at `i`. */
  lemma RunsCover(s: seq<Option<real>>, i: int, len: nat, c: Cmp, t: real)
    ensures forall start :: i - len < start <= i && Run(s, start, len, c, t) ==> Holds(s, i, c, t)
  {
  }

  /** 1-3s: the point is at or beyond +3SD or -3SD. */
  function Rule13sAt(s: seq<Option<real>>, l: LimitSet, i: int): (flagged: bool)
    ensures flagged ==> 0 <= i < |s| && s[i].Some?
  {
    Holds(s, i, Ge, l.plus3) || Holds(s, i, Le, l.minus3)
  }

  /** 1-2s: the point is at or beyond +2SD or -2SD. */
  function Rule12sAt(s: seq<Option<real>>, l: LimitSet, i: int): (flagged: bool)
    ensures flagged ==> 0 <= i < |s| && s[i].Some?
  {
    Holds(s, i, Ge, l.plus2) || Holds(s, i, Le, l.minus2)
  }

  /** 2-2s: the point and its predecessor or its successor are on the same side beyond 2SD. */
  function Rule22sAt(s: seq<Option<real>>, l: LimitSet, i: int): (flagged: bool)
    ensures flagged ==> 0 <= i < |s| && s[i].Some?
  {
    (Holds(s, i, Ge, l.plus2) && Holds(s, i - 1, Ge, l.plus2)) ||
    (Holds(s, i, Ge, l.plus2) && Holds(s, i + 1, Ge, l.plus2)) ||
    (Holds(s, i, Le, l.minus2) && Holds(s, i - 1, Le, l.minus2)) ||
    (Holds(s, i, Le, l.minus2) && Holds(s, i + 1, Le, l.minus2))
  }

  /** R-4s: the point is beyond 2SD on one side and its predecessor or successor beyond 2SD on the other. */
  function RuleR4sAt(s: seq<Option<real>>, l: LimitSet, i: int): (flagged: bool)
    ensures flagged ==> 0 <= i < |s| && s[i].Some?
  {
    (Holds(s, i, Ge, l.plus2) && Holds(s, i - 1, Le, l.minus2)) ||
    (Holds(s, i, Ge, l.plus2) && Holds(s, i + 1, Le, l.minus2)) ||
    (Holds(s, i, Le, l.minus2) && Holds(s, i - 1, Ge, l.plus2)) ||
    (Holds(s, i, Le, l.minus2) && Holds(s, i + 1, Ge, l.plus2))
  }

  /** 4-1s: one of the four 4-point runs containing the point is all at or beyond +1SD, or all at or beyond -1SD. */
  function Rule41sAt(s: seq<Option<real>>, l: LimitSet, i: int): (flagged: bool)
    ensures flagged ==> 0 <= i < |s| && s[i].Some?
  {
    RunsCover(s, i, 4, Ge, l.plus1);
    RunsCover(s, i, 4, Le, l.minus1);
    Run(s, i - 3, 4, Ge, l.plus1) || Run(s, i, 4, Ge, l.plus1) ||
    Run(s, i - 1, 4, Ge, l.plus1) || Run(s, i - 2, 4, Ge, l.plus1) ||
    Run(s, i - 3, 4, Le, l.minus1) || Run(s, i - 1, 4, Le, l.minus1) ||
    Run(s, i, 4, Le, l.minus1) || Run(s, i - 2, 4, Le, l.minus1)
  }

  /**
   * 10x: one of the ten 10-point runs containing the point lies entirely
   * above the mean, or entirely below it. All comparisons are strict except
   * one: in the upper run that ends at the point, the point itself only has
   * to be at or above the mean.
   */
  function Rule10xAt(s: seq<Option<real>>, l: LimitSet, i: int): (flagged: bool)
    ensures flagged ==> 0 <= i < |s| && s[i].Some?
  {
    RunsCover(s, i, 10, Gt, l.mean);
    RunsCover(s, i, 10, Lt, l.mean);
    (Holds(s, i, Ge, l.mean) && Run(s, i - 9, 9, Gt, l.mean)) ||
    (exists start :: i - 8 <= start <= i && Run(s, start, 10, Gt, l.mean)) ||
    (exists start :: i - 9 <= start <= i && Run(s, start, 10, Lt, l.mean))
  }

  /** Whether `rule` flags point `i`. */
  predicate Flags(rule: Rule, s: seq<Option<real>>, l: LimitSet, i: int)
  {
    match rule
    case Rule13s => Rule13sAt(s, l, i)
    case Rule12s => Rule12sAt(s, l, i)
    case Rule22s => Rule22sAt(s, l, i)
    case RuleR4s => RuleR4sAt(s, l, i)
    case Rule41s => Rule41sAt(s, l, i)
    case Rule10x => Rule10xAt(s, l, i)
  }

  /** The violation column of one rule: one flag per point of the series. */
  function Mask(rule: Rule, s: seq<Option<real>>, l: LimitSet): (m: seq<bool>)
    ensures |m| == |s|
    ensures forall i :: 0 <= i < |s| ==> (m[i] <==> Flags(rule, s, l, i))
  {
    seq(|s|, i requires 0 <= i < |s| => Flags(rule, s, l, i))
  }

  /** The violation columns of the rules the user ticked, and of no others. */
  function Evaluate(enabled: set<Rule>, s: seq<Option<real>>, l: LimitSet): (r: map<Rule, seq<bool>>)
    ensures r.Keys == enabled
    ensures forall rule :: rule in r ==> r[rule] == Mask(rule, s, l)
  {
    map rule | rule in enabled :: Mask(rule, s, l)
  }

  // ---------------------------------------------------------------------
  // Properties

  /** A run of positive length lies inside the series. */
  lemma RunInBounds(s: seq<Option<real>>, start: int, len: nat, c: Cmp, t: real)
    ensures len > 0 && Run(s, start, len, c, t) ==> 0 <= start && start + len <= |s|
  {
    if len > 0 && Run(s, start, len, c, t) {
      assert Holds(s, start, c, t);
      assert Holds(s, start + len - 1, c, t);
    }
  }

  /** With a non-negative SD, every 1-3s point is also a 1-2s point. */
  lemma OneThreeImpliesOneTwo(s: seq<Option<real>>, l: LimitSet)
    requires WellFormed(l) && l.sd >= 0.0
    ensures forall i :: 0 <= i < |s| && Mask(Rule13s, s, l)[i] ==> Mask(Rule12s, s, l)[i]
  {
  }

  /** A 2-2s or R-4s point is itself beyond 2SD, hence a 1-2s point. */
  lemma PairRulesNeedOneTwo(s: seq<Option<real>>, l: LimitSet, i: int)
    ensures Rule22sAt(s, l, i) ==> Rule12sAt(s, l, i)
    ensures RuleR4sAt(s, l, i) ==> Rule12sAt(s, l, i)
  {
  }

  /** A 2-2s point has an adjacent 2-2s partner in the series. */
  lemma TwoTwoSHasPartner(s: seq<Option<real>>, l: LimitSet, i: int)
    requires Rule22sAt(s, l, i)
    ensures (0 < i && Rule22sAt(s, l, i - 1)) || (i + 1 < |s| && Rule22sAt(s, l, i + 1))
  {
  }

  /** An R-4s point has an adjacent R-4s partner in the series. */
  lemma RFourSHasPartner(s: seq<Option<real>>, l: LimitSet, i: int)
    requires RuleR4sAt(s, l, i)
    ensures (0 < i && RuleR4sAt(s, l, i - 1)) || (i + 1 < |s| && RuleR4sAt(s, l, i + 1))
  {
  }

  /** A one-point series has no neighbour, so 2-2s and R-4s flag nothing. */
  lemma SinglePointNoPairRule(s: seq<Option<real>>, l: LimitSet)
    requires |s| == 1
    ensures !Mask(Rule22s, s, l)[0] && !Mask(RuleR4s, s, l)[0]
  {
  }

  /** Mean 0, SD 1: in the series 2.5, -2.5 R-4s flags both points. */
  lemma RFourSExample()
    ensures Mask(RuleR4s, [Some(2.5), Some(-2.5)], Bands(0.0, 1.0)) == [true, true]
  {
    var s, l := [Some(2.5), Some(-2.5)], Bands(0.0, 1.0);
    assert Holds(s, 0, Ge, l.plus2) && Holds(s, 1, Le, l.minus2);
  }

  /** A 4-1s point is itself at or beyond +1SD or -1SD. */
  lemma FourOneSNeedsPoint(s: seq<Option<real>>, l: LimitSet, i: int)
    requires Rule41sAt(s, l, i)
    ensures Holds(s, i, Ge, l.plus1) || Holds(s, i, Le, l.minus1)
  {
  }

  /** A series of fewer than four points never triggers 4-1s. */
  lemma ShortSeriesNoFourOneS(s: seq<Option<real>>, l: LimitSet, i: int)
    requires |s| < 4
    ensures !Rule41sAt(s, l, i)
  {
    forall start, c, t ensures !Run(s, start, 4, c, t) {
      RunInBounds(s, start, 4, c, t);
    }
  }

  /** A series of fewer than ten points never triggers 10x. */
  lemma ShortSeriesNoTenX(s: seq<Option<real>>, l: LimitSet, i: int)
    requires |s| < 10
    ensures !Rule10xAt(s, l, i)
  {
    forall start, c, t ensures !Run(s, start, 10, c, t) {
      RunInBounds(s, start, 10, c, t);
    }
    RunInBounds(s, i - 9, 9, Gt, l.mean);
    assert Holds(s, i, Ge, l.mean) ==> 0 <= i < |s|;
  }

  /** Ten or more points all above the mean: 10x flags every point. */
  lemma AllAboveFlagsAll(s: seq<Option<real>>, l: LimitSet)
    requires |s| >= 10
    requires forall j :: 0 <= j < |s| ==> s[j].Some? && s[j].value > l.mean
    ensures forall i :: 0 <= i < |s| ==> Mask(Rule10x, s, l)[i]
  {
    forall i | 0 <= i < |s| ensures Rule10xAt(s, l, i) {
      var start := if i + 10 <= |s| then i else |s| - 10;
      assert Run(s, start, 10, Gt, l.mean);
      if start == i - 9 {
        assert Holds(s, i, Ge, l.mean) && Run(s, i - 9, 9, Gt, l.mean);
      }
    }
  }

  /** 4-1s read as one rule: some 4-point run containing the point is all at or beyond +1SD, or all at or beyond -1SD. */
  lemma FourOneSAsRun(s: seq<Option<real>>, l: LimitSet, i: int)
    ensures Rule41sAt(s, l, i) <==>
      exists start :: i - 3 <= start <= i && (Run(s, start, 4, Ge, l.plus1) || Run(s, start, 4, Le, l.minus1))
  {
    if exists start :: i - 3 <= start <= i && (Run(s, start, 4, Ge, l.plus1) || Run(s, start, 4, Le, l.minus1)) {
      var start :| i - 3 <= start <= i && (Run(s, start, 4, Ge, l.plus1) || Run(s, start, 4, Le, l.minus1));
      assert start == i - 3 || start == i - 2 || start == i - 1 || start == i;
    }
    if Rule41sAt(s, l, i) {
      if Run(s, i - 3, 4, Ge, l.plus1) || Run(s, i - 3, 4, Le, l.minus1) {
        assert i - 3 <= i - 3 <= i;  // witness for the existential: start = i - 3
      } else if Run(s, i - 2, 4, Ge, l.plus1) || Run(s, i - 2, 4, Le, l.minus1) {
        assert i - 3 <= i - 2 <= i;  // witness for the existential: start = i - 2
      } else if Run(s, i - 1, 4, Ge, l.plus1) || Run(s, i - 1, 4, Le, l.minus1) {
        assert i - 3 <= i - 1 <= i;  // witness for the existential: start = i - 1
      } else {
        assert i - 3 <= i <= i;  // witness for the existential: start = i
      }
    }
  }

  /** The textbook 10x rule: some 10-point run containing the point lies strictly on one side of the mean. */
  predicate TextbookTenX(s: seq<Option<real>>, mean: real, i: int)
  {
    exists start :: i - 9 <= start <= i && (Run(s, start, 10, Gt, mean) || Run(s, start, 10, Lt, mean))
  }

  /**
   * The 10x column against the textbook rule: it flags every point the
   * textbook rule flags, and beyond those only a point exactly at the mean
   * that ends nine points above it.
   */
  lemma TenXAgainstTextbook(s: seq<Option<real>>, l: LimitSet, i: int)
    ensures TextbookTenX(s, l.mean, i) ==> Rule10xAt(s, l, i)
    ensures Rule10xAt(s, l, i) ==>
      TextbookTenX(s, l.mean, i) || (At(s, i) == Some(l.mean) && Run(s, i - 9, 9, Gt, l.mean))
  {
    if TextbookTenX(s, l.mean, i) {
      var start :| i - 9 <= start <= i && (Run(s, start, 10, Gt, l.mean) || Run(s, start, 10, Lt, l.mean));
      if start == i - 9 && Run(s, start, 10, Gt, l.mean) {
        assert Holds(s, i, Gt, l.mean);
        assert Run(s, i - 9, 9, Gt, l.mean);
      }
    }
    if Holds(s, i, Ge, l.mean) && Run(s, i - 9, 9, Gt, l.mean) && At(s, i) != Some(l.mean) {
      assert Holds(s, i, Gt, l.mean);
      assert Run(s, i - 9, 10, Gt, l.mean);
    }
  }

  /**
   * Points alternately above and below the mean, starting above when
   * `upFirst` holds and below otherwise.
   */
  predicate Alternating(s: seq<Option<real>>, mean: real, upFirst: bool)
  {
    forall j :: 0 <= j < |s| ==>
      s[j].Some? && (if (j % 2 == 0) == upFirst then s[j].value > mean else s[j].value < mean)
  }

  /** In an alternating series no two neighbours lie strictly on the same side of the mean. */
  lemma AlternatingNoRun(s: seq<Option<real>>, mean: real, upFirst: bool, start: int, len: nat, c: Cmp)
    requires Alternating(s, mean, upFirst) && len >= 2 && (c == Gt || c == Lt)
    ensures !Run(s, start, len, c, mean)
  {
    assert !Holds(s, start, c, mean) || !Holds(s, start + 1, c, mean) by {
      if 0 <= start && start + 1 < |s| {
        if start % 2 == 0 {
          assert (start + 1) % 2 == 1;
        } else {
          assert (start + 1) % 2 == 0;
        }
      }
    }
  }

  /** An alternating series, whichever side it starts on, flags no point under 10x. */
  lemma AlternatingNoTenX(s: seq<Option<real>>, l: LimitSet, upFirst: bool)
    requires Alternating(s, l.mean, upFirst)
    ensures forall i :: 0 <= i < |s| ==> !Mask(Rule10x, s, l)[i]
  {
    forall start, len: nat, c | len >= 2 && (c == Gt || c == Lt) ensures !Run(s, start, len, c, l.mean) {
      AlternatingNoRun(s, l.mean, upFirst, start, len, c);
    }
  }

  /**
   * The one non-strict comparison of 10x is observable: nine points above the
   * mean followed by a point exactly at the mean flags that last point.
   */
  lemma TenXAcceptsPointAtMean()
    ensures var s := [Some(1.0), Some(1.0), Some(1.0), Some(1.0), Some(1.0),
                      Some(1.0), Some(1.0), Some(1.0), Some(1.0), Some(0.0)];
      s[9] == Some(Bands(0.0, 1.0).mean) && Mask(Rule10x, s, Bands(0.0, 1.0))[9]
  {
    var s := [Some(1.0), Some(1.0), Some(1.0), Some(1.0), Some(1.0),
              Some(1.0), Some(1.0), Some(1.0), Some(1.0), Some(0.0)];
    var l := Bands(0.0, 1.0);
    assert Run(s, 0, 9, Gt, l.mean);
  }

  /**
   * The masks depend on the series only through the limit set, so switching
   * to custom limits equal to the data-derived ones changes no mask.
   */
  lemma ModeSwitchSameMasks(rule: Rule, data: seq<Option<real>>, sampleSd: real)
    requires DropMissing(data) != [] ==> IsSqrt(sampleSd, PopVariance(DropMissing(data)))
    requires ComputeLimits(FromData, data, sampleSd).Ok?
    ensures var l := ComputeLimits(FromData, data, sampleSd).value;
      Mask(rule, data, ComputeLimits(Custom(l.mean, l.sd), data, sampleSd).value) == Mask(rule, data, l)
  {
    ModeSwitchRoundTrip(data, sampleSd, data, sampleSd);
  }
}
