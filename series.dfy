/**
 * Preparation of the control series and its sample statistics.
 *
 * A cell that is empty (NaN in the data frame) is `None`.  The entered table
 * keeps such cells after the `include` filter; an uploaded column has them
 * dropped.
 */
module Series {
  import opened Wrappers

  /** One row of the entered data table: the IQC result and its include box. */
  datatype Row = Row(value: Option<real>, included: bool)

  /** Which data the charts are drawn from. */
  datatype DataChoice = EnteredTable | UploadedData

  /** The included rows' values, in order, missing values kept. */
  function IncludedValues(rows: seq<Row>): (s: seq<Option<real>>)
    ensures |s| <= |rows|
    ensures forall v :: v in s <==> exists r :: r in rows && r.included && r.value == v
  {
    if rows == [] then []
    else
      var rest := IncludedValues(rows[1..]);
      assert forall r :: r in rows <==> r == rows[0] || r in rows[1..];
      if rows[0].included then [rows[0].value] + rest else rest
  }

  /** The present values of a column, in order (`dropna().reset_index()`). */
  function DropMissing(xs: seq<Option<real>>): (r: seq<real>)
    ensures |r| <= |xs|
    ensures forall v :: v in r <==> Some(v) in xs
  {
    if xs == [] then []
    else
      var rest := DropMissing(xs[1..]);
      assert forall o :: o in xs <==> o == xs[0] || o in xs[1..];
      if xs[0].Some? then [xs[0].value] + rest else rest
  }

  /** The include filter keeps each included row's value and nothing else. */
  lemma IncludedValuesSingleton(r: Row)
    ensures IncludedValues([r]) == if r.included then [r.value] else []
  {
    assert [r][1..] == [];
  }

  /** The include filter works piece by piece, so it keeps the rows' order and repeats. */
  lemma {:induction false} IncludedValuesAppend(a: seq<Row>, b: seq<Row>)
    ensures IncludedValues(a + b) == IncludedValues(a) + IncludedValues(b)
  {
    if a == [] {
      assert a + b == b;
    } else {
      assert (a + b)[0] == a[0];
      assert (a + b)[1..] == a[1..] + b;
      IncludedValuesAppend(a[1..], b);
    }
  }

  /** Dropping missing cells keeps a present value and removes a missing one. */
  lemma DropMissingSingleton(o: Option<real>)
    ensures DropMissing([o]) == if o.Some? then [o.value] else []
  {
    assert [o][1..] == [];
  }

  /** Dropping missing cells works piece by piece, so it keeps the order and repeats of the present values. */
  lemma {:induction false} DropMissingAppend(a: seq<Option<real>>, b: seq<Option<real>>)
    ensures DropMissing(a + b) == DropMissing(a) + DropMissing(b)
  {
    if a == [] {
      assert a + b == b;
    } else {
      assert (a + b)[0] == a[0];
      assert (a + b)[1..] == a[1..] + b;
      DropMissingAppend(a[1..], b);
    }
  }

  /** A series of present values seen as a column of cells. */
  function Lift(xs: seq<real>): (s: seq<Option<real>>)
    ensures |s| == |xs|
    ensures forall i :: 0 <= i < |xs| ==> s[i] == Some(xs[i])
  {
    seq(|xs|, i requires 0 <= i < |xs| => Some(xs[i]))
  }

  /** Dropping missing values leaves a column without missing values unchanged. */
  lemma {:induction false} DropMissingLift(xs: seq<real>)
    ensures DropMissing(Lift(xs)) == xs
  {
    if xs != [] {
      assert Lift(xs)[1..] == Lift(xs[1..]);
      DropMissingLift(xs[1..]);
    }
  }

  /** Dropping missing values is idempotent. */
  lemma DropMissingIdempotent(xs: seq<Option<real>>)
    ensures DropMissing(Lift(DropMissing(xs))) == DropMissing(xs)
  {
    DropMissingLift(DropMissing(xs));
  }

  /**
   * The series the Levey-Jennings chart is drawn from: the entered table's
   * included rows, or the uploaded column with its missing values dropped.
   */
  function SelectData(choice: DataChoice, rows: seq<Row>, upload: Option<seq<Option<real>>>)
    : (r: Result<seq<Option<real>>>)
    ensures choice == EnteredTable ==> r == Ok(IncludedValues(rows))
    ensures choice == UploadedData ==>
      (r.Err? <==> upload.None?) &&
      (r.Ok? ==> forall i :: 0 <= i < |r.value| ==> r.value[i].Some?)
    ensures choice == UploadedData && upload.Some? ==> r == Ok(Lift(DropMissing(upload.value)))
  {
    match choice
    case EnteredTable => Ok(IncludedValues(rows))
    case UploadedData =>
      if upload.None? then Err(DataNotUploaded) else Ok(Lift(DropMissing(upload.value)))
  }

  function Sum(xs: seq<real>): real
  {
    if xs == [] then 0.0 else xs[0] + Sum(xs[1..])
  }

  function Min(xs: seq<real>): (m: real)
    requires xs != []
    ensures m in xs && forall x :: x in xs ==> m <= x
  {
    if |xs| == 1 then xs[0]
    else
      var rest := Min(xs[1..]);
      assert forall x :: x in xs ==> x == xs[0] || x in xs[1..];
      if xs[0] <= rest then xs[0] else rest
  }

  function Max(xs: seq<real>): (m: real)
    requires xs != []
    ensures m in xs && forall x :: x in xs ==> x <= m
  {
    if |xs| == 1 then xs[0]
    else
      var rest := Max(xs[1..]);
      assert forall x :: x in xs ==> x == xs[0] || x in xs[1..];
      if xs[0] >= rest then xs[0] else rest
  }

  /** The arithmetic mean (`np.mean`); it lies between the smallest and the largest value. */
  function Mean(xs: seq<real>): (m: real)
    requires xs != []
    ensures Min(xs) <= m <= Max(xs)
  {
    SumBounds(xs, Min(xs), Max(xs));
    ScaledBounds(Min(xs), Sum(xs), Max(xs), |xs| as real);
    Sum(xs) / |xs| as real
  }

  /** The squared deviations of the values from `m`, each never negative. */
  function SquaredDeviations(xs: seq<real>, m: real): (sq: seq<real>)
    ensures |sq| == |xs|
    ensures forall i :: 0 <= i < |xs| ==> sq[i] == (xs[i] - m) * (xs[i] - m) && sq[i] >= 0.0
  {
    var sq := seq(|xs|, i requires 0 <= i < |xs| => (xs[i] - m) * (xs[i] - m));
    SquaresNonNegative(xs, m, sq);
    sq
  }

  /** Every entry of a sequence of squares is non-negative. */
  lemma SquaresNonNegative(xs: seq<real>, m: real, sq: seq<real>)
    requires |sq| == |xs|
    requires forall i :: 0 <= i < |xs| ==> sq[i] == (xs[i] - m) * (xs[i] - m)
    ensures forall i :: 0 <= i < |xs| ==> sq[i] >= 0.0
  {
    forall i | 0 <= i < |xs| ensures sq[i] >= 0.0 {
      SquareNonNegative(xs[i] - m);
    }
  }

  /**
   * The population variance (`np.std` squared, dividing by N). It is never
   * negative, so `np.std` is defined.
   */
  function PopVariance(xs: seq<real>): (v: real)
    requires xs != []
    ensures v >= 0.0
  {
    var sq := SquaredDeviations(xs, Mean(xs));
    SumNonNegative(sq);
    DivMonotone(0.0, Sum(sq), |xs| as real);
    Sum(sq) / |xs| as real
  }

  /** `r` is the non-negative square root of `v`. */
  predicate IsSqrt(r: real, v: real)
  {
    r >= 0.0 && r * r == v
  }

  lemma {:induction false} SumBounds(xs: seq<real>, lo: real, hi: real)
    requires forall x :: x in xs ==> lo <= x <= hi
    ensures |xs| as real * lo <= Sum(xs) <= |xs| as real * hi
  {
    if xs != [] {
      assert forall x :: x in xs[1..] ==> x in xs;
      assert xs[0] in xs;
      SumBounds(xs[1..], lo, hi);
      var n := |xs[1..]| as real;
      assert |xs| as real * lo == n * lo + lo;
      assert |xs| as real * hi == n * hi + hi;
    }
  }

  /** From `n*lo <= s <= n*hi` with `n > 0`, the average `s/n` is within `[lo, hi]`. */
  lemma ScaledBounds(lo: real, s: real, hi: real, n: real)
    requires n > 0.0 && n * lo <= s <= n * hi
    ensures lo <= s / n <= hi
  {
    assert s / n - lo == (s - n * lo) / n;
    assert hi - s / n == (n * hi - s) / n;
  }

  /** Division by a positive number keeps an inequality. */
  lemma DivMonotone(a: real, b: real, n: real)
    requires a <= b && n > 0.0
    ensures a / n <= b / n
  {
    assert b / n - a / n == (b - a) / n;
  }

  lemma {:induction false} SumConstant(xs: seq<real>, c: real)
    requires forall i :: 0 <= i < |xs| ==> xs[i] == c
    ensures Sum(xs) == |xs| as real * c
  {
    if xs != [] {
      SumConstant(xs[1..], c);
      assert |xs| as real * c == |xs[1..]| as real * c + c;
    }
  }

  lemma {:induction false} SumNonNegative(xs: seq<real>)
    requires forall i :: 0 <= i < |xs| ==> xs[i] >= 0.0
    ensures Sum(xs) >= 0.0
  {
    if xs != [] {
      SumNonNegative(xs[1..]);
    }
  }

  lemma SquareNonNegative(a: real)
    ensures a * a >= 0.0
  {
    if a < 0.0 {
      assert a * a == (-a) * (-a);
    }
  }

  /** The squared deviation `v` of `x` from itself is zero. */
  lemma ZeroSquare(v: real, x: real, m: real)
    requires x == m && v == (x - m) * (x - m)
    ensures v == 0.0
  {
  }

  /** A constant series has that constant as its mean and zero variance. */
  lemma ConstantSeries(xs: seq<real>, c: real)
    requires xs != []
    requires forall i :: 0 <= i < |xs| ==> xs[i] == c
    ensures Mean(xs) == c
    ensures PopVariance(xs) == 0.0
  {
    SumConstant(xs, c);
    var sq := SquaredDeviations(xs, c);
    forall i | 0 <= i < |sq| ensures sq[i] == 0.0 {
      ZeroSquare(sq[i], xs[i], c);
    }
    SumConstant(sq, 0.0);
  }
}
