/** Error decomposition: for each model, the residuals with missing values
    dropped, summarised as bias (mean), variance (population variance),
    noise (mean absolute deviation) and seasonality miss (mean absolute
    lag-7 difference). */
module Decomposition {
  import opened Common
  import opened Frames

  const SeasonLag: nat := 7

  /** The four statistics; a statistic numpy reports as NaN is None. */
  datatype ErrorBreakdown = ErrorBreakdown(
    biasError: Option<real>,
    varianceError: Option<real>,
    noise: Option<real>,
    seasonalityMiss: Option<real>)

  datatype DecompositionError = MissingColumn(name: string)

  /** `dropna()`: the present values, in order. */
  function Present(col: seq<Option<real>>): (r: seq<real>)
    ensures |r| <= |col|
    ensures (forall i :: 0 <= i < |col| ==> col[i].Some?) ==> |r| == |col| && forall i :: 0 <= i < |col| ==> r[i] == col[i].value
    ensures forall x :: x in r <==> Some(x) in col
  {
    if col == [] then []
    else
      var rest := Present(col[1..]);
      assert col == [col[0]] + col[1..];
      if col[0].Some? then [col[0].value] + rest else rest
  }

  /** `dropna` works cell by cell: a missing cell is dropped, a present one
      kept, and the pieces of a column keep their order. */
  lemma {:induction false} PresentIsDropna(a: seq<Option<real>>, b: seq<Option<real>>, x: real)
    ensures Present(a + b) == Present(a) + Present(b)
    ensures Present([None]) == [] && Present([Some(x)]) == [x]
  {
    if a == [] {
      assert a + b == b;
    } else {
      assert (a + b)[0] == a[0] && (a + b)[1..] == a[1..] + b;
      PresentIsDropna(a[1..], b, x);
      if a[0].Some? {
        assert [a[0].value] + (Present(a[1..]) + Present(b)) == ([a[0].value] + Present(a[1..])) + Present(b);
      }
    }
  }

  /** `np.abs(r - c)` pointwise. */
  function AbsDeviations(s: seq<real>, c: real): (r: seq<real>)
    ensures |r| == |s| && AllNonNegative(r)
    ensures forall i :: 0 <= i < |s| ==> r[i] == Abs(s[i] - c)
  {
    seq(|s|, i requires 0 <= i < |s| => Abs(s[i] - c))
  }

  function SquaredDeviations(s: seq<real>, c: real): (r: seq<real>)
    ensures |r| == |s| && AllNonNegative(r)
    ensures forall i :: 0 <= i < |s| ==> r[i] == (s[i] - c) * (s[i] - c)
  {
    seq(|s|, i requires 0 <= i < |s| => (s[i] - c) * (s[i] - c))
  }

  /** `np.abs(r.diff(lag))` with the leading NaNs skipped, as the mean skips them. */
  function LagDifferences(s: seq<real>, lag: nat): (r: seq<real>)
    ensures |r| == (if |s| > lag then |s| - lag else 0) && AllNonNegative(r)
    ensures forall i :: 0 <= i < |r| ==> r[i] == Abs(s[i + lag] - s[i])
  {
    if |s| <= lag then [] else seq(|s| - lag, i requires 0 <= i < |s| - lag => Abs(s[i + lag] - s[i]))
  }

  /** The four statistics of one residual series (missing values already dropped). */
  function Breakdown(s: seq<real>): (b: ErrorBreakdown)
    ensures b.biasError.Some? <==> |s| > 0
    ensures b.varianceError.Some? <==> |s| > 0
    ensures b.noise.Some? <==> |s| > 0
    ensures b.seasonalityMiss.Some? <==> |s| > SeasonLag
    ensures b.varianceError.Some? ==> b.varianceError.value >= 0.0
    ensures b.noise.Some? ==> b.noise.value >= 0.0
    ensures b.seasonalityMiss.Some? ==> b.seasonalityMiss.value >= 0.0
  {
    if s == [] then ErrorBreakdown(None, None, None, None)
    else
      var m := Mean(s);
      MeanNonNegative(SquaredDeviations(s, m));
      MeanNonNegative(AbsDeviations(s, m));
      ErrorBreakdown(
        Some(m),
        Some(Mean(SquaredDeviations(s, m))),
        Some(Mean(AbsDeviations(s, m))),
        SeasonalityMiss(s))
  }

  /** `np.mean(np.abs(r.diff(7)))`: NaN unless there are more than seven values. */
  function SeasonalityMiss(s: seq<real>): (r: Option<real>)
    ensures r.Some? <==> |s| > SeasonLag
    ensures r.Some? ==> r.value >= 0.0
  {
    var diffs := LagDifferences(s, SeasonLag);
    if diffs == [] then None
    else
      MeanNonNegative(diffs);
      Some(Mean(diffs))
  }

  /** cols[i] is the first of `cols` that is not a column of the table. */
  predicate FirstMissing(cols: seq<string>, columns: seq<string>, i: int)
  {
    0 <= i < |cols| && cols[i] !in columns && forall j :: 0 <= j < i ==> cols[j] in columns
  }

  /** decompose_errors: the loop over the model columns filling the
      breakdown dictionary; the first missing column raises. */
  method DecomposeErrors(t: ResidualTable, cols: seq<string>) returns (r: Result<map<string, ErrorBreakdown>, DecompositionError>)
    ensures r.Ok? <==> forall i :: 0 <= i < |cols| ==> cols[i] in t.columns
    ensures r.Ok? ==> forall m :: m in r.value <==> m in cols
    ensures r.Ok? ==> forall m :: m in r.value ==> r.value[m] == Breakdown(Present(Column(t, m)))
    ensures r.Err? ==> exists i :: FirstMissing(cols, t.columns, i) && r.error == MissingColumn(cols[i])
  {
    var breakdown: map<string, ErrorBreakdown> := map[];
    var i := 0;
    while i < |cols|
      invariant 0 <= i <= |cols|
      invariant forall j :: 0 <= j < i ==> cols[j] in t.columns
      invariant forall m :: m in breakdown <==> exists j :: 0 <= j < i && cols[j] == m
      invariant forall m :: m in breakdown ==> breakdown[m] == Breakdown(Present(Column(t, m)))
    {
      var model := cols[i];
      if model !in t.columns {
        assert FirstMissing(cols, t.columns, i);
        return Err(MissingColumn(model));
      }
      breakdown := breakdown[model := Breakdown(Present(Column(t, model)))];
      i := i + 1;
    }
    return Ok(breakdown);
  }

  // ---------------------------------------------------------------------
  // Properties

  /** Missing residuals are dropped, not counted: a column with every
      residual present is summarised over all of its rows. */
  lemma CompleteColumnKeepsEveryRow(t: ResidualTable, model: string)
    requires forall i :: 0 <= i < |t.rows| ==> model in t.rows[i].values
    ensures var s := Present(Column(t, model));
      |s| == |t.rows| && forall i :: 0 <= i < |s| ==> s[i] == t.rows[i].values[model]
  {
  }

  lemma {:induction false} SumConstant(s: seq<real>, c: real)
    requires forall i :: 0 <= i < |s| ==> s[i] == c
    ensures Sum(s) == (|s| as real) * c
  {
    if s != [] {
      SumConstant(s[1..], c);
    }
  }

  /** A constant residual series has bias equal to the constant and no
      variance, noise or seasonality miss. */
  lemma ConstantSeries(s: seq<real>, c: real)
    requires |s| > 0 && forall i :: 0 <= i < |s| ==> s[i] == c
    ensures var b := Breakdown(s);
      && b.biasError == Some(c)
      && b.varianceError == Some(0.0)
      && b.noise == Some(0.0)
      && b.seasonalityMiss == (if |s| > SeasonLag then Some(0.0) else None)
  {
    MeanOfConstant(s, c);
    MeanOfZeros(SquaredDeviations(s, c));
    MeanOfZeros(AbsDeviations(s, c));
    if |s| > SeasonLag {
      MeanOfZeros(LagDifferences(s, SeasonLag));
    }
  }

  lemma MeanOfConstant(s: seq<real>, c: real)
    requires |s| > 0 && forall i :: 0 <= i < |s| ==> s[i] == c
    ensures Mean(s) == c
  {
    SumConstant(s, c);
    var n := |s| as real;
    assert Mean(s) == n * c / n;
  }

  /** The decomposition test of the repository: residuals 0, 1, ..., 13 give
      bias 6.5, variance 16.25, noise 3.5 and seasonality miss 7.0. */
  lemma ZeroToThirteen()
    ensures Breakdown(seq(14, i => i as real)) == ErrorBreakdown(Some(6.5), Some(16.25), Some(3.5), Some(7.0))
  {
    RangeStatistics(seq(14, i => i as real));
  }

  lemma RangeStatistics(s: seq<real>)
    requires |s| == 14 && forall i :: 0 <= i < 14 ==> s[i] == i as real
    ensures Breakdown(s) == ErrorBreakdown(Some(6.5), Some(16.25), Some(3.5), Some(7.0))
  {
    RangeMean(s);
    RangeSquares(s);
    RangeDistances(s);
    RangeSeasonal(s);
  }

  lemma MeanOfFourteen(s: seq<real>, total: real)
    requires |s| == 14 && Sum(s) == total
    ensures Mean(s) == total / 14.0
  {
  }

  lemma RangeMean(s: seq<real>)
    requires |s| == 14 && forall i :: 0 <= i < 14 ==> s[i] == i as real
    ensures Mean(s) == 6.5
  {
    assert s == [0.0, 1.0, 2.0, 3.0, 4.0, 5.0, 6.0, 7.0, 8.0, 9.0, 10.0, 11.0, 12.0, 13.0];
    SumOfZeroToThirteen();
    MeanOfFourteen(s, 91.0);
  }

  lemma RangeSquares(s: seq<real>)
    requires |s| == 14 && forall i :: 0 <= i < 14 ==> s[i] == i as real
    ensures Mean(SquaredDeviations(s, 6.5)) == 16.25
  {
    var d := SquaredDeviations(s, 6.5);
    assert d == [42.25, 30.25, 20.25, 12.25, 6.25, 2.25, 0.25, 0.25, 2.25, 6.25, 12.25, 20.25, 30.25, 42.25];
    SumOfSquares();
    MeanOfFourteen(d, 227.5);
  }

  lemma RangeDistances(s: seq<real>)
    requires |s| == 14 && forall i :: 0 <= i < 14 ==> s[i] == i as real
    ensures Mean(AbsDeviations(s, 6.5)) == 3.5
  {
    var d := AbsDeviations(s, 6.5);
    assert d == [6.5, 5.5, 4.5, 3.5, 2.5, 1.5, 0.5, 0.5, 1.5, 2.5, 3.5, 4.5, 5.5, 6.5];
    SumOfDistances();
    MeanOfFourteen(d, 49.0);
  }

  lemma RangeSeasonal(s: seq<real>)
    requires |s| == 14 && forall i :: 0 <= i < 14 ==> s[i] == i as real
    ensures SeasonalityMiss(s) == Some(7.0)
  {
    var d := LagDifferences(s, SeasonLag);
    assert |d| == 7;
    SumConstant(d, 7.0);
    assert Mean(d) == 49.0 / 7.0;
  }

  // The sums behind the test values, evaluated from the displays.

  lemma SumOfZeroToThirteen()
    ensures Sum([0.0, 1.0, 2.0, 3.0, 4.0, 5.0, 6.0, 7.0, 8.0, 9.0, 10.0, 11.0, 12.0, 13.0]) == 91.0
  {
  }

  lemma SumOfSquares()
    ensures Sum([42.25, 30.25, 20.25, 12.25, 6.25, 2.25, 0.25, 0.25, 2.25, 6.25, 12.25, 20.25, 30.25, 42.25]) == 227.5
  {
  }

  lemma SumOfDistances()
    ensures Sum([6.5, 5.5, 4.5, 3.5, 2.5, 1.5, 0.5, 0.5, 1.5, 2.5, 3.5, 4.5, 5.5, 6.5]) == 49.0
  {
  }
}
