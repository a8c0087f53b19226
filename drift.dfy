/** Residual drift detection: sort the residual table by timestamp, split
    the chosen model's residual series into past and recent windows with
    Python slice semantics, short-circuit on short history, and otherwise
    compare the two windows with a two-sample Kolmogorov-Smirnov test. */
module Drift {
  import opened Common
  import opened Frames

  type Probability = p: real | 0.0 <= p <= 1.0

  /** The two-sample Kolmogorov-Smirnov p-value, as an abstract function. */
  type KsTest = (seq<real>, seq<real>) -> Probability

  const DefaultWindowSize: int := 14
  const Significance: real := 0.05

  /** `{"drift_detected": ..., "p_value": ...}`; a NaN p-value is None. */
  datatype DriftReport = DriftReport(driftDetected: bool, pValue: Option<real>)

  datatype DriftError =
    | MissingColumn(name: string)  // KeyError selecting the model column
    | EmptySample                  // the KS test rejects an empty window

  /** One observation of the model's residual series: its timestamp and value. */
  datatype Point = Point(ds: int, value: Option<real>)

  // ---------------------------------------------------------------------
  // sort_values("ds")

  predicate SortedByDs(s: seq<Point>)
  {
    forall i, j :: 0 <= i < j < |s| ==> s[i].ds <= s[j].ds
  }

  function InsertByDs(p: Point, s: seq<Point>): (r: seq<Point>)
    requires SortedByDs(s)
    ensures SortedByDs(r) && multiset(r) == multiset(s) + multiset{p}
    ensures |r| == |s| + 1 && (r[0] == p || (|s| > 0 && r[0] == s[0]))
  {
    if s == [] then [p]
    else if p.ds < s[0].ds then [p] + s
    else
      var rest := InsertByDs(p, s[1..]);
      assert s == [s[0]] + s[1..];
      assert s[0].ds <= rest[0].ds;
      [s[0]] + rest
  }

  /** A sort by timestamp: sorted, and a permutation of its input. */
  function SortByDs(s: seq<Point>): (r: seq<Point>)
    ensures SortedByDs(r) && multiset(r) == multiset(s)
  {
    if s == [] then []
    else
      assert s == [s[0]] + s[1..];
      InsertByDs(s[0], SortByDs(s[1..]))
  }

  /** `residuals_df[model]` as a series of timestamped points. */
  function Series(rows: seq<ResidualRow>, model: string): (r: seq<Point>)
    ensures |r| == |rows|
    ensures forall i :: 0 <= i < |r| ==> r[i] == Point(rows[i].key.ds, Cell(rows[i].values, model))
  {
    seq(|rows|, i requires 0 <= i < |rows| => Point(rows[i].key.ds, Cell(rows[i].values, model)))
  }

  // ---------------------------------------------------------------------
  // iloc[-w:] and iloc[:-w]

  /** The index at which Python's `s[-w:]` starts and `s[:-w]` ends, for
      every integer w, including 0 (`s[-0:]` is everything, `s[:-0]` is
      empty) and negative w. */
  function SplitIndex(n: nat, w: int): (i: nat)
    ensures i <= n
    ensures w > 0 ==> n - i == if w <= n then w else n
    ensures w == 0 ==> i == 0
  {
    if w > 0 then (if n >= w then n - w else 0)
    else if w == 0 then 0
    else (if -w <= n then -w else n)
  }

  /** Past is everything before the recent window. */
  function Past<T>(s: seq<T>, w: int): seq<T>
  {
    s[..SplitIndex(|s|, w)]
  }

  function Recent<T>(s: seq<T>, w: int): seq<T>
  {
    s[SplitIndex(|s|, w)..]
  }

  predicate AllPresent(s: seq<Point>)
  {
    forall i :: 0 <= i < |s| ==> s[i].value.Some?
  }

  function Values(s: seq<Point>): (r: seq<real>)
    requires AllPresent(s)
    ensures |r| == |s| && forall i :: 0 <= i < |s| ==> r[i] == s[i].value.value
  {
    seq(|s|, i requires 0 <= i < |s| => s[i].value.value)
  }

  /** detect_residual_drift.  A NaN in either window makes the p-value NaN,
      which compares false against the threshold. */
  function DetectResidualDrift(t: ResidualTable, model: string, windowSize: int, ks: KsTest): (r: Result<DriftReport, DriftError>)
    ensures r.Ok? && r.value.pValue.Some? ==> 0.0 <= r.value.pValue.value <= 1.0
    ensures r.Ok? && r.value.driftDetected ==> r.value.pValue.Some? && r.value.pValue.value < Significance
    ensures r.Err? ==> r == Err(MissingColumn(model)) || r == Err(EmptySample)
  {
    if model !in t.columns then Err(MissingColumn(model))
    else
      var s := SortByDs(Series(t.rows, model));
      var past, recent := Past(s, windowSize), Recent(s, windowSize);
      if |past| < windowSize then Ok(DriftReport(false, Some(1.0)))
      else if past == [] || recent == [] then Err(EmptySample)
      else if !AllPresent(past) || !AllPresent(recent) then Ok(DriftReport(false, None))
      else
        var p := ks(Values(past), Values(recent));
        Ok(DriftReport(p < Significance, Some(p)))
  }

  // ---------------------------------------------------------------------
  // Properties

  /** The windows partition the sorted series: past then recent is the
      whole, recent is the last min(w, n) values for a positive window. */
  lemma WindowsPartition<T>(s: seq<T>, w: int)
    ensures Past(s, w) + Recent(s, w) == s
    ensures w > 0 ==> |Recent(s, w)| == (if w <= |s| then w else |s|)
    ensures w > 0 ==> Recent(s, w) == s[|s| - |Recent(s, w)|..]
  {
  }

  /** For a positive window the history is too short exactly when there are
      fewer than two windows' worth of observations. */
  lemma ShortHistoryIff<T>(s: seq<T>, w: int)
    requires w > 0
    ensures |Past(s, w)| < w <==> |s| < 2 * w
  {
  }

  /** Short history returns the fixed result, whatever the residuals are. */
  lemma ShortHistoryNeverDrifts(t: ResidualTable, model: string, w: int, ks: KsTest)
    requires model in t.columns && w > 0 && |t.rows| < 2 * w
    ensures DetectResidualDrift(t, model, w, ks) == Ok(DriftReport(false, Some(1.0)))
  {
    var s := SortByDs(Series(t.rows, model));
    assert |multiset(s)| == |multiset(Series(t.rows, model))|;
    ShortHistoryIff(s, w);
  }

  /** With enough history and no missing residuals the verdict is the KS
      p-value against 0.05: drift exactly when p < 0.05. */
  lemma EnoughHistoryThresholds(t: ResidualTable, model: string, w: int, ks: KsTest)
    requires model in t.columns && w > 0 && |t.rows| >= 2 * w
    requires forall i :: 0 <= i < |t.rows| ==> model in t.rows[i].values
    ensures var s := SortByDs(Series(t.rows, model));
      AllPresent(s) &&
      var p := ks(Values(Past(s, w)), Values(Recent(s, w)));
      DetectResidualDrift(t, model, w, ks) == Ok(DriftReport(p < 0.05, Some(p)))
  {
    var series := Series(t.rows, model);
    var s := SortByDs(series);
    SortKeepsPresence(series);
    ShortHistoryIff(s, w);
    WindowsPresent(s, w);
  }

  /** Sorting keeps every observation, so a series with no missing value
      sorts to one with no missing value, of the same length. */
  lemma SortKeepsPresence(series: seq<Point>)
    ensures |SortByDs(series)| == |series|
    ensures AllPresent(series) ==> AllPresent(SortByDs(series))
  {
    var s := SortByDs(series);
    assert |multiset(s)| == |multiset(series)|;
    if AllPresent(series) {
      forall i | 0 <= i < |s| ensures s[i].value.Some? {
        assert s[i] in multiset(series);
      }
    }
  }

  lemma WindowsPresent(s: seq<Point>, w: int)
    requires AllPresent(s)
    ensures AllPresent(Past(s, w)) && AllPresent(Recent(s, w))
  {
    var past, recent := Past(s, w), Recent(s, w);
    assert forall i :: 0 <= i < |past| ==> past[i] == s[i];
    assert forall i :: 0 <= i < |recent| ==> recent[i] == s[SplitIndex(|s|, w) + i];
  }

  /** A missing residual in either window yields a NaN p-value and no drift. */
  lemma MissingResidualGivesNaN(t: ResidualTable, model: string, w: int, ks: KsTest)
    requires model in t.columns && w > 0 && |t.rows| >= 2 * w
    requires exists i :: 0 <= i < |t.rows| && model !in t.rows[i].values
    ensures DetectResidualDrift(t, model, w, ks) == Ok(DriftReport(false, None))
  {
    var series := Series(t.rows, model);
    var s := SortByDs(series);
    var i :| 0 <= i < |t.rows| && model !in t.rows[i].values;
    SortKeepsAbsence(series, i);
    ShortHistoryIff(s, w);
    WindowsCoverAbsence(s, w);
  }

  /** Sorting keeps a missing observation. */
  lemma SortKeepsAbsence(series: seq<Point>, i: int)
    requires 0 <= i < |series| && series[i].value.None?
    ensures |SortByDs(series)| == |series| && !AllPresent(SortByDs(series))
  {
    var s := SortByDs(series);
    assert |multiset(s)| == |multiset(series)|;
    assert series[i] in multiset(s);
  }

  /** A missing observation lies in one of the two windows. */
  lemma WindowsCoverAbsence(s: seq<Point>, w: int)
    requires !AllPresent(s)
    ensures !AllPresent(Past(s, w)) || !AllPresent(Recent(s, w))
  {
    var j :| 0 <= j < |s| && s[j].value.None?;
    var k := SplitIndex(|s|, w);
    if j < k {
      assert Past(s, w)[j] == s[j];
    } else {
      assert Recent(s, w)[j - k] == s[j];
    }
  }

  /** A window of zero or less asks the KS test about an empty past window
      (or, for a negative window, possibly an empty recent one). */
  lemma NonPositiveWindow(t: ResidualTable, model: string, ks: KsTest)
    requires model in t.columns
    ensures DetectResidualDrift(t, model, 0, ks) == Err(EmptySample)
  {
  }

  /** The history test of the drift tests: 20 daily residuals against a
      14-day window never reach the KS test. */
  lemma TwentyDaysAgainstFourteenDayWindow(t: ResidualTable, model: string, ks: KsTest)
    requires model in t.columns && |t.rows| == 20
    ensures DetectResidualDrift(t, model, DefaultWindowSize, ks) == Ok(DriftReport(false, Some(1.0)))
  {
    ShortHistoryNeverDrifts(t, model, DefaultWindowSize, ks);
  }

  /** The shift test of the drift tests: 26 zeros followed by 14 fives on
      consecutive days split into exactly those two windows. */
  lemma ShiftTestWindows(t: ResidualTable, model: string)
    requires |t.rows| == 40
    requires forall i :: 0 <= i < 40 ==> t.rows[i].key.ds == i
    requires forall i :: 0 <= i < 40 ==> t.rows[i].values == map[model := if i < 26 then 0.0 else 5.0]
    ensures var s := SortByDs(Series(t.rows, model));
      var past, recent := Past(s, 14), Recent(s, 14);
      && |past| == 26 && (forall i :: 0 <= i < 26 ==> past[i] == Point(i, Some(0.0)))
      && |recent| == 14 && (forall i :: 0 <= i < 14 ==> recent[i] == Point(26 + i, Some(5.0)))
  {
    var series := Series(t.rows, model);
    assert forall i :: 0 <= i < 40 ==> series[i] == Point(i, Some(if i < 26 then 0.0 else 5.0));
    SortKeepsIncreasingSeries(series);
    assert SplitIndex(40, 14) == 26;
  }

  /** Sorting a series that is already strictly increasing in time changes nothing. */
  lemma {:induction false} SortKeepsIncreasingSeries(a: seq<Point>)
    requires forall i :: 0 <= i < |a| - 1 ==> a[i].ds < a[i + 1].ds
    ensures SortByDs(a) == a
  {
    if a != [] {
      SortKeepsIncreasingSeries(a[1..]);
      if |a| > 1 {
        assert a[1..][0] == a[1];
      }
      assert a == [a[0]] + a[1..];
    }
  }
}
