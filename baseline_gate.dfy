/** The gate logic of the baseline run: the ensemble column, the forecast
    columns it scores, the per-model metrics dictionary, the CI floor, the
    selected model and pass_ci, the phase-gated drift abort and the anchor
    bias of a cascaded run. */
module BaselineGate {
  import opened Common
  import opened Json
  import opened Files
  import opened Frames
  import opened Evaluation
  import opened PhaseHandler
  import Drift
  import Aggregation
  import Decomposition

  const NaiveColumn: string := "Naive"
  const SeasonalNaiveColumn: string := "SeasonalNaive"
  const EnsembleColumn: string := "ensemble_naive"
  const HoltWintersColumn: string := "HoltWinters"

  /** Columns that are never scored, even when numeric. */
  const MetaColumns: seq<string> := ["unique_id", "ds", "run_id", "horizon", "n_models", "tag"]

  /** Why the run stops; each is an exception that ends the script. */
  datatype GateError =
    | MissingForecastColumn(name: string)          // KeyError selecting Naive / SeasonalNaive
    | MissingScore(model: string)                  // KeyError in metrics_dict
    | DriftCheckFailed(driftError: Drift.DriftError)    // detect_residual_drift raises
    | DriftDetected                                // the CI gate's ValueError
    | AnchorForecastsUnreadable(path: string)      // read_csv on a missing file
    | AnchorForecastsMalformed(path: string)       // read_csv on bytes that are not a table
    | AnchorBiasFailed(biasError: Aggregation.BiasError)  // compute_anchor_bias raises

  // ---------------------------------------------------------------------
  // forecasts["ensemble_naive"] = (forecasts["Naive"] + forecasts["SeasonalNaive"]) / 2

  /** The ensemble cell of one row; NaN (absence) in either input propagates. */
  function EnsembleCell(values: map<string, real>): (r: Option<real>)
    ensures r.Some? <==> NaiveColumn in values && SeasonalNaiveColumn in values
    ensures r.Some? ==> r.value * 2.0 == values[NaiveColumn] + values[SeasonalNaiveColumn]
  {
    if NaiveColumn in values && SeasonalNaiveColumn in values
    then Some((values[NaiveColumn] + values[SeasonalNaiveColumn]) / 2.0)
    else None
  }

  function EnsembleRow(r: ForecastRow): ForecastRow
  {
    var e := EnsembleCell(r.values);
    ForecastRow(r.key, if e.Some? then r.values[EnsembleColumn := e.value] else r.values - {EnsembleColumn})
  }

  /** Assigning the column: an existing column keeps its place, a new one is appended. */
  function WithEnsemble(t: ForecastTable): (r: Result<ForecastTable, GateError>)
    ensures r.Ok? <==> NaiveColumn in t.columns && SeasonalNaiveColumn in t.columns
    ensures r.Err? ==> r.error == MissingForecastColumn(if NaiveColumn !in t.columns then NaiveColumn else SeasonalNaiveColumn)
    ensures r.Ok? ==> r.value.columns == if EnsembleColumn in t.columns then t.columns else t.columns + [EnsembleColumn]
    ensures r.Ok? ==> |r.value.rows| == |t.rows| && forall i :: 0 <= i < |t.rows| ==>
      && r.value.rows[i].key == t.rows[i].key
      && Cell(r.value.rows[i].values, EnsembleColumn) == EnsembleCell(t.rows[i].values)
      && forall c :: c != EnsembleColumn ==> Cell(r.value.rows[i].values, c) == Cell(t.rows[i].values, c)
  {
    if NaiveColumn !in t.columns then Err(MissingForecastColumn(NaiveColumn))
    else if SeasonalNaiveColumn !in t.columns then Err(MissingForecastColumn(SeasonalNaiveColumn))
    else
      var columns := if EnsembleColumn in t.columns then t.columns else t.columns + [EnsembleColumn];
      Ok(ForecastTable(columns, seq(|t.rows|, i requires 0 <= i < |t.rows| => EnsembleRow(t.rows[i]))))
  }

  /** `forecast_cols`: the columns that are not bookkeeping, in table order. */
  function ForecastCols(columns: seq<string>): (cols: seq<string>)
    ensures forall c :: c in cols <==> c in columns && c !in MetaColumns
    ensures |cols| <= |columns|
  {
    if columns == [] then []
    else
      var rest := ForecastCols(columns[1..]);
      if columns[0] in MetaColumns then rest else [columns[0]] + rest
  }

  // ---------------------------------------------------------------------
  // metrics_dict = {row["model"]: {...} for row in results}

  predicate DistinctModels(d: seq<ModelMetrics>)
  {
    forall i, j :: 0 <= i < j < |d| ==> d[i].model != d[j].model
  }

  /** `d.get(model)` on the metrics dictionary. */
  function Entry(d: seq<ModelMetrics>, model: string): (r: Option<ModelMetrics>)
    ensures r.Some? ==> r.value.model == model && r.value in d
    ensures r.None? <==> forall j :: 0 <= j < |d| ==> d[j].model != model
  {
    if d == [] then None
    else if d[0].model == model then Some(d[0])
    else
      assert forall j :: 0 < j < |d| ==> d[j] == d[1..][j - 1];
      Entry(d[1..], model)
  }

  /** `d[m.model] = m`: replaces the entry in place, or appends it. */
  function Put(d: seq<ModelMetrics>, m: ModelMetrics): (r: seq<ModelMetrics>)
    requires DistinctModels(d)
    ensures DistinctModels(r)
    ensures forall k :: Entry(r, k) == if k == m.model then Some(m) else Entry(d, k)
  {
    if d == [] then [m]
    else if d[0].model == m.model then
      assert forall j :: 0 < j < |d| ==> d[j] == d[1..][j - 1];
      [m] + d[1..]
    else
      var rest := Put(d[1..], m);
      assert forall j :: 0 <= j < |rest| ==> rest[j].model == m.model || Entry(d[1..], rest[j].model).Some?;
      [d[0]] + rest
  }

  /** The last record for a model: a later record overwrites an earlier one. */
  function LastRecord(ms: seq<ModelMetrics>, model: string): Option<ModelMetrics>
  {
    if ms == [] then None
    else if ms[|ms| - 1].model == model then Some(ms[|ms| - 1])
    else LastRecord(ms[..|ms| - 1], model)
  }

  /** The metrics dictionary: one entry per model, holding its last record. */
  function MetricsDict(ms: seq<ModelMetrics>): (d: seq<ModelMetrics>)
    ensures DistinctModels(d)
    ensures forall k :: Entry(d, k) == LastRecord(ms, k)
  {
    if ms == [] then []
    else Put(MetricsDict(ms[..|ms| - 1]), ms[|ms| - 1])
  }

  /** `metrics_dict[model]["Score"]`. */
  function ScoreOf(d: seq<ModelMetrics>, model: string): (r: Option<real>)
    ensures r.Some? <==> Entry(d, model).Some?
    ensures r.Some? ==> r.value == Entry(d, model).value.score
  {
    match Entry(d, model)
    case None => None
    case Some(m) => Some(m.score)
  }

  /** `min(metrics_dict.items(), key=score)`: the running minimum is replaced
      only by a strictly smaller score, so the first minimum wins. */
  function FirstArgMin(d: seq<ModelMetrics>): (i: nat)
    requires d != []
    ensures i < |d|
    ensures forall j :: 0 <= j < |d| ==> d[i].score <= d[j].score
    ensures forall j :: 0 <= j < i ==> d[j].score > d[i].score
  {
    if |d| == 1 then 0
    else
      var n := |d| - 1;
      var i := FirstArgMin(d[..n]);
      assert forall j :: 0 <= j < n ==> d[..n][j] == d[j];
      if d[n].score < d[i].score then n else i
  }

  /** ci_floor, selected_model and pass_ci. */
  datatype Gate = Gate(ciFloor: real, selectedModel: string, passCi: bool)

  function Min(a: real, b: real): real
  {
    if a <= b then a else b
  }

  /** `metrics_dict["ensemble_naive"]` is looked up first, so its absence is
      the KeyError raised even when HoltWinters is missing too. */
  function CiGate(d: seq<ModelMetrics>): (r: Result<Gate, GateError>)
    ensures r.Ok? <==> Entry(d, EnsembleColumn).Some? && Entry(d, HoltWintersColumn).Some?
    ensures r.Err? ==> r.error == MissingScore(if Entry(d, EnsembleColumn).None? then EnsembleColumn else HoltWintersColumn)
    ensures r.Ok? ==> exists i :: 0 <= i < |d| && d[i].model == r.value.selectedModel
  {
    match ScoreOf(d, EnsembleColumn)
    case None => Err(MissingScore(EnsembleColumn))
    case Some(ensemble) =>
      match ScoreOf(d, HoltWintersColumn)
      case None => Err(MissingScore(HoltWintersColumn))
      case Some(holtWinters) =>
        var floor := Min(ensemble, holtWinters);
        var i := FirstArgMin(d);
        Ok(Gate(floor, d[i].model, d[i].score <= floor))
  }

  // ---------------------------------------------------------------------
  // The drift monitor and its CI gate

  /** The drift stage: nothing below the monitoring phase; otherwise the
      drift report, unless drift was detected at phase 2 or above. */
  function DriftStage(phase: int, residuals: ResidualTable, selected: string, ks: Drift.KsTest): (r: Result<Option<Drift.DriftReport>, GateError>)
    ensures r.Ok? ==> (r.value.Some? <==> IncludeDriftMonitor(phase))
    ensures r.Ok? && r.value.Some? ==> !r.value.value.driftDetected
    ensures r.Err? ==> IncludeDriftMonitor(phase) && (r.error == DriftDetected || r.error.DriftCheckFailed?)
  {
    if !IncludeDriftMonitor(phase) then Ok(None)
    else match Drift.DetectResidualDrift(residuals, selected, Drift.DefaultWindowSize, ks)
      case Err(e) => Err(DriftCheckFailed(e))
      case Ok(report) =>
        if phase >= 2 && report.driftDetected then Err(DriftDetected) else Ok(Some(report))
  }

  // ---------------------------------------------------------------------
  // The anchor bias of a cascaded run

  /** Reading the parent's forecasts table; the CSV parser is abstract. */
  type CsvReader = seq<Byte> -> Option<ForecastTable>

  /** `round(float(bias_series.mean()), 4)` before rounding: the mean of the
      values present, NaN (None) when there are none. */
  function AnchorBias(fs: FileSystem, parentDir: string, forecasts: ForecastTable, selected: string, readCsv: CsvReader): (r: Result<Option<real>, GateError>)
    ensures var path := Join(parentDir, ForecastsFile);
      r.Ok? <==> path in fs && readCsv(fs[path]).Some? && Aggregation.ComputeAnchorBias(forecasts, readCsv(fs[path]).value, selected).Ok?
    ensures r.Err? ==> r.error.AnchorForecastsUnreadable? || r.error.AnchorForecastsMalformed? || r.error.AnchorBiasFailed?
    // The mean is NaN exactly when every value of the bias series is NaN.
    ensures var path := Join(parentDir, ForecastsFile);
      r.Ok? ==> var series := Aggregation.ComputeAnchorBias(forecasts, readCsv(fs[path]).value, selected).value;
        (r.value.None? <==> forall i :: 0 <= i < |series| ==> series[i].None?)
  {
    var path := Join(parentDir, ForecastsFile);
    if path !in fs then Err(AnchorForecastsUnreadable(path))
    else match readCsv(fs[path])
      case None => Err(AnchorForecastsMalformed(path))
      case Some(anchor) =>
        match Aggregation.ComputeAnchorBias(forecasts, anchor, selected)
        case Err(e) => Err(AnchorBiasFailed(e))
        case Ok(series) =>
          assert (exists i :: 0 <= i < |series| && series[i].Some?) ==> Decomposition.Present(series) != [] by {
            if i :| 0 <= i < |series| && series[i].Some? {
              assert series[i].value in Decomposition.Present(series);
            }
          }
          assert Decomposition.Present(series) != [] ==> exists i :: 0 <= i < |series| && series[i].Some? by {
            if Decomposition.Present(series) != [] {
              assert Some(Decomposition.Present(series)[0]) in series;
            }
          }
          Ok(MeanOrNaN(Decomposition.Present(series)))
  }

  // ---------------------------------------------------------------------
  // Properties

  /** The ensemble forecast lies between its two inputs. */
  lemma EnsembleBetweenInputs(values: map<string, real>)
    requires NaiveColumn in values && SeasonalNaiveColumn in values
    ensures var e := EnsembleCell(values).value;
      Min(values[NaiveColumn], values[SeasonalNaiveColumn]) <= e
      && e <= values[NaiveColumn] + values[SeasonalNaiveColumn] - Min(values[NaiveColumn], values[SeasonalNaiveColumn])
  {
  }

  /** Computing the ensemble column a second time (as the script does after
      fitting) changes nothing. */
  lemma WithEnsembleIdempotent(t: ForecastTable)
    requires WithEnsemble(t).Ok?
    ensures WithEnsemble(WithEnsemble(t).value) == WithEnsemble(t)
  {
    var u := WithEnsemble(t).value;
    forall i | 0 <= i < |u.rows| ensures EnsembleRow(u.rows[i]) == u.rows[i] {
      var v := t.rows[i].values;
      var w := u.rows[i].values;
      assert u.rows[i] == EnsembleRow(t.rows[i]);
      assert EnsembleCell(w) == EnsembleCell(v);
      if EnsembleCell(v).Some? {
        assert w[EnsembleColumn := EnsembleCell(v).value] == w;
      } else {
        assert w - {EnsembleColumn} == w;
      }
    }
    assert WithEnsemble(u).value.rows == u.rows;
  }

  /** The comprehension is a filter: it works column by column, dropping a
      bookkeeping column and keeping any other, so the scored columns keep
      the table's order and multiplicity. */
  lemma {:induction false} ForecastColsIsFilter(a: seq<string>, b: seq<string>, c: string)
    ensures ForecastCols(a + b) == ForecastCols(a) + ForecastCols(b)
    ensures c in MetaColumns ==> ForecastCols([c]) == []
    ensures c !in MetaColumns ==> ForecastCols([c]) == [c]
  {
    if a == [] {
      assert a + b == b;
    } else {
      assert (a + b)[1..] == a[1..] + b;
      ForecastColsIsFilter(a[1..], b, c);
    }
  }

  /** With one record per model, as evaluation produces for distinct
      columns, the dictionary is the records in column order. */
  lemma {:induction false} MetricsDictOfDistinct(ms: seq<ModelMetrics>)
    requires DistinctModels(ms)
    ensures MetricsDict(ms) == ms
  {
    if ms != [] {
      var n := |ms| - 1;
      assert DistinctModels(ms[..n]);
      MetricsDictOfDistinct(ms[..n]);
      PutNew(ms[..n], ms[n]);
      assert ms[..n] + [ms[n]] == ms;
    }
  }

  lemma {:induction false} PutNew(d: seq<ModelMetrics>, m: ModelMetrics)
    requires DistinctModels(d)
    requires forall j :: 0 <= j < |d| ==> d[j].model != m.model
    ensures Put(d, m) == d + [m]
  {
    if d != [] {
      PutNew(d[1..], m);
      assert [d[0]] + (d[1..] + [m]) == d + [m];
    }
  }

  /** The dictionary names exactly the scored models. */
  lemma MetricsDictModels(ms: seq<ModelMetrics>, model: string)
    ensures Entry(MetricsDict(ms), model).Some? <==> exists i :: 0 <= i < |ms| && ms[i].model == model
  {
    LastRecordIff(ms, model);
  }

  lemma {:induction false} LastRecordIff(ms: seq<ModelMetrics>, model: string)
    ensures LastRecord(ms, model).Some? <==> exists i :: 0 <= i < |ms| && ms[i].model == model
  {
    if ms != [] {
      var n := |ms| - 1;
      LastRecordIff(ms[..n], model);
      assert forall i :: 0 <= i < n ==> ms[..n][i] == ms[i];
    }
  }

  /** The CI floor can be computed exactly when both reference models were scored. */
  lemma CiGateOkIff(d: seq<ModelMetrics>)
    ensures CiGate(d).Ok? <==>
      (exists j :: 0 <= j < |d| && d[j].model == EnsembleColumn) &&
      (exists j :: 0 <= j < |d| && d[j].model == HoltWintersColumn)
  {
  }

  /** The selected model has the lowest score of all, is the first with
      that score, and the floor is the lower of the two reference scores. */
  lemma SelectedIsFirstMinimum(d: seq<ModelMetrics>)
    requires CiGate(d).Ok?
    ensures var g := CiGate(d).value;
      exists i :: 0 <= i < |d| && d[i].model == g.selectedModel &&
        (forall j :: 0 <= j < |d| ==> d[i].score <= d[j].score) &&
        (forall j :: 0 <= j < i ==> d[j].score > d[i].score)
    ensures var g := CiGate(d).value;
      g.ciFloor == Min(ScoreOf(d, EnsembleColumn).value, ScoreOf(d, HoltWintersColumn).value)
  {
    var i := FirstArgMin(d);
    assert d[i].model == CiGate(d).value.selectedModel;
  }

  /** pass_ci is true whenever it is computed: the selected model's score is
      the global minimum, so it is at most either reference score. */
  lemma PassCiAlwaysTrue(d: seq<ModelMetrics>)
    requires CiGate(d).Ok?
    ensures CiGate(d).value.passCi
  {
    var e := Entry(d, EnsembleColumn).value;
    var h := Entry(d, HoltWintersColumn).value;
    var i := FirstArgMin(d);
    var je :| 0 <= je < |d| && d[je] == e;
    var jh :| 0 <= jh < |d| && d[jh] == h;
    assert d[i].score <= d[je].score && d[i].score <= d[jh].score;
  }

  /** The run aborts on drift exactly when drift is monitored (phase 2 and
      above), the check succeeds, and it reports drift. */
  lemma DriftAbortIff(phase: int, residuals: ResidualTable, selected: string, ks: Drift.KsTest)
    ensures DriftStage(phase, residuals, selected, ks) == Err(DriftDetected) <==>
      && phase >= 2
      && Drift.DetectResidualDrift(residuals, selected, Drift.DefaultWindowSize, ks).Ok?
      && Drift.DetectResidualDrift(residuals, selected, Drift.DefaultWindowSize, ks).value.driftDetected
  {
  }

  /** Below phase 2 the drift stage neither runs the check nor aborts. */
  lemma EarlyPhasesNeverAbortOnDrift(phase: int, residuals: ResidualTable, selected: string, ks: Drift.KsTest)
    requires phase < 2
    ensures DriftStage(phase, residuals, selected, ks) == Ok(None)
  {
  }

  /** Without a drift abort, a monitored run carries the detector's report,
      which reports no drift. */
  lemma MonitoredRunCarriesReport(phase: int, residuals: ResidualTable, selected: string, ks: Drift.KsTest)
    requires phase >= 2 && DriftStage(phase, residuals, selected, ks).Ok?
    ensures var r := DriftStage(phase, residuals, selected, ks).value;
      r == Some(Drift.DetectResidualDrift(residuals, selected, Drift.DefaultWindowSize, ks).value) && !r.value.driftDetected
  {
  }

  /** A cascaded run whose parent forecast exactly the same values (unique
      keys, no missing forecasts) has anchor bias zero; with no rows the
      mean is NaN. */
  lemma SelfAnchorBiasIsZero(fs: FileSystem, parentDir: string, t: ForecastTable, selected: string, readCsv: CsvReader)
    requires Join(parentDir, ForecastsFile) in fs && readCsv(fs[Join(parentDir, ForecastsFile)]) == Some(t)
    requires selected in t.columns
    requires forall j, k :: 0 <= j < k < |t.rows| ==> t.rows[j].key != t.rows[k].key
    requires forall i :: 0 <= i < |t.rows| ==> selected in t.rows[i].values
    ensures AnchorBias(fs, parentDir, t, selected, readCsv) == Ok(if t.rows == [] then None else Some(0.0))
  {
    Aggregation.SelfBiasIsZero(t, selected);
    var series := Aggregation.ComputeAnchorBias(t, t, selected).value;
    ZeroBiasMean(series);
  }

  /** The mean of a bias series that is zero everywhere. */
  lemma ZeroBiasMean(series: seq<Option<real>>)
    requires forall i :: 0 <= i < |series| ==> series[i] == Some(0.0)
    ensures MeanOrNaN(Decomposition.Present(series)) == if series == [] then None else Some(0.0)
  {
    var present := Decomposition.Present(series);
    assert |present| == |series| && forall i :: 0 <= i < |present| ==> present[i] == 0.0;
    if series != [] {
      MeanOfZeros(present);
    }
  }

}
