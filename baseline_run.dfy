/** The baseline run as a state machine over its output directory: the
    cascade checks, the directory, the scored forecasts, the gate, the
    phase-gated stages, the three tracked artifacts, and finally the ledger
    and its verification.  Model fitting, CSV and JSON byte formats, the
    clock, git and the plots are inputs or abstract functions. */
module BaselineRun {
  import opened Common
  import opened Json
  import opened Files
  import opened Frames
  import opened FileHash
  import opened Ledger
  import opened PhaseHandler
  import opened BaselineGate
  import Evaluation
  import Drift
  import Decomposition
  import Aggregation
  import Forecastability
  import ServeHash
  import CiUtils

  const ForecastabilityFile: string := "forecastability.json"
  const ErrorBreakdownFile: string := "error_breakdown.json"
  const DefaultRunId: string := "dvc-run"
  const CiBaselineRule: string := "min(ensemble_naive, holt_winters)"
  const MetricsTag: string := "v0.1-baseline"
  const ModelCount: int := 5

  /** The command line. */
  datatype Args = Args(
    data: string,
    horizon: int,
    outputDir: string,
    tag: Option<string>,
    phase: int,
    aggregationLevel: string,
    parentRun: Option<string>)

  /** What the run obtains from the libraries it drives: the input series,
      the fitted forecasts, the held-out actuals, the DM test result and the
      commit hash. */
  datatype Inputs = Inputs(
    series: seq<Forecastability.SeriesRow>,
    forecasts: ForecastTable,
    trueFuture: seq<ActualRow>,
    dmTest: Json,
    commitHash: string)

  /** The timestamps the run reads from the clock, in order. */
  datatype Clock = Clock(metricsTime: string, lastTrained: string, runInfoTime: string, auditTime: string)

  /** The forecasts file: run id, horizon, model count, key and the scored columns. */
  type CsvWriter = (string, int, seq<string>, ForecastTable) -> seq<Byte>

  /** The foreign primitives the run calls. */
  datatype Libraries = Libraries(
    encode: Encoder,
    decode: Decoder,
    sha: Sha256,
    readCsv: CsvReader,
    writeCsv: CsvWriter,
    ks: Drift.KsTest,
    variation: Forecastability.Statistic,
    spectralEntropy: Forecastability.Statistic)

  datatype RunError =
    | CascadeRejected(cascade: Aggregation.CascadeError)
    | InputUnreadable(io: IoError)
    | GateFailed(gate: GateError)
    | EvaluationFailed(evaluation: Evaluation.EvalError)
    | ForecastabilityFailed(forecastability: Forecastability.ForecastabilityError)
    | DecompositionFailed(decomposition: Decomposition.DecompositionError)
    | ServeHashFailed(serveHash: ServeHash.ServeHashError)
    | LedgerFailed(ledger: LedgerError)

  /** What a completed run decided and what its final check found. */
  datatype RunReport = RunReport(
    record: seq<Field>,
    prepared: Prepared,
    gate: Gate,
    drift: Option<Drift.DriftReport>,
    anchorBias: Option<Option<real>>,
    serveHash: Option<string>,
    mismatches: map<string, CiUtils.Mismatch>)

  // ---------------------------------------------------------------------
  // The output directory

  datatype Event = MadeDirs(path: string) | Wrote(path: string)

  /** The file system the run writes to, with the log of what it did. */
  class Workspace {
    var fs: FileSystem
    var events: seq<Event>

    constructor(fs: FileSystem)
      ensures this.fs == fs && events == []
    {
      this.fs := fs;
      events := [];
    }

    /** os.makedirs(path, exist_ok=True); directories are not modelled. */
    method MakeDirs(path: string)
      modifies this
      ensures fs == old(fs) && events == old(events) + [MadeDirs(path)]
    {
      events := events + [MadeDirs(path)];
    }

    /** `with open(path, "w") as f: f.write(content)`. */
    method Write(path: string, content: seq<Byte>)
      modifies this
      ensures fs == old(fs)[path := content] && events == old(events) + [Wrote(path)]
    {
      fs := fs[path := content];
      events := events + [Wrote(path)];
    }
  }

  // ---------------------------------------------------------------------
  // Arguments and documents

  /** `args.parent_run` is truthy. */
  predicate HasParent(args: Args)
  {
    args.parentRun.Some? && args.parentRun.value != ""
  }

  /** `args.tag or "dvc-run"`. */
  function RunId(args: Args): (id: string)
    ensures id != ""
    ensures args.tag.Some? && args.tag.value != "" ==> id == args.tag.value
    ensures args.tag.None? || args.tag.value == "" ==> id == DefaultRunId
  {
    if args.tag.Some? && args.tag.value != "" then args.tag.value else DefaultRunId
  }

  /** A float that may be NaN; NaN is written as null here. */
  function Number(v: Option<real>): Json
  {
    match v
    case Some(r) => JNum(r)
    case None => JNull
  }

  function ForecastabilityDoc(m: Forecastability.ForecastabilityMetrics): Json
  {
    JObj([Field("ADI", JNum(m.adi)), Field("CV2", JNum(m.cv2)), Field("SpectralEntropy", JNum(m.entropy)),
          Field("classification", JStr(Forecastability.LabelText(m.classification)))])
  }

  function ScoreDoc(m: Evaluation.ModelMetrics): Json
  {
    JObj([Field("MAE", JNum(m.mae)), Field("Bias", JNum(m.bias)), Field("Score", JNum(m.score))])
  }

  function MetricsDictDoc(d: seq<Evaluation.ModelMetrics>): (j: Json)
    ensures j.JObj? && |j.fields| == |d|
  {
    JObj(seq(|d|, i requires 0 <= i < |d| => Field(d[i].model, ScoreDoc(d[i]))))
  }

  /** The metadata object before the serve hash and commit hash are added. */
  function Metadata(inputHash: string, phase: int, aggregationLevel: string): seq<Field>
  {
    [Field("input_hash", JStr(inputHash)), Field("tag", JStr(MetricsTag)), Field("phase", JInt(phase)),
     Field("aggregation_level", JStr(aggregationLevel))]
  }

  /** baseline_metrics as built before the optional members. */
  function CoreMetrics(seriesId: string, horizon: int, timestamp: string, fm: Forecastability.ForecastabilityMetrics,
                       d: seq<Evaluation.ModelMetrics>, gate: Gate, metadata: seq<Field>): seq<Field>
  {
    [Field("series_id", JStr(seriesId)), Field("horizon", JInt(horizon)), Field("timestamp", JStr(timestamp)),
     Field("forecastability", ForecastabilityDoc(fm)), Field("metrics", MetricsDictDoc(d)),
     Field("ci_baseline_rule", JStr(CiBaselineRule)), Field("selected_model", JStr(gate.selectedModel)),
     Field("pass_ci", JBool(gate.passCi)), Field("metadata", JObj(metadata))]
  }

  function DriftDoc(lastTrained: string, report: Drift.DriftReport): Json
  {
    JObj([Field("last_trained", JStr(lastTrained)), Field("drift_detected", JBool(report.driftDetected)),
          Field("p_value", Number(report.pValue))])
  }

  /** The optional members, in the order the script adds them. */
  function WithOptionalMembers(core: seq<Field>, phase: int, dmTest: Json, lastTrained: string,
                               drift: Option<Drift.DriftReport>, anchorBias: Option<Option<real>>): seq<Field>
  {
    var a := if IncludeDmTest(phase) then Set(core, "dm_test", dmTest) else core;
    var b := if drift.Some? then Set(a, "drift_monitor", DriftDoc(lastTrained, drift.value)) else a;
    if anchorBias.Some? then Set(b, "anchor_bias", Number(anchorBias.value)) else b
  }

  function BreakdownDoc(b: Decomposition.ErrorBreakdown): Json
  {
    JObj([Field("Bias Error", Number(b.biasError)), Field("Variance Error", Number(b.varianceError)),
          Field("Noise", Number(b.noise)), Field("Seasonality Miss", Number(b.seasonalityMiss))])
  }

  /** The error_breakdown dictionary, keyed in column order. */
  function BreakdownFields(cols: seq<string>, breakdown: map<string, Decomposition.ErrorBreakdown>): seq<Field>
  {
    if cols == [] then []
    else
      var acc := BreakdownFields(cols[..|cols| - 1], breakdown);
      var c := cols[|cols| - 1];
      if c in breakdown then Set(acc, c, BreakdownDoc(breakdown[c])) else acc
  }

  /** `error_breakdown.setdefault(selected, {})["Anchor Bias"] = bias`. */
  function WithAnchorBias(fields: seq<Field>, selected: string, anchorBias: Option<Option<real>>): seq<Field>
  {
    if anchorBias.None? then fields
    else match GetOr(fields, selected, JObj([]))
      case JObj(inner) => Set(fields, selected, JObj(Set(inner, "Anchor Bias", Number(anchorBias.value))))
      case _ => fields
  }

  function RunInfo(args: Args, timestamp: string): Json
  {
    JObj([Field("run_id", JStr(RunId(args))), Field("horizon", JInt(args.horizon)), Field("n_models", JInt(ModelCount)),
          Field("input_file", JStr(args.data)), Field("timestamp", JStr(timestamp))])
  }

  /** The paths the run writes, in the output directory. */
  function OutPath(args: Args, name: string): string
  {
    Join(args.outputDir, name)
  }

  /** The error_breakdown values: one breakdown per forecast column. */
  function Breakdowns(t: ResidualTable, cols: seq<string>): map<string, Decomposition.ErrorBreakdown>
  {
    map m | m in cols :: Decomposition.Breakdown(Decomposition.Present(Column(t, m)))
  }

  /** The baseline_metrics record with its serve hash, if the phase asks for one. */
  datatype Record = Record(fields: seq<Field>, serveHash: Option<string>)

  /** baseline_metrics as written: the core members, the optional ones, then
      the serve hash over that draft and the commit hash, both in `metadata`. */
  function MetricsRecord(draft: seq<Field>, metadata: seq<Field>, phase: int, commitHash: string, encode: Encoder, sha: Sha256)
    : (r: Result<Record, RunError>)
    ensures r.Ok? <==> !IncludeServeHash(phase) || ServeHash.GenerateServeHash(draft, encode, sha).Ok?
    ensures r.Err? ==> r.error == ServeHashFailed(ServeHash.GenerateServeHash(draft, encode, sha).error)
    ensures r.Ok? ==> (r.value.serveHash.Some? <==> IncludeServeHash(phase))
  {
    if IncludeServeHash(phase) then
      match ServeHash.GenerateServeHash(draft, encode, sha)
      case Err(e) => Err(ServeHashFailed(e))
      case Ok(h) =>
        var final := Set(Set(metadata, "serve_hash", JStr(h)), "commit_hash", JStr(commitHash));
        Ok(Record(Set(draft, "metadata", JObj(final)), Some(h)))
    else
      Ok(Record(Set(draft, "metadata", JObj(Set(metadata, "commit_hash", JStr(commitHash)))), None))
  }

  /** The directory, then forecastability.json (lines 67 and 143-146). */
  function PreparedEvents(args: Args): seq<Event>
  {
    [MadeDirs(args.outputDir), Wrote(OutPath(args, ForecastabilityFile))]
  }

  /** error_breakdown.json, written only from phase 2 on (lines 215-226). */
  function BreakdownEvents(args: Args): seq<Event>
  {
    if args.phase >= 2 then [Wrote(OutPath(args, ErrorBreakdownFile))] else []
  }

  /** The three tracked artifacts, then the ledger (lines 240-301). */
  function PublishedEvents(args: Args): seq<Event>
  {
    [Wrote(OutPath(args, MetricsFile)), Wrote(OutPath(args, ForecastsFile)), Wrote(OutPath(args, RunInfoFile)),
     Wrote(OutPath(args, AuditLogFile))]
  }

  /** The metrics dictionary, the CI gate over it and the drift stage. */
  datatype Decision = Decision(metricsDict: seq<Evaluation.ModelMetrics>, gate: Gate, drift: Option<Drift.DriftReport>)

  /** Lines 155-212: the gate decides the selected model, then the drift
      monitor may abort the run. */
  function Decide(e: Evaluation.Evaluation, phase: int, ks: Drift.KsTest): (r: Result<Decision, GateError>)
    ensures r.Ok? <==> CiGate(MetricsDict(e.metrics)).Ok? &&
                       DriftStage(phase, e.residuals, CiGate(MetricsDict(e.metrics)).value.selectedModel, ks).Ok?
    ensures r.Ok? ==>
      && r.value.metricsDict == MetricsDict(e.metrics)
      && CiGate(r.value.metricsDict) == Ok(r.value.gate)
      && r.value.gate.passCi
      && DriftStage(phase, e.residuals, r.value.gate.selectedModel, ks) == Ok(r.value.drift)
    ensures r.Err? && CiGate(MetricsDict(e.metrics)).Err? ==> r.error == CiGate(MetricsDict(e.metrics)).error
    ensures r.Err? && CiGate(MetricsDict(e.metrics)).Ok? ==>
      r.error == DriftStage(phase, e.residuals, CiGate(MetricsDict(e.metrics)).value.selectedModel, ks).error
  {
    var d := MetricsDict(e.metrics);
    match CiGate(d)
    case Err(err) => Err(err)
    case Ok(gate) =>
      PassCiAlwaysTrue(d);
      match DriftStage(phase, e.residuals, gate.selectedModel, ks)
      case Err(err) => Err(err)
      case Ok(drift) => Ok(Decision(d, gate, drift))
  }

  /** baseline_metrics as the run writes it (lines 174-237). */
  function BaselineMetrics(args: Args, inputs: Inputs, clock: Clock, libs: Libraries, p: Prepared, d: Decision,
                           anchorBias: Option<Option<real>>): (r: Result<Record, RunError>)
    ensures r.Err? ==> r.error.ServeHashFailed?
    ensures r.Ok? ==> (r.value.serveHash.Some? <==> IncludeServeHash(args.phase))
  {
    var metadata := Metadata(p.inputHash, args.phase, args.aggregationLevel);
    var core := CoreMetrics(p.seriesId, args.horizon, clock.metricsTime, p.forecastability, d.metricsDict, d.gate, metadata);
    var draft := WithOptionalMembers(core, args.phase, inputs.dmTest, clock.lastTrained, d.drift, anchorBias);
    MetricsRecord(draft, metadata, args.phase, inputs.commitHash, libs.encode, libs.sha)
  }

  /** baseline_metrics as the run writes it records the run. */
  lemma BaselineMetricsRecordsRun(args: Args, inputs: Inputs, clock: Clock, libs: Libraries, p: Prepared, d: Decision,
                                  anchorBias: Option<Option<real>>)
    requires BaselineMetrics(args, inputs, clock, libs, p, d, anchorBias).Ok?
    ensures var rec := BaselineMetrics(args, inputs, clock, libs, p, d, anchorBias).value;
      RecordsRun(rec.fields, args, inputs, clock, p, d, anchorBias, rec.serveHash)
  {
    var metadata := Metadata(p.inputHash, args.phase, args.aggregationLevel);
    var core := CoreMetrics(p.seriesId, args.horizon, clock.metricsTime, p.forecastability, d.metricsDict, d.gate, metadata);
    var draft := WithOptionalMembers(core, args.phase, inputs.dmTest, clock.lastTrained, d.drift, anchorBias);
    DraftMembers(p.seriesId, args.horizon, clock.metricsTime, p.forecastability, d.metricsDict, d.gate, metadata,
                 args.phase, inputs.dmTest, clock.lastTrained, d.drift, anchorBias);
    MetadataMembers(p.inputHash, args.phase, args.aggregationLevel);
    PublishedRecordRecordsRun(args, inputs, clock, libs, p, d, anchorBias, draft, metadata);
  }

  /** The members of the stamped record, from those of the draft and of
      the metadata literal. */
  lemma PublishedRecordRecordsRun(args: Args, inputs: Inputs, clock: Clock, libs: Libraries, p: Prepared, d: Decision,
                                  anchorBias: Option<Option<real>>, draft: seq<Field>, metadata: seq<Field>)
    requires Get(draft, "series_id") == Some(JStr(p.seriesId))
    requires Get(draft, "metrics") == Some(MetricsDictDoc(d.metricsDict))
    requires Get(draft, "selected_model") == Some(JStr(d.gate.selectedModel))
    requires Get(draft, "pass_ci") == Some(JBool(d.gate.passCi))
    requires Get(draft, "dm_test") == (if IncludeDmTest(args.phase) then Some(inputs.dmTest) else None)
    requires Get(draft, "drift_monitor") == (if d.drift.Some? then Some(DriftDoc(clock.lastTrained, d.drift.value)) else None)
    requires Get(draft, "anchor_bias") == (if anchorBias.Some? then Some(Number(anchorBias.value)) else None)
    requires Get(draft, "metadata") == Some(JObj(metadata))
    requires Get(metadata, "input_hash") == Some(JStr(p.inputHash)) && Get(metadata, "phase") == Some(JInt(args.phase))
    requires Get(metadata, "serve_hash").None?
    requires MetricsRecord(draft, metadata, args.phase, inputs.commitHash, libs.encode, libs.sha).Ok?
    ensures var rec := MetricsRecord(draft, metadata, args.phase, inputs.commitHash, libs.encode, libs.sha).value;
      RecordsRun(rec.fields, args, inputs, clock, p, d, anchorBias, rec.serveHash)
  {
    StampedMembers(draft, metadata, args.phase, inputs.commitHash, libs.encode, libs.sha);
    var rec := MetricsRecord(draft, metadata, args.phase, inputs.commitHash, libs.encode, libs.sha).value;
    StampedRecordMembers(rec.fields, draft);
    StampedMetadataMembers(MetadataOf(rec.fields), metadata);
  }

  /** The members stamping leaves alone. */
  lemma StampedRecordMembers(rec: seq<Field>, draft: seq<Field>)
    requires forall k :: k != "metadata" ==> Get(rec, k) == Get(draft, k)
    ensures Get(rec, "series_id") == Get(draft, "series_id") && Get(rec, "metrics") == Get(draft, "metrics")
    ensures Get(rec, "selected_model") == Get(draft, "selected_model") && Get(rec, "pass_ci") == Get(draft, "pass_ci")
    ensures Get(rec, "dm_test") == Get(draft, "dm_test") && Get(rec, "drift_monitor") == Get(draft, "drift_monitor")
    ensures Get(rec, "anchor_bias") == Get(draft, "anchor_bias")
  {
  }

  /** The metadata members stamping leaves alone. */
  lemma StampedMetadataMembers(stamped: seq<Field>, metadata: seq<Field>)
    requires forall k :: k != "serve_hash" && k != "commit_hash" ==> Get(stamped, k) == Get(metadata, k)
    ensures Get(stamped, "input_hash") == Get(metadata, "input_hash") && Get(stamped, "phase") == Get(metadata, "phase")
  {
  }

  /** The `metadata` object of a record; empty when there is none. */
  function MetadataOf(rec: seq<Field>): seq<Field>
  {
    match Get(rec, "metadata")
    case Some(JObj(m)) => m
    case _ => []
  }

  /** What baseline_metrics.json records about a run: its series, its scores
      and its decisions, each phase-gated member present exactly when the
      script adds it, and the stamped metadata. */
  predicate RecordsRun(rec: seq<Field>, args: Args, inputs: Inputs, clock: Clock, p: Prepared, d: Decision,
                       anchorBias: Option<Option<real>>, serveHash: Option<string>)
  {
    && Get(rec, "series_id") == Some(JStr(p.seriesId))
    && Get(rec, "metrics") == Some(MetricsDictDoc(d.metricsDict))
    && Get(rec, "selected_model") == Some(JStr(d.gate.selectedModel))
    && Get(rec, "pass_ci") == Some(JBool(d.gate.passCi))
    && Get(rec, "dm_test") == (if IncludeDmTest(args.phase) then Some(inputs.dmTest) else None)
    && Get(rec, "drift_monitor") == (if d.drift.Some? then Some(DriftDoc(clock.lastTrained, d.drift.value)) else None)
    && Get(rec, "anchor_bias") == (if anchorBias.Some? then Some(Number(anchorBias.value)) else None)
    && Get(rec, "metadata") == Some(JObj(MetadataOf(rec)))
    && Get(MetadataOf(rec), "input_hash") == Some(JStr(p.inputHash))
    && Get(MetadataOf(rec), "phase") == Some(JInt(args.phase))
    && Get(MetadataOf(rec), "commit_hash") == Some(JStr(inputs.commitHash))
    && Get(MetadataOf(rec), "serve_hash") == (if serveHash.Some? then Some(JStr(serveHash.value)) else None)
  }

  /** What the first stage computed, from the file system it found. */
  predicate PreparedFrom(p: Prepared, fs: FileSystem, args: Args, inputs: Inputs, libs: Libraries)
  {
    && FileDigest(fs, args.data, libs.sha) == Ok(p.inputHash)
    && WithEnsemble(inputs.forecasts) == Ok(p.forecasts)
    && p.cols == ForecastCols(p.forecasts.columns)
    && Evaluation.Evaluate(p.forecasts, inputs.trueFuture, p.cols) == Ok(p.evaluation)
    && Forecastability.ComputeForecastabilityMetrics(inputs.series, libs.variation, libs.spectralEntropy) == Ok(p.forecastability)
    && |inputs.series| > 0 && p.seriesId == inputs.series[0].uniqueId
  }

  // ---------------------------------------------------------------------
  // The output directory, stage by stage

  /** The paths a run may write: its outputs and the ledger. */
  function RunPaths(args: Args): set<string>
  {
    {OutPath(args, ForecastabilityFile), OutPath(args, ErrorBreakdownFile), OutPath(args, MetricsFile),
     OutPath(args, ForecastsFile), OutPath(args, RunInfoFile), OutPath(args, AuditLogFile)}
  }

  /** Every path outside `paths` is as it was: in both file systems with
      the same content, or in neither. */
  ghost predicate KeepsOtherPaths(before: FileSystem, after: FileSystem, paths: set<string>)
  {
    forall path :: path !in paths ==> (path in after <==> path in before) && (path in before ==> after[path] == before[path])
  }

  /** The directory once forecastability.json is written. */
  function PreparedFs(fs: FileSystem, args: Args, libs: Libraries, p: Prepared): FileSystem
  {
    fs[OutPath(args, ForecastabilityFile) := libs.encode(ForecastabilityDoc(p.forecastability))]
  }

  /** The error_breakdown document: one breakdown per scored column, and the
      anchor bias under the selected model. */
  function ErrorBreakdownDoc(p: Prepared, selected: string, anchorBias: Option<Option<real>>): Json
  {
    JObj(WithAnchorBias(BreakdownFields(p.cols, Breakdowns(p.evaluation.residuals, p.cols)), selected, anchorBias))
  }

  /** The directory after the phase-2 stage: error_breakdown.json from
      phase 2 on, unchanged before. */
  function BreakdownFs(fs: FileSystem, args: Args, libs: Libraries, p: Prepared, selected: string, anchorBias: Option<Option<real>>): FileSystem
  {
    if args.phase >= 2 then fs[OutPath(args, ErrorBreakdownFile) := libs.encode(ErrorBreakdownDoc(p, selected, anchorBias))] else fs
  }

  /** The directory once the three tracked artifacts are written. */
  function ArtifactsFs(fs: FileSystem, args: Args, clock: Clock, libs: Libraries, record: seq<Field>, forecasts: ForecastTable, cols: seq<string>)
    : (r: FileSystem)
    ensures LedgerEntries(r, args.outputDir, TrackedFiles, libs.sha).Ok?
  {
    var r := fs[OutPath(args, MetricsFile) := libs.encode(JObj(record))]
               [OutPath(args, ForecastsFile) := libs.writeCsv(RunId(args), args.horizon, cols, forecasts)]
               [OutPath(args, RunInfoFile) := libs.encode(RunInfo(args, clock.runInfoTime))];
    TrackedFilesPresent(r, args.outputDir, libs.sha);
    r
  }

  /** The directory once the ledger over its tracked artifacts is written. */
  function LedgerFs(fs: FileSystem, args: Args, clock: Clock, libs: Libraries): FileSystem
    requires LedgerEntries(fs, args.outputDir, TrackedFiles, libs.sha).Ok?
  {
    fs[OutPath(args, AuditLogFile) := libs.encode(FinalLedger(fs, args, clock, libs.sha))]
  }

  /** The directory a completed run leaves behind, from the one its first
      stage left. */
  function CompletedFs(fs: FileSystem, args: Args, clock: Clock, libs: Libraries, rep: RunReport): FileSystem
  {
    var p := rep.prepared;
    var artifacts := ArtifactsFs(BreakdownFs(fs, args, libs, p, rep.gate.selectedModel, rep.anchorBias),
                                 args, clock, libs, rep.record, p.forecasts, p.cols);
    LedgerFs(artifacts, args, clock, libs)
  }

  /** The writes of a completed run, in order. */
  function CompletedRunEvents(args: Args): seq<Event>
  {
    PreparedEvents(args) + BreakdownEvents(args) + PublishedEvents(args)
  }

  /** The ledger the run writes over the final state of its directory. */
  function FinalLedger(fs: FileSystem, args: Args, clock: Clock, sha: Sha256): Json
    requires LedgerEntries(fs, args.outputDir, TrackedFiles, sha).Ok?
  {
    AuditLog(RunId(args), clock.auditTime, LedgerEntries(fs, args.outputDir, TrackedFiles, sha).value)
  }

  /** What a completed run reports and leaves behind, from the directory
      its gate started from (`before`) to the one it ends with (`after`). */
  ghost predicate CompletedRun(before: FileSystem, after: FileSystem, args: Args, inputs: Inputs, clock: Clock, libs: Libraries,
                               rep: RunReport)
  {
    RunDecided(before, args, inputs, clock, libs, rep) && RunPublished(before, after, args, clock, libs, rep)
  }

  /** What the run decided, and what baseline_metrics records of it. */
  ghost predicate RunDecided(before: FileSystem, args: Args, inputs: Inputs, clock: Clock, libs: Libraries, rep: RunReport)
  {
    var p := rep.prepared;
    // The CI gate passed and chose the model; the drift monitor let the run through.
    && CiGate(MetricsDict(p.evaluation.metrics)) == Ok(rep.gate) && rep.gate.passCi
    && DriftStage(args.phase, p.evaluation.residuals, rep.gate.selectedModel, libs.ks) == Ok(rep.drift)
    // The anchor bias against the parent run's forecasts, from phase 2 on.
    && (rep.anchorBias.Some? <==> args.phase >= 2 && HasParent(args))
    && (rep.anchorBias.Some? ==>
          AnchorBias(before, args.parentRun.value, p.forecasts, rep.gate.selectedModel, libs.readCsv) == Ok(rep.anchorBias.value))
    // baseline_metrics records those decisions, with a serve hash that can
    // be recomputed from the record as written.
    && RecordsRun(rep.record, args, inputs, clock, p, Decision(MetricsDict(p.evaluation.metrics), rep.gate, rep.drift),
                  rep.anchorBias, rep.serveHash)
    && (rep.serveHash.Some? <==> IncludeServeHash(args.phase))
    && (rep.serveHash.Some? ==> ServeHash.GenerateServeHash(rep.record, libs.encode, libs.sha) == Ok(rep.serveHash.value))
  }

  /** What the run leaves in its directory. */
  ghost predicate RunPublished(before: FileSystem, after: FileSystem, args: Args, clock: Clock, libs: Libraries, rep: RunReport)
  {
    // The new directory: every write of the stages, and nothing else.
    && after == CompletedFs(before, args, clock, libs, rep)
    && OutPath(args, MetricsFile) in after && after[OutPath(args, MetricsFile)] == libs.encode(JObj(rep.record))
    // The ledger records the digests of the artifacts as they finally are,
    // and, where the JSON codec round-trips it, verifies clean.
    && LedgerEntries(after, args.outputDir, TrackedFiles, libs.sha).Ok?
    && OutPath(args, AuditLogFile) in after
    && after[OutPath(args, AuditLogFile)] == libs.encode(FinalLedger(after, args, clock, libs.sha))
    && (libs.decode(libs.encode(FinalLedger(after, args, clock, libs.sha))) == Some(FinalLedger(after, args, clock, libs.sha)) ==>
          rep.mismatches == map[])
  }

  // ---------------------------------------------------------------------
  // The run, stage by stage

  /** What the first stage has computed: the input digest, the forecasts
      with their ensemble column, the scored columns, the evaluation and
      the forecastability metrics. */
  datatype Prepared = Prepared(
    inputHash: HexDigest,
    forecasts: ForecastTable,
    cols: seq<string>,
    evaluation: Evaluation.Evaluation,
    forecastability: Forecastability.ForecastabilityMetrics,
    seriesId: string)

  /** From the output directory to forecastability.json. */
  method PrepareRun(ws: Workspace, args: Args, inputs: Inputs, libs: Libraries) returns (r: Result<Prepared, RunError>)
    modifies ws
    ensures ws.events == old(ws.events) + (if r.Ok? then PreparedEvents(args) else [MadeDirs(args.outputDir)])
    ensures r.Err? ==> ws.fs == old(ws.fs)
    ensures r.Err? ==> r.error.InputUnreadable? || r.error.EvaluationFailed? || r.error.ForecastabilityFailed? ||
                       (r.error.GateFailed? && r.error.gate.MissingForecastColumn?)
    ensures r.Ok? ==> ws.fs == PreparedFs(old(ws.fs), args, libs, r.value) && PreparedFrom(r.value, old(ws.fs), args, inputs, libs)
  {
    ws.MakeDirs(args.outputDir);
    var inputHash := ComputeFileHash(ws.fs, args.data, libs.sha);
    if inputHash.Err? {
      return Err(InputUnreadable(inputHash.error));
    }
    var scored := WithEnsemble(inputs.forecasts);
    if scored.Err? {
      return Err(GateFailed(scored.error));
    }
    var forecasts := scored.value;
    var cols := ForecastCols(forecasts.columns);
    var evaluation := Evaluation.EvaluateForecasts(forecasts, inputs.trueFuture, cols);
    if evaluation.Err? {
      return Err(EvaluationFailed(evaluation.error));
    }
    var fm := Forecastability.ComputeForecastabilityMetrics(inputs.series, libs.variation, libs.spectralEntropy);
    if fm.Err? {
      return Err(ForecastabilityFailed(fm.error));
    }
    ghost var made := ws.events;
    ws.Write(OutPath(args, ForecastabilityFile), libs.encode(ForecastabilityDoc(fm.value)));
    AppendOne(made[..|made| - 1], made[|made| - 1], Wrote(OutPath(args, ForecastabilityFile)));
    Forecastability.OneSeriesIff(inputs.series);
    r := Ok(Prepared(inputHash.value, forecasts, cols, evaluation.value, fm.value, inputs.series[0].uniqueId));
  }

  /** The phase-2 stage: the error decomposition, the anchor bias against
      the parent run's forecasts, and error_breakdown.json.  Earlier phases
      skip it. */
  method WriteBreakdown(ws: Workspace, args: Args, p: Prepared, selected: string, libs: Libraries)
    returns (r: Result<Option<Option<real>>, RunError>)
    modifies ws
    ensures r.Err? ==> r.error.DecompositionFailed? || (r.error.GateFailed? && !r.error.gate.DriftDetected?)
    ensures r.Ok? ==> (r.value.Some? <==> args.phase >= 2 && HasParent(args))
    ensures r.Ok? && r.value.Some? ==> AnchorBias(old(ws.fs), args.parentRun.value, p.forecasts, selected, libs.readCsv) == Ok(r.value.value)
    ensures r.Ok? && args.phase >= 2 ==> ws.events == old(ws.events) + BreakdownEvents(args)
    ensures r.Ok? ==> ws.fs == BreakdownFs(old(ws.fs), args, libs, p, selected, r.value)
    ensures r.Err? || args.phase < 2 ==> ws.events == old(ws.events) && ws.fs == old(ws.fs)
  {
    if args.phase < 2 {
      return Ok(None);
    }
    var breakdown := Decomposition.DecomposeErrors(p.evaluation.residuals, p.cols);
    if breakdown.Err? {
      return Err(DecompositionFailed(breakdown.error));
    }
    assert breakdown.value == Breakdowns(p.evaluation.residuals, p.cols);
    var anchorBias: Option<Option<real>> := None;
    if HasParent(args) {
      var bias := AnchorBias(ws.fs, args.parentRun.value, p.forecasts, selected, libs.readCsv);
      if bias.Err? {
        return Err(GateFailed(bias.error));
      }
      anchorBias := Some(bias.value);
    }
    var doc := WithAnchorBias(BreakdownFields(p.cols, breakdown.value), selected, anchorBias);
    ws.Write(OutPath(args, ErrorBreakdownFile), libs.encode(JObj(doc)));
    r := Ok(anchorBias);
  }

  /** The last stage: baseline_metrics.json, the forecasts file and
      run_info.json, then the ledger over them. */
  method Publish(ws: Workspace, args: Args, clock: Clock, libs: Libraries, record: seq<Field>, forecasts: ForecastTable, cols: seq<string>)
    returns (r: Result<map<string, CiUtils.Mismatch>, RunError>)
    modifies ws
    ensures ws.events == old(ws.events) + PublishedEvents(args)
    ensures LedgerEntries(ws.fs, args.outputDir, TrackedFiles, libs.sha).Ok?
    ensures ws.fs == LedgerFs(ArtifactsFs(old(ws.fs), args, clock, libs, record, forecasts, cols), args, clock, libs)
    ensures OutPath(args, AuditLogFile) in ws.fs && ws.fs[OutPath(args, AuditLogFile)] == libs.encode(FinalLedger(ws.fs, args, clock, libs.sha))
    ensures r.Err? ==> r.error.LedgerFailed?
    ensures OutPath(args, MetricsFile) in ws.fs && ws.fs[OutPath(args, MetricsFile)] == libs.encode(JObj(record))
    ensures var ledger := FinalLedger(ws.fs, args, clock, libs.sha);
      libs.decode(libs.encode(ledger)) == Some(ledger) ==> r == Ok(map[])
  {
    ghost var start := ws.events;
    WriteArtifacts(ws, args, clock, libs, record, forecasts, cols);
    ghost var written := ws.fs;
    r := SealLedger(ws, args, clock, libs);
    PublishedPathsDistinct(args.outputDir);
    LedgerWriteKeepsEntries(written, args, libs.encode(FinalLedger(written, args, clock, libs.sha)), libs.sha);
    AppendFour(start, Wrote(OutPath(args, MetricsFile)), Wrote(OutPath(args, ForecastsFile)),
               Wrote(OutPath(args, RunInfoFile)), Wrote(OutPath(args, AuditLogFile)));
  }

  /** Lines 240-278: baseline_metrics.json, the forecasts file and run_info.json. */
  method WriteArtifacts(ws: Workspace, args: Args, clock: Clock, libs: Libraries, record: seq<Field>, forecasts: ForecastTable, cols: seq<string>)
    modifies ws
    ensures ws.events == old(ws.events) + [Wrote(OutPath(args, MetricsFile))] + [Wrote(OutPath(args, ForecastsFile))] + [Wrote(OutPath(args, RunInfoFile))]
    ensures ws.fs == ArtifactsFs(old(ws.fs), args, clock, libs, record, forecasts, cols)
    ensures LedgerEntries(ws.fs, args.outputDir, TrackedFiles, libs.sha).Ok?
    ensures ws.fs[OutPath(args, MetricsFile)] == libs.encode(JObj(record))
  {
    PublishedPathsDistinct(args.outputDir);
    ws.Write(OutPath(args, MetricsFile), libs.encode(JObj(record)));
    ws.Write(OutPath(args, ForecastsFile), libs.writeCsv(RunId(args), args.horizon, cols, forecasts));
    ws.Write(OutPath(args, RunInfoFile), libs.encode(RunInfo(args, clock.runInfoTime)));
    TrackedFilesPresent(ws.fs, args.outputDir, libs.sha);
  }

  /** Lines 290-320: the ledger over the three artifacts as they are on
      disk, then validate_file_hashes over the directory. */
  method SealLedger(ws: Workspace, args: Args, clock: Clock, libs: Libraries)
    returns (r: Result<map<string, CiUtils.Mismatch>, RunError>)
    requires LedgerEntries(ws.fs, args.outputDir, TrackedFiles, libs.sha).Ok?
    modifies ws
    ensures ws.events == old(ws.events) + [Wrote(OutPath(args, AuditLogFile))]
    ensures ws.fs == LedgerFs(old(ws.fs), args, clock, libs)
    ensures r.Err? ==> r.error.LedgerFailed?
    ensures var ledger := FinalLedger(old(ws.fs), args, clock, libs.sha);
      libs.decode(libs.encode(ledger)) == Some(ledger) ==> r == Ok(map[])
  {
    var out := args.outputDir;
    var entries := LedgerEntries(ws.fs, out, TrackedFiles, libs.sha).value;
    var ledger := AuditLog(RunId(args), clock.auditTime, entries);
    ghost var before := ws.fs;
    ws.Write(OutPath(args, AuditLogFile), libs.encode(ledger));
    var check := CiUtils.ValidateFileHashes(ws.fs, OutPath(args, AuditLogFile), out, libs.decode, libs.sha);
    if libs.decode(libs.encode(ledger)) == Some(ledger) {
      CiUtils.LedgerRoundTrip(before, out, libs.sha, libs.encode, libs.decode, RunId(args), clock.auditTime);
    }
    if check.Err? {
      return Err(LedgerFailed(check.error));
    }
    r := Ok(check.value);
  }

  /** Lines 155-320: the gate and the drift monitor, the phase-2 stage,
      then the tracked artifacts and the ledger. */
  method Complete(ws: Workspace, args: Args, inputs: Inputs, clock: Clock, libs: Libraries, p: Prepared)
    returns (r: Result<RunReport, RunError>)
    modifies ws
    ensures old(ws.events) <= ws.events <= old(ws.events) + BreakdownEvents(args) + PublishedEvents(args)
    ensures r == Err(GateFailed(DriftDetected)) ==> ws.events == old(ws.events)
    ensures r.Ok? ==> ws.events == old(ws.events) + BreakdownEvents(args) + PublishedEvents(args)
    ensures r.Ok? ==> r.value.prepared == p && CompletedRun(old(ws.fs), ws.fs, args, inputs, clock, libs, r.value)
    ensures KeepsOtherPaths(old(ws.fs), ws.fs, RunPaths(args))
  {
    TailPrefixes(ws.events, args);
    var decision := Decide(p.evaluation, args.phase, libs.ks);
    if decision.Err? {
      return Err(GateFailed(decision.error));
    }

    var d := decision.value;

    var anchorBias := WriteBreakdown(ws, args, p, d.gate.selectedModel, libs);
    if anchorBias.Err? {
      assert ws.events == old(ws.events);
      return Err(anchorBias.error);
    }
    assert ws.events == old(ws.events) + BreakdownEvents(args);

    var record := BaselineMetrics(args, inputs, clock, libs, p, d, anchorBias.value);
    if record.Err? {
      return Err(record.error);
    }
    if IncludeServeHash(args.phase) {
      PublishedServeHashReproduces(args, inputs, clock, libs, p, d, anchorBias.value);
    }

    ghost var staged := ws.fs;
    var mismatches := Publish(ws, args, clock, libs, record.value.fields, p.forecasts, p.cols);
    KeepsOtherPathsTransitive(old(ws.fs), staged, ws.fs, RunPaths(args));
    assert ws.events == old(ws.events) + BreakdownEvents(args) + PublishedEvents(args);
    if mismatches.Err? {
      return Err(mismatches.error);
    }
    r := Ok(RunReport(record.value.fields, p, d.gate, d.drift, anchorBias.value, record.value.serveHash, mismatches.value));
    StagesCompleteRun(old(ws.fs), ws.fs, args, inputs, clock, libs, p, d, r.value);
  }

  /** The stages of Complete, each as its method promises, make a completed run. */
  lemma StagesCompleteRun(before: FileSystem, after: FileSystem, args: Args, inputs: Inputs, clock: Clock, libs: Libraries,
                          p: Prepared, d: Decision, rep: RunReport)
    requires Decide(p.evaluation, args.phase, libs.ks) == Ok(d)
    requires rep.prepared == p && rep.gate == d.gate && rep.drift == d.drift
    requires rep.anchorBias.Some? <==> args.phase >= 2 && HasParent(args)
    requires rep.anchorBias.Some? ==>
      AnchorBias(before, args.parentRun.value, p.forecasts, d.gate.selectedModel, libs.readCsv) == Ok(rep.anchorBias.value)
    requires BaselineMetrics(args, inputs, clock, libs, p, d, rep.anchorBias) == Ok(Record(rep.record, rep.serveHash))
    requires rep.serveHash.Some? ==> ServeHash.GenerateServeHash(rep.record, libs.encode, libs.sha) == Ok(rep.serveHash.value)
    requires after == CompletedFs(before, args, clock, libs, rep)
    requires OutPath(args, MetricsFile) in after && after[OutPath(args, MetricsFile)] == libs.encode(JObj(rep.record))
    requires OutPath(args, AuditLogFile) in after
    requires LedgerEntries(after, args.outputDir, TrackedFiles, libs.sha).Ok?
    requires after[OutPath(args, AuditLogFile)] == libs.encode(FinalLedger(after, args, clock, libs.sha))
    requires var ledger := FinalLedger(after, args, clock, libs.sha);
      libs.decode(libs.encode(ledger)) == Some(ledger) ==> rep.mismatches == map[]
    ensures CompletedRun(before, after, args, inputs, clock, libs, rep)
  {
    BaselineMetricsRecordsRun(args, inputs, clock, libs, p, d, rep.anchorBias);
  }

  /** The whole run (baseline_sf.py from the cascade checks to the final
      hash validation, whose mismatches are only logged). */
  method RunBaseline(ws: Workspace, args: Args, inputs: Inputs, clock: Clock, libs: Libraries)
    returns (r: Result<RunReport, RunError>)
    modifies ws
    // The cascade checks come before anything is created.
    ensures HasParent(args) && Aggregation.EnforceCascadeChecks(old(ws.fs), args.parentRun.value, libs.decode).Fail? ==>
      r == Err(CascadeRejected(Aggregation.EnforceCascadeChecks(old(ws.fs), args.parentRun.value, libs.decode).error)) &&
      ws.fs == old(ws.fs) && ws.events == old(ws.events)
    // A failed run stops part way through the writes of a completed one.
    ensures old(ws.events) <= ws.events <= old(ws.events) + CompletedRunEvents(args)
    // A drift abort happens before any tracked artifact or the ledger is written.
    ensures r == Err(GateFailed(DriftDetected)) ==> ws.events == old(ws.events) + PreparedEvents(args)
    // A completed run writes its artifacts in the fixed order, ending with the ledger.
    ensures r.Ok? ==> ws.events == old(ws.events) + CompletedRunEvents(args)
    // What the first stage computed, and what the rest of the run decided
    // and wrote from it.
    ensures r.Ok? ==> PreparedFrom(r.value.prepared, old(ws.fs), args, inputs, libs)
    ensures r.Ok? ==> CompletedRun(PreparedFs(old(ws.fs), args, libs, r.value.prepared), ws.fs, args, inputs, clock, libs, r.value)
    // The anchor bias reads the parent's forecasts as the run found them.
    ensures r.Ok? && r.value.anchorBias.Some? ==>
      AnchorBias(old(ws.fs), args.parentRun.value, r.value.prepared.forecasts, r.value.gate.selectedModel, libs.readCsv) == Ok(r.value.anchorBias.value)
    ensures KeepsOtherPaths(old(ws.fs), ws.fs, RunPaths(args))
    // A completed run is a parent a later run can cascade from, where the
    // JSON codec round-trips its metrics.
    ensures r.Ok? && libs.decode(libs.encode(JObj(r.value.record))) == Some(JObj(r.value.record)) ==>
      Aggregation.EnforceCascadeChecks(ws.fs, args.outputDir, libs.decode).Pass?
  {
    if HasParent(args) {
      var cascade := Aggregation.EnforceCascadeChecks(ws.fs, args.parentRun.value, libs.decode);
      if cascade.Fail? {
        return Err(CascadeRejected(cascade.error));
      }
    }
    RunPrefixes(ws.events, args);
    var prepared := PrepareRun(ws, args, inputs, libs);
    if prepared.Err? {
      return Err(prepared.error);
    }
    var p := prepared.value;

    ghost var started := ws.fs;
    r := Complete(ws, args, inputs, clock, libs, p);
    KeepsOtherPathsTransitive(old(ws.fs), started, ws.fs, RunPaths(args));
    if r.Ok? {
      if r.value.anchorBias.Some? {
        ParentForecastsNotOverwritten(args.parentRun.value, args.outputDir);
      }
      if libs.decode(libs.encode(JObj(r.value.record))) == Some(JObj(r.value.record)) {
        CompletedRunAllowsCascade(started, ws.fs, args, inputs, clock, libs, r.value);
      }
    }
  }

  // ---------------------------------------------------------------------
  // The serve hash in the published record

  /** Adding the serve hash and the commit hash to `metadata` leaves the
      serve hash unchanged: the hash reads only `phase` from `metadata`, so
      the stored value can be recomputed from the record as written. */
  lemma StoredServeHashReproduces(draft: seq<Field>, metadata: seq<Field>, phase: int, commitHash: string, encode: Encoder, sha: Sha256)
    requires Get(draft, "metadata") == Some(JObj(metadata))
    requires MetricsRecord(draft, metadata, phase, commitHash, encode, sha).Ok? && IncludeServeHash(phase)
    ensures var rec := MetricsRecord(draft, metadata, phase, commitHash, encode, sha).value;
      && rec.serveHash.Some?
      && ServeHash.GenerateServeHash(rec.fields, encode, sha) == Ok(rec.serveHash.value)
      && Get(rec.fields, "metadata").Some? && Get(rec.fields, "metadata").value.JObj?
      && Get(Get(rec.fields, "metadata").value.fields, "serve_hash") == Some(JStr(rec.serveHash.value))
  {
    var h := ServeHash.GenerateServeHash(draft, encode, sha).value;
    var final := Set(Set(metadata, "serve_hash", JStr(h)), "commit_hash", JStr(commitHash));
    assert MetricsRecord(draft, metadata, phase, commitHash, encode, sha).value == Record(Set(draft, "metadata", JObj(final)), Some(h));
    StampedMetadata(metadata, h, commitHash);
    ProjectedMembersKept(draft, JObj(final));
    MetadataUpdateKeepsHash(draft, metadata, final, encode, sha);
  }

  /** Replacing `metadata` by an object with the same `phase` keeps the hash. */
  lemma MetadataUpdateKeepsHash(draft: seq<Field>, metadata: seq<Field>, final: seq<Field>, encode: Encoder, sha: Sha256)
    requires Get(draft, "metadata") == Some(JObj(metadata)) && Get(final, "phase") == Get(metadata, "phase")
    ensures ServeHash.GenerateServeHash(Set(draft, "metadata", JObj(final)), encode, sha) == ServeHash.GenerateServeHash(draft, encode, sha)
  {
    var fields := Set(draft, "metadata", JObj(final));
    ProjectedMembersKept(draft, JObj(final));
    ServeHash.OtherMetadataIgnored(draft, fields, metadata, final, encode, sha);
  }

  /** `metadata` with the serve hash and the commit hash added keeps its phase. */
  lemma StampedMetadata(metadata: seq<Field>, h: string, commitHash: string)
    ensures var final := Set(Set(metadata, "serve_hash", JStr(h)), "commit_hash", JStr(commitHash));
      Get(final, "phase") == Get(metadata, "phase") && Get(final, "serve_hash") == Some(JStr(h))
  {
  }

  /** Replacing `metadata` leaves the other projected members alone. */
  lemma ProjectedMembersKept(draft: seq<Field>, v: Json)
    ensures var fields := Set(draft, "metadata", v);
      && Get(fields, "series_id") == Get(draft, "series_id")
      && Get(fields, "selected_model") == Get(draft, "selected_model")
      && Get(fields, "metrics") == Get(draft, "metrics")
      && Get(fields, "timestamp") == Get(draft, "timestamp")
      && Get(fields, "metadata") == Some(v)
  {
  }

  /** The serve hash stored in baseline_metrics is the serve hash of
      baseline_metrics as written. */
  lemma PublishedServeHashReproduces(args: Args, inputs: Inputs, clock: Clock, libs: Libraries, p: Prepared, d: Decision,
                                     anchorBias: Option<Option<real>>)
    requires BaselineMetrics(args, inputs, clock, libs, p, d, anchorBias).Ok? && IncludeServeHash(args.phase)
    ensures var rec := BaselineMetrics(args, inputs, clock, libs, p, d, anchorBias).value;
      rec.serveHash.Some? && ServeHash.GenerateServeHash(rec.fields, libs.encode, libs.sha) == Ok(rec.serveHash.value)
  {
    var metadata := Metadata(p.inputHash, args.phase, args.aggregationLevel);
    DraftMembers(p.seriesId, args.horizon, clock.metricsTime, p.forecastability, d.metricsDict, d.gate, metadata,
                 args.phase, inputs.dmTest, clock.lastTrained, d.drift, anchorBias);
    var core := CoreMetrics(p.seriesId, args.horizon, clock.metricsTime, p.forecastability, d.metricsDict, d.gate, metadata);
    var draft := WithOptionalMembers(core, args.phase, inputs.dmTest, clock.lastTrained, d.drift, anchorBias);
    StoredServeHashReproduces(draft, metadata, args.phase, inputs.commitHash, libs.encode, libs.sha);
  }

  // ---------------------------------------------------------------------
  // The members of the published record

  /** The members the dictionary literal of lines 174-188 sets. */
  lemma CoreMetricsMembers(seriesId: string, horizon: int, timestamp: string, fm: Forecastability.ForecastabilityMetrics,
                           d: seq<Evaluation.ModelMetrics>, gate: Gate, metadata: seq<Field>)
    ensures var core := CoreMetrics(seriesId, horizon, timestamp, fm, d, gate, metadata);
      && Get(core, "series_id") == Some(JStr(seriesId))
      && Get(core, "metrics") == Some(MetricsDictDoc(d))
      && Get(core, "selected_model") == Some(JStr(gate.selectedModel))
      && Get(core, "pass_ci") == Some(JBool(gate.passCi))
      && Get(core, "metadata") == Some(JObj(metadata))
  {
    var core := CoreMetrics(seriesId, horizon, timestamp, fm, d, gate, metadata);
    GetUnique(core, 0);
    GetUnique(core, 4);
    GetUnique(core, 6);
    GetUnique(core, 7);
    GetUnique(core, 8);
  }

  /** The literal sets none of the phase-gated members. */
  lemma CoreMetricsLacksOptional(seriesId: string, horizon: int, timestamp: string, fm: Forecastability.ForecastabilityMetrics,
                                 d: seq<Evaluation.ModelMetrics>, gate: Gate, metadata: seq<Field>)
    ensures var core := CoreMetrics(seriesId, horizon, timestamp, fm, d, gate, metadata);
      Get(core, "dm_test").None? && Get(core, "drift_monitor").None? && Get(core, "anchor_bias").None?
  {
    var core := CoreMetrics(seriesId, horizon, timestamp, fm, d, gate, metadata);
    GetFacts(core, "dm_test");
    GetFacts(core, "drift_monitor");
    GetFacts(core, "anchor_bias");
  }

  /** The draft record the serve hash is computed over: the literal's
      members, and each optional member present exactly when its phase gate
      or its input asks for it (lines 189-224). */
  lemma DraftMembers(seriesId: string, horizon: int, timestamp: string, fm: Forecastability.ForecastabilityMetrics,
                     d: seq<Evaluation.ModelMetrics>, gate: Gate, metadata: seq<Field>,
                     phase: int, dmTest: Json, lastTrained: string, drift: Option<Drift.DriftReport>, anchorBias: Option<Option<real>>)
    ensures var draft := WithOptionalMembers(CoreMetrics(seriesId, horizon, timestamp, fm, d, gate, metadata),
                                             phase, dmTest, lastTrained, drift, anchorBias);
      && Get(draft, "series_id") == Some(JStr(seriesId))
      && Get(draft, "metrics") == Some(MetricsDictDoc(d))
      && Get(draft, "selected_model") == Some(JStr(gate.selectedModel))
      && Get(draft, "pass_ci") == Some(JBool(gate.passCi))
      && Get(draft, "metadata") == Some(JObj(metadata))
      && Get(draft, "dm_test") == (if IncludeDmTest(phase) then Some(dmTest) else None)
      && Get(draft, "drift_monitor") == (if drift.Some? then Some(DriftDoc(lastTrained, drift.value)) else None)
      && Get(draft, "anchor_bias") == (if anchorBias.Some? then Some(Number(anchorBias.value)) else None)
  {
    var core := CoreMetrics(seriesId, horizon, timestamp, fm, d, gate, metadata);
    CoreMetricsMembers(seriesId, horizon, timestamp, fm, d, gate, metadata);
    CoreMetricsLacksOptional(seriesId, horizon, timestamp, fm, d, gate, metadata);
    OptionalMembersAdded(core, phase, dmTest, lastTrained, drift, anchorBias, "series_id");
    OptionalMembersAdded(core, phase, dmTest, lastTrained, drift, anchorBias, "metrics");
    OptionalMembersAdded(core, phase, dmTest, lastTrained, drift, anchorBias, "selected_model");
    OptionalMembersAdded(core, phase, dmTest, lastTrained, drift, anchorBias, "pass_ci");
    OptionalMembersAdded(core, phase, dmTest, lastTrained, drift, anchorBias, "metadata");
    OptionalMembersAdded(core, phase, dmTest, lastTrained, drift, anchorBias, "dm_test");
    OptionalMembersAdded(core, phase, dmTest, lastTrained, drift, anchorBias, "drift_monitor");
    OptionalMembersAdded(core, phase, dmTest, lastTrained, drift, anchorBias, "anchor_bias");
  }

  /** Each optional member is set exactly when its gate asks for it, and the
      other members are left alone. */
  lemma OptionalMembersAdded(core: seq<Field>, phase: int, dmTest: Json, lastTrained: string,
                             drift: Option<Drift.DriftReport>, anchorBias: Option<Option<real>>, k: string)
    ensures Get(WithOptionalMembers(core, phase, dmTest, lastTrained, drift, anchorBias), k) ==
      if anchorBias.Some? && k == "anchor_bias" then Some(Number(anchorBias.value))
      else if drift.Some? && k == "drift_monitor" then Some(DriftDoc(lastTrained, drift.value))
      else if IncludeDmTest(phase) && k == "dm_test" then Some(dmTest)
      else Get(core, k)
  {
    var a := if IncludeDmTest(phase) then Set(core, "dm_test", dmTest) else core;
    var b := if drift.Some? then Set(a, "drift_monitor", DriftDoc(lastTrained, drift.value)) else a;
    assert Get(a, k) == if IncludeDmTest(phase) && k == "dm_test" then Some(dmTest) else Get(core, k);
    assert Get(b, k) == if drift.Some? && k == "drift_monitor" then Some(DriftDoc(lastTrained, drift.value)) else Get(a, k);
  }

  /** The metadata literal holds the input hash and the phase, and no serve hash yet. */
  lemma MetadataMembers(inputHash: string, phase: int, aggregationLevel: string)
    ensures var m := Metadata(inputHash, phase, aggregationLevel);
      Get(m, "input_hash") == Some(JStr(inputHash)) && Get(m, "phase") == Some(JInt(phase)) && Get(m, "serve_hash").None?
  {
    var m := Metadata(inputHash, phase, aggregationLevel);
    GetUnique(m, 0);
    GetUnique(m, 2);
    GetFacts(m, "serve_hash");
  }

  /** Stamping changes only `metadata`, where it adds the commit hash and,
      from phase 2 on, the serve hash. */
  lemma StampedMembers(draft: seq<Field>, metadata: seq<Field>, phase: int, commitHash: string, encode: Encoder, sha: Sha256)
    requires Get(draft, "metadata") == Some(JObj(metadata))
    requires MetricsRecord(draft, metadata, phase, commitHash, encode, sha).Ok?
    ensures var rec := MetricsRecord(draft, metadata, phase, commitHash, encode, sha).value;
      && (forall k :: k != "metadata" ==> Get(rec.fields, k) == Get(draft, k))
      && Get(rec.fields, "metadata") == Some(JObj(MetadataOf(rec.fields)))
      && (forall k :: k != "serve_hash" && k != "commit_hash" ==> Get(MetadataOf(rec.fields), k) == Get(metadata, k))
      && Get(MetadataOf(rec.fields), "commit_hash") == Some(JStr(commitHash))
      && Get(MetadataOf(rec.fields), "serve_hash") ==
           (if rec.serveHash.Some? then Some(JStr(rec.serveHash.value)) else Get(metadata, "serve_hash"))
  {
  }

  /** A run whose metrics pass CI and report no drift is a parent a later
      run may cascade from. */
  lemma RecordAllowsCascade(rec: seq<Field>, args: Args, inputs: Inputs, clock: Clock, p: Prepared, d: Decision,
                            anchorBias: Option<Option<real>>, serveHash: Option<string>)
    requires RecordsRun(rec, args, inputs, clock, p, d, anchorBias, serveHash)
    requires d.gate.passCi && (d.drift.Some? ==> !d.drift.value.driftDetected)
    ensures Aggregation.ParentMetricsAllowCascade(JObj(rec))
  {
    if d.drift.Some? {
      var doc := DriftDoc(clock.lastTrained, d.drift.value);
      GetUnique(doc.fields, 1);
    }
  }

  /** The directory a completed run leaves is one a later run can cascade
      from: its metrics pass CI, report no drift, and its forecasts are
      there, wherever the JSON codec round-trips the metrics. */
  lemma CompletedRunAllowsCascade(before: FileSystem, after: FileSystem, args: Args, inputs: Inputs, clock: Clock, libs: Libraries,
                                  rep: RunReport)
    requires CompletedRun(before, after, args, inputs, clock, libs, rep)
    requires libs.decode(libs.encode(JObj(rep.record))) == Some(JObj(rep.record))
    ensures Aggregation.EnforceCascadeChecks(after, args.outputDir, libs.decode).Pass?
  {
    var p := rep.prepared;
    var d := Decision(MetricsDict(p.evaluation.metrics), rep.gate, rep.drift);
    RecordAllowsCascade(rep.record, args, inputs, clock, p, d, rep.anchorBias, rep.serveHash);
    Aggregation.CascadePassesIff(after, args.outputDir, libs.decode);
  }

  /** What baseline_metrics.json says about a completed run: the selected
      model, a passing CI gate, a drift report exactly from phase 2 on and
      never one showing drift, and an anchor bias exactly when the run
      cascades from a parent at phase 2 or above. */
  lemma CompletedRunRecord(before: FileSystem, args: Args, inputs: Inputs, clock: Clock, libs: Libraries, rep: RunReport)
    requires RunDecided(before, args, inputs, clock, libs, rep)
    ensures Get(rep.record, "selected_model") == Some(JStr(rep.gate.selectedModel))
    ensures Get(rep.record, "pass_ci") == Some(JBool(true))
    ensures Get(rep.record, "dm_test").Some? <==> IncludeDmTest(args.phase)
    ensures Get(rep.record, "drift_monitor").Some? <==> IncludeDriftMonitor(args.phase)
    ensures Get(rep.record, "drift_monitor").Some? ==>
      Get(rep.record, "drift_monitor").value.JObj? &&
      Get(Get(rep.record, "drift_monitor").value.fields, "drift_detected") == Some(JBool(false))
    ensures Get(rep.record, "anchor_bias").Some? <==> args.phase >= 2 && HasParent(args)
  {
    DriftMonitorShowsNoDrift(rep.record, clock.lastTrained, rep.drift);
  }

  /** A `drift_monitor` member built from a report without drift says so. */
  lemma DriftMonitorShowsNoDrift(rec: seq<Field>, lastTrained: string, drift: Option<Drift.DriftReport>)
    requires Get(rec, "drift_monitor") == (if drift.Some? then Some(DriftDoc(lastTrained, drift.value)) else None)
    requires drift.Some? ==> !drift.value.driftDetected
    ensures Get(rec, "drift_monitor").Some? ==>
      Get(rec, "drift_monitor").value.JObj? &&
      Get(Get(rec, "drift_monitor").value.fields, "drift_detected") == Some(JBool(false))
  {
    if drift.Some? {
      GetUnique(DriftDoc(lastTrained, drift.value).fields, 1);
    }
  }

  /** The error_breakdown document files the anchor bias under the selected
      model, in a new entry when the model has none (`setdefault`), and
      leaves every other entry as it was; without an anchor bias it is
      unchanged. */
  lemma BreakdownCarriesAnchorBias(cols: seq<string>, breakdown: map<string, Decomposition.ErrorBreakdown>, selected: string,
                                   anchorBias: Option<Option<real>>)
    ensures var fields := BreakdownFields(cols, breakdown);
      var out := WithAnchorBias(fields, selected, anchorBias);
      && (anchorBias.None? ==> out == fields)
      && (anchorBias.Some? ==>
        && (forall k :: k != selected ==> Get(out, k) == Get(fields, k))
        && GetOr(fields, selected, JObj([])).JObj?
        && Get(out, selected).Some? && Get(out, selected).value.JObj?
        && Get(Get(out, selected).value.fields, "Anchor Bias") == Some(Number(anchorBias.value))
        && forall k :: k != "Anchor Bias" ==>
             Get(Get(out, selected).value.fields, k) == Get(GetOr(fields, selected, JObj([])).fields, k))
  {
    BreakdownEntriesAreObjects(cols, breakdown, selected);
  }

  lemma {:induction false} BreakdownEntriesAreObjects(cols: seq<string>, breakdown: map<string, Decomposition.ErrorBreakdown>, k: string)
    ensures Get(BreakdownFields(cols, breakdown), k).Some? ==> Get(BreakdownFields(cols, breakdown), k).value.JObj?
  {
    if cols != [] {
      BreakdownEntriesAreObjects(cols[..|cols| - 1], breakdown, k);
    }
  }

  /** The parent's forecasts file is never the path of forecastability.json
      (one name ends in `.csv`, the other in `.json`), so the first stage
      cannot change what the anchor bias reads. */
  lemma ParentForecastsNotOverwritten(parentDir: string, outputDir: string)
    ensures Join(parentDir, ForecastsFile) != Join(outputDir, ForecastabilityFile)
  {
    var a := Join(parentDir, ForecastsFile);
    var b := Join(outputDir, ForecastabilityFile);
    assert Relative(ForecastsFile) && Relative(ForecastabilityFile);
    assert a[|a| - 1] == a[|a| - |ForecastsFile|..][|ForecastsFile| - 1] == 'v';
    assert b[|b| - 1] == b[|b| - |ForecastabilityFile|..][|ForecastabilityFile| - 1] == 'n';
  }

  /** Leaving the other paths alone composes. */
  lemma KeepsOtherPathsTransitive(a: FileSystem, b: FileSystem, c: FileSystem, paths: set<string>)
    requires KeepsOtherPaths(a, b, paths) && KeepsOtherPaths(b, c, paths)
    ensures KeepsOtherPaths(a, c, paths)
  {
  }

  // ---------------------------------------------------------------------
  // Frame facts about the output directory


  /** Appending an event to a sequence that ends with another. */
  lemma AppendOne(s: seq<Event>, a: Event, b: Event)
    ensures s + [a] + [b] == s + [a, b]
  {
  }

  /** Appending four events one at a time appends the four. */
  lemma AppendFour(s: seq<Event>, a: Event, b: Event, c: Event, d: Event)
    ensures s + [a] + [b] + [c] + [d] == s + [a, b, c, d]
  {
    assert [a] + [b] + [c] + [d] == [a, b, c, d];
  }

  /** Where the stages after the gate can stop. */
  lemma TailPrefixes(s: seq<Event>, args: Args)
    ensures s <= s + BreakdownEvents(args) <= s + BreakdownEvents(args) + PublishedEvents(args)
  {
  }

  /** Where the run can stop: after nothing, after the directory, after each stage. */
  lemma RunPrefixes(s: seq<Event>, args: Args)
    ensures var all := s + CompletedRunEvents(args);
      && s <= all
      && s <= s + [MadeDirs(args.outputDir)] <= all
      && s <= s + PreparedEvents(args) <= all
      && s <= s + PreparedEvents(args) + BreakdownEvents(args) <= all
      && s + PreparedEvents(args) + BreakdownEvents(args) + PublishedEvents(args) == all
  {
    var p, b, u := PreparedEvents(args), BreakdownEvents(args), PublishedEvents(args);
    assert s + p + b + u == s + (p + b + u);
  }

  /** The four files of the last stage are four distinct paths. */
  lemma PublishedPathsDistinct(dir: string)
    ensures Join(dir, MetricsFile) != Join(dir, ForecastsFile) && Join(dir, MetricsFile) != Join(dir, RunInfoFile)
    ensures Join(dir, ForecastsFile) != Join(dir, RunInfoFile)
    ensures Join(dir, AuditLogFile) != Join(dir, MetricsFile) && Join(dir, AuditLogFile) != Join(dir, ForecastsFile)
    ensures Join(dir, AuditLogFile) != Join(dir, RunInfoFile)
  {
    JoinInjective(dir, MetricsFile, ForecastsFile);
    JoinInjective(dir, MetricsFile, RunInfoFile);
    JoinInjective(dir, ForecastsFile, RunInfoFile);
    AuditLogPathIsNotTracked(dir);
  }

  /** Once the three artifacts are written, the ledger can be built. */
  lemma TrackedFilesPresent(fs: FileSystem, dir: string, sha: Sha256)
    requires Join(dir, MetricsFile) in fs && Join(dir, ForecastsFile) in fs && Join(dir, RunInfoFile) in fs
    ensures LedgerEntries(fs, dir, TrackedFiles, sha).Ok?
  {
  }

  /** Writing the ledger leaves the digests it records as they were. */
  lemma LedgerWriteKeepsEntries(fs: FileSystem, args: Args, content: seq<Byte>, sha: Sha256)
    ensures LedgerEntries(fs[OutPath(args, AuditLogFile) := content], args.outputDir, TrackedFiles, sha)
         == LedgerEntries(fs, args.outputDir, TrackedFiles, sha)
  {
    AuditLogPathIsNotTracked(args.outputDir);
    EntriesIgnoreOtherPath(fs, args.outputDir, TrackedFiles, sha, OutPath(args, AuditLogFile), content);
  }
}
