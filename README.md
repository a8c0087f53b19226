# forecast-kernel: the validation and gating engine, in Dafny

forecast-kernel wraps a statistical forecasting step in a validation and
gating engine. This project models that engine and proves properties of it.

- **Evaluation.** Each model's forecasts are left-joined to the held-out
  actuals and scored: MAE, signed bias, and `score = MAE + |bias|`. The
  residuals are consolidated into one wide table with one row per key.
- **Monitoring.**
  - A drift detector compares the recent window of residuals with the past.
  - An error decomposer reports bias, variance, noise and the lag-7
    seasonality miss.
  - A forecastability classifier labels the input series.
- **Cascade.** A cascaded run first checks that its parent run passed its
  own CI gate and has no unresolved drift. It then measures its bias
  against the parent's anchor forecasts.
- **Baseline run.** The run selects a model and gates on a CI floor. It
  aborts on drift from phase 2 on, stamps a short serve hash into its
  metrics, and writes its artifacts in a fixed order. Last, it writes an
  audit ledger of SHA-256 digests of the tracked artifacts.
- **Verifiers.** Three verifiers re-read a ledger and re-hash the files.
  They differ in how they treat missing files and whether an override is
  allowed.

## How the model is built

- **One module per source file.**
  - Shared modules:
    - `Common`: Result/Option, the `(unique_id, ds)` key and its order, sums and means.
    - `Frames`: the tables.
    - `Files`: the file system as a map from path to bytes, and `os.path.join`.
    - `Json`: JSON values with Python dict semantics, and `sort_keys`.
    - `Ledger`: the audit-ledger document and what it means for an entry to match a file.
  - Pure source code becomes functions and lemmas.
  - Code that works by updating state becomes methods with loop invariants:
    - the chunked read loop;
    - the three verifiers' loops;
    - the evaluation and decomposition loops;
    - the run's stages.
  - Each such method is proved against a specification function. The
    properties are then proved about that function.
- **File-hash helpers.** The open file and the `hashlib` object of the
  streaming digest are classes: `FileHash.FileReader` and `FileHash.Hasher`.
- **The run directory.** The baseline run's output directory is a class,
  `BaselineRun.Workspace`. It holds a file-system map and a log of the
  directories and files written, in order.
- **Foreign computations are parameters.** None of these is interpreted:
  - SHA-256 (FIPS 180-4), as a function from bytes to 64 lower-case hex digits;
  - JSON encoding and decoding (RFC 8259);
  - CSV reading and writing;
  - the two-sample Kolmogorov-Smirnov p-value, constrained to [0, 1];
  - the coefficient of variation and the spectral entropy;
  - the clock's timestamps;
  - the git commit hash;
  - the Diebold-Mariano test result;
  - the fitted forecasts.
- **Errors and missing values.**
  - A missing value (NaN) is an absent cell or `None`.
  - The exceptions the modelled code raises are `Err` values naming their
    cause. The one failure the model does not reproduce, at `json.dump`,
    is listed under "Left out".
- **Three behaviours of the code worth knowing.**
  - A forecast key with no actual makes the left join produce a NaN, which
    the MAE call rejects, so `evaluate_forecasts` raises
    (src/core/evaluation.py:36-42). The model returns `Err(MissingValue)`.
  - The anchor bias is a left merge that raises when any anchor value is
    missing (src/forecastkernel/core/aggregation.py:35-37).
  - `validate_file_hashes` (src/utils/ci_utils.py:32) marks a missing file
    `"Missing file"`; `run_ci_check.py` marks it `"MISSING"`.

## Model

| member | source | states |
|---|---|---|
| FileHash.FileReader.constructor | src/utils/hash_utils.py:23 | Opening a file gives a reader over its whole content, positioned at its start. |
| FileHash.FileReader.Read | src/utils/hash_utils.py:24 | `f.read(n)` returns the next at most n bytes of the content and advances the position by their number. It returns an empty chunk exactly at end of file. |
| FileHash.Hasher.constructor | src/utils/hash_utils.py:22 | A fresh hasher has absorbed nothing. |
| FileHash.Hasher.Update | src/utils/hash_utils.py:25 | `update` appends the chunk to the bytes absorbed so far. |
| FileHash.AbsorbRest | src/utils/hash_utils.py:24-25 | Loop invariant: the chunks fed to the hasher are the file from the start position up to the current position. At exit, the reader is at end of file and the hasher holds the whole rest of the file. |
| FileHash.ComputeFileHash | src/utils/hash_utils.py:6-26 | The digest is SHA-256 of the entire content, whatever the chunk size; an empty file gives the hash of the empty input. A path that does not exist raises FileNotFound. |
| FileHash.FileDigest | src/utils/hash_utils.py:6-26 | The digest is defined exactly when the path exists. |
| FileHash.SameContentSameDigest | src/utils/hash_utils.py:22-26 | Files with identical content have identical digests, at any path and in any file system. |
| Files.Join | src/forecastkernel/scripts/baseline_sf.py:144 | `os.path.join` ends with the relative name it joins; an absolute name replaces the directory. |
| Files.JoinInjective | src/forecastkernel/scripts/baseline_sf.py:290-301 | Distinct artifact names in one directory give distinct paths, so the run's files never overwrite each other. |
| Files.LoadJson | src/utils/ci_utils.py:23-24 | Loading succeeds exactly when the file exists and its bytes decode, and it then yields the decoded document. |
| Json.Set | src/forecastkernel/scripts/baseline_sf.py:231 | `d[name] = v` makes `name` answer `v` and leaves every other lookup unchanged. It replaces an existing member in place or appends a new one. |
| Json.GetUnique | src/forecastkernel/scripts/baseline_sf.py:174-188 | A member whose name no other member carries is what a lookup of that name finds, as for each key of a dictionary literal. |
| Json.GetFacts | src/forecastkernel/core/hash_utils.py:20-26 | A lookup finds a member that is present, and finds nothing exactly when no member carries the name. |
| Json.SortFieldsFacts | src/forecastkernel/core/hash_utils.py:27 | Sorting keys gives a list sorted by name that answers every lookup exactly as the original does. |
| Json.SortedListsWithSameLookupsAreEqual | src/forecastkernel/core/hash_utils.py:27 | Two key-sorted member lists that answer every lookup alike are identical, so the sorted encoding is canonical. |
| Json.SortKeysIgnoresInsertionOrder | src/forecastkernel/core/hash_utils.py:27 | `SortKeys`, the order `sort_keys=True` writes members in, makes two objects with the same members, at every nesting level, encode alike, whatever order their keys were inserted in. |
| Ledger.RecordedFiles | src/forecastkernel/scripts/run_ci_check.py:28-32 | `audit_log["files"]` succeeds exactly when the ledger loads as an object whose `files` member is an object, and yields that object's entries. |
| Ledger.ExitStatus | src/forecastkernel/scripts/run_ci_check.py:68-71 | The exit status is 0 exactly when validation returned True. An exception or a False verdict both give 1. |
| Ledger.LedgerEntries | src/forecastkernel/scripts/baseline_sf.py:293-297 | The ledger's `files` entries can be built exactly when every tracked file exists. There is then one entry per name, in order, each holding the digest of that file. |
| Ledger.AuditLog | src/forecastkernel/scripts/baseline_sf.py:290-298 | The ledger document is an object whose `files` member holds exactly the given entries. |
| Ledger.FreshEntriesMatch | src/forecastkernel/scripts/baseline_sf.py:290-320 | Every entry of a freshly built ledger matches the file system it was built from. |
| Ledger.AuditLogPathIsNotTracked | src/forecastkernel/scripts/baseline_sf.py:294-300 | `audit_log.json` is at a different path from each of the three tracked artifacts. |
| Ledger.EntriesIgnoreOtherPath | src/forecastkernel/scripts/baseline_sf.py:293-301 | A write to any untracked path leaves the ledger entries as they were. |
| CiUtils.StoredHashes | src/utils/ci_utils.py:23-26 | `audit_data.get("files", {})` never fails for want of a `files` member. Only an unreadable ledger or a non-object is an error. |
| CiUtils.ValidateFileHashes | src/utils/ci_utils.py:7-42 | The loop builds exactly the mismatch dictionary that the specification function gives for the recorded entries. An unreadable ledger propagates its error. |
| CiUtils.MismatchKeys | src/utils/ci_utils.py:29-40 | The keys of the result are exactly the recorded names of entries that disagree with the file system. So they are a subset of the recorded names, and a matching file never appears. |
| CiUtils.MismatchesEmptyIff | src/utils/ci_utils.py:42 | The result is empty exactly when every recorded file exists and carries its recorded digest. |
| CiUtils.MismatchValue | src/utils/ci_utils.py:31-40 | A missing file maps to "Missing file" and is not hashed. A changed file maps to its recorded value and its current digest. |
| CiUtils.NoFilesMember | src/utils/ci_utils.py:26 | A ledger without a `files` member records nothing and verifies clean. |
| CiUtils.LedgerRoundTrip | src/forecastkernel/scripts/baseline_sf.py:290-320 | The ledger a run writes over its three artifacts, read back from disk, yields its own entries and verifies to an empty dictionary. |
| CiUtils.OneChangedFile | src/utils/ci_utils.py:29-40 | Rewriting one tracked file so that its digest changes yields exactly one mismatch: that file, with its recorded and new digests. |
| RunCiCheck.Failure | src/forecastkernel/scripts/run_ci_check.py:33-40 | One recorded entry adds a tuple exactly when it disagrees with the file system. The tuple holds the name, the recorded value and either the current digest or "MISSING". |
| RunCiCheck.ValidateAuditHashes | src/forecastkernel/scripts/run_ci_check.py:9-52 | The loop and the `force` branch return exactly the verdict the specification function gives. A ledger without `files` raises. |
| RunCiCheck.FailuresEmptyIff | src/forecastkernel/scripts/run_ci_check.py:42-52 | The mismatch list is empty exactly when every recorded file exists with a matching digest. |
| RunCiCheck.PassedIff | src/forecastkernel/scripts/run_ci_check.py:42-52 | It returns True exactly when `force` is set or every recorded file exists and matches. Without `force`, any missing or changed file returns False. |
| RunCiCheck.ExitStatusIff | src/forecastkernel/scripts/run_ci_check.py:54-71 | `main` exits 0 exactly when the ledger is readable and either `force` is set or every file matches. |
| RunCiCheck.MissingFileIsMarked | src/forecastkernel/scripts/run_ci_check.py:34-37 | A recorded file that is not there appears as `(name, recorded, "MISSING")`. |
| RunCiCheck.FailuresProvenance | src/forecastkernel/scripts/run_ci_check.py:32-40 | Every tuple comes from a recorded entry that disagrees with the file system, and its third element says which way it disagrees. |
| RunCiCheck.NoFilesMemberIsAnError | src/forecastkernel/scripts/run_ci_check.py:32 | A ledger without `files` is a KeyError, so the exit status is 1. It is not treated as an empty ledger. |
| ValidateHashes.ValidateAuditHashes | scripts/validate_hashes.py:8-40 | The loop returns exactly the verdict the specification function gives, including the error raised by hashing a missing file. |
| ValidateHashes.TuplesKeepError | scripts/validate_hashes.py:26-31 | Once hashing has raised, later entries are never reached. |
| ValidateHashes.TuplesOkIff | scripts/validate_hashes.py:26-31 | The walk completes exactly when every recorded file exists. |
| ValidateHashes.FirstMissingFileRaises | scripts/validate_hashes.py:28-29 | With no existence check, the first missing file raises FileNotFound for its path. It is never reported as a mismatch. |
| ValidateHashes.AgreesWithRunCiCheck | scripts/validate_hashes.py:26-31 | Where every file exists, this variant lists exactly the tuples `run_ci_check` lists, one per differing file, in ledger order. |
| ValidateHashes.PassesIff | scripts/validate_hashes.py:33-40 | It returns True exactly when the ledger is readable and every recorded file exists with its recorded digest. There is no override. |
| ValidateHashes.ExitStatusIff | scripts/validate_hashes.py:42-58 | The exit status is 0 exactly when every recorded file exists and matches. |
| PhaseHandler.GatesAgree | src/core/phase_handler.py:4-47 | The three feature gates agree at every phase. |
| PhaseHandler.EarlyPhasesDisableAll | src/core/phase_handler.py:17-47 | Phases 0 and 1 disable all three features; phase 2 enables all three. |
| PhaseHandler.GatesMonotone | src/core/phase_handler.py:17-47 | A feature enabled at one phase stays enabled at every later phase. |
| Evaluation.LeftJoinShape | src/core/evaluation.py:36-38 | `LeftJoin`, the left merge, keeps at least one row per forecast row. It has no missing value exactly when every forecast row has a prediction and at least one actual. |
| Evaluation.LeftJoinProvenance | src/core/evaluation.py:36-38 | Every joined row comes from a forecast row at the same key with that row's prediction. A present actual comes from an actual row at that key. |
| Evaluation.EvaluateModel | src/core/evaluation.py:36-55 | score = MAE + \|bias\|, and 0 <= MAE <= score <= 2·MAE, because \|bias\| <= MAE. The residuals are tagged with the model. |
| Evaluation.EvaluateModelSucceedsIff | src/core/evaluation.py:36-42 | Scoring a model succeeds exactly when its column exists, there is a row, and every forecast row has a prediction and a matching actual. |
| Evaluation.UnmatchedForecastIsAnError | src/core/evaluation.py:36-42 | A forecast key with no actual makes the MAE call reject the NaN. It is an error, never silently skipped. |
| Evaluation.ResidualIsActualMinusPredicted | src/core/evaluation.py:53-54 | Each residual equals an actual minus the model's prediction at the same (unique_id, ds). |
| Evaluation.PerfectForecastScoresZero | src/core/evaluation.py:42-54 | Forecasts equal to the actuals give MAE = bias = score = 0 and all-zero residuals. |
| Evaluation.GroupFirstFacts | src/core/evaluation.py:57 | `GroupFirst`, the `groupby(...).first()` consolidation: the table is strictly sorted by key, so it has one row per key. It covers exactly the keys of the residuals. Each model's cell is the first residual recorded for that key. |
| Evaluation.CollectFacts | src/core/evaluation.py:35-51 | The loop completes exactly when every column scores. It then holds one metrics record per column, in column order. |
| Evaluation.EvaluateColumnsFacts | src/core/evaluation.py:35-51 | Exactly one metrics record per entry of `forecast_cols`, in that order, each that column's own score. |
| Evaluation.EvaluateFacts | src/core/evaluation.py:7-58 | `Evaluate`, the specification of `evaluate_forecasts`: it succeeds exactly when there is a column and every column scores. Its metrics follow the columns. Its residual table is sorted, has unique keys, and keeps each model's first residual per key. |
| Evaluation.EvaluateForecasts | src/core/evaluation.py:32-58 | The loop that appends metrics and residual frames computes exactly the evaluation function. So evaluating identical inputs twice gives identical scores. |
| Evaluation.CollectPrefixError | src/core/evaluation.py:35-42 | The first column that fails decides the error of the whole call. |
| Drift.SortByDs | src/core/drift.py:28 | The sort by `ds` yields a sorted permutation of the series. |
| Drift.SplitIndex | src/core/drift.py:29-30 | `iloc[-w:]` and `iloc[:-w]` split at one index. For a positive window the recent part has `min(w, n)` points; for a zero window everything is recent. |
| Drift.DetectResidualDrift | src/core/drift.py:6-35 | A reported p-value lies in [0, 1], and drift is reported only with a p-value below 0.05. The only errors are a missing column and an empty sample. |
| Drift.WindowsPartition | src/core/drift.py:28-30 | Past followed by recent is exactly the sorted series. Recent is its last `min(w, n)` points. |
| Drift.ShortHistoryIff | src/core/drift.py:29-31 | For a positive window, the past is shorter than the window exactly when there are fewer than 2·window points. |
| Drift.ShortHistoryNeverDrifts | src/core/drift.py:31-32 | Short history returns exactly `{drift_detected: false, p_value: 1.0}`, whatever the residuals. |
| Drift.EnoughHistoryThresholds | src/core/drift.py:34-35 | With enough complete history, the p-value is the KS p-value of past against recent, and drift is detected exactly when it is below 0.05. |
| Drift.MissingResidualGivesNaN | src/core/drift.py:34-35 | A missing residual in either window gives a NaN p-value and no drift. |
| Drift.NonPositiveWindow | src/core/drift.py:29-34 | A zero window leaves the past empty, and the KS test rejects the empty sample. |
| Drift.TwentyDaysAgainstFourteenDayWindow | tests/test_drift_decomposition_dm.py:19-25 | 20 daily residuals against a 14-day window are insufficient history: no drift, p-value 1.0. |
| Drift.ShiftTestWindows | tests/test_drift_decomposition_dm.py:9-16 | In the shift test (26 zeros, then 14 fives), the windows compared are 26 zeros and 14 fives. |
| Drift.SortKeepsIncreasingSeries | src/core/drift.py:28 | Sorting a series that is already increasing in time changes nothing. |
| Decomposition.Present | src/core/decomposition.py:25 | `dropna()` keeps exactly the present values: a value is kept exactly when some cell holds it. It keeps at most every value, and a column with no gap keeps every value, in order. |
| Decomposition.PresentIsDropna | src/core/decomposition.py:25 | Dropping gaps works cell by cell: it distributes over concatenation, drops a NaN cell and keeps a present one, so the kept values stay in their original order. |
| Decomposition.AbsDeviations | src/core/decomposition.py:28 | `\|r - c\|` pointwise, all non-negative. |
| Decomposition.SquaredDeviations | src/core/decomposition.py:27 | `(r - c)²` pointwise, all non-negative. |
| Decomposition.LagDifferences | src/core/decomposition.py:29 | The lag-7 absolute differences exist for t >= 7 only, and are non-negative. |
| Decomposition.Breakdown | src/core/decomposition.py:26-36 | Bias, variance and noise are defined exactly on a non-empty series. Seasonality miss needs more than seven values. Variance, noise and seasonality miss are never negative. |
| Decomposition.SeasonalityMiss | src/core/decomposition.py:29 | The mean lag-7 absolute difference is defined exactly when there are more than seven values, and is non-negative. |
| Decomposition.DecomposeErrors | src/core/decomposition.py:7-37 | The loop succeeds exactly when every requested column exists. It then has one entry per column, each the breakdown of that column's present residuals. Otherwise it fails on the first missing column. |
| Decomposition.CompleteColumnKeepsEveryRow | src/core/decomposition.py:25 | A column without gaps is decomposed over all its rows. |
| Decomposition.ConstantSeries | src/core/decomposition.py:26-29 | A constant series has bias equal to the constant, and zero variance, noise and (when defined) seasonality miss. |
| Decomposition.ZeroToThirteen | tests/test_drift_decomposition_dm.py:28-39 | Residuals 0..13 give exactly 6.5, 16.25, 3.5 and 7.0. |
| Decomposition.RangeStatistics | tests/test_drift_decomposition_dm.py:28-39 | Any series equal to 0..13 has that breakdown. |
| Aggregation.JoinedBiasShape | src/forecastkernel/core/aggregation.py:35-39 | `JoinedBias`, the merge followed by the subtraction, gives at least one value per atomic row; its only error is a missing anchor value. |
| Aggregation.ComputeAnchorBias | src/forecastkernel/core/aggregation.py:10-39 | The series has at least one value per atomic row. The only errors are a missing model column and a missing anchor value. |
| Aggregation.AnchorBiasSucceedsIff | src/forecastkernel/core/aggregation.py:35-37 | Success exactly when both tables have the model column and every atomic row has an anchor row at its key with a forecast. Otherwise it raises instead of filling. |
| Aggregation.JoinedBiasOkIff | src/forecastkernel/core/aggregation.py:35-37 | The merge raises exactly when some atomic row lacks an anchor value. |
| Aggregation.AnchorBiasPerRow | src/forecastkernel/core/aggregation.py:35-39 | With one anchor row per key, the series follows the atomic rows in order: value i is atomic row i's forecast minus its anchor's. |
| Aggregation.UniqueAnchor | src/forecastkernel/core/aggregation.py:35 | With unique anchor keys, the merge finds exactly one anchor value per matched key. |
| Aggregation.UnmatchedAnchorsIgnored | src/forecastkernel/core/aggregation.py:35 | Anchor rows whose key no atomic row has do not change the result (left join). |
| Aggregation.SelfBiasIsZero | src/forecastkernel/core/aggregation.py:39 | A table compared with itself gives an all-zero bias series, one value per row. |
| Aggregation.TwelveAgainstTen | tests/test_aggregation.py:6-18 | 12.0 against an anchor of 10.0 gives a bias of 2.0. |
| Aggregation.EnforceCascadeChecks | src/forecastkernel/core/aggregation.py:42-70 | Passing requires both parent artifacts to exist. The function only reads the file system, which it takes as a value. |
| Aggregation.CascadePassesIff | src/forecastkernel/core/aggregation.py:55-70 | The cascade passes exactly when the parent metrics exist and decode, `pass_ci` is truthy, `drift_monitor.drift_detected` is not, and the forecasts file exists. |
| Aggregation.MissingMetricsFailsFirst | src/forecastkernel/core/aggregation.py:55-57 | A missing `baseline_metrics.json` is reported first, whatever else is wrong. |
| Aggregation.FailedUpstreamCIBlocks | src/forecastkernel/core/aggregation.py:61-62 | A false or absent `pass_ci` blocks, before drift or the forecasts file is looked at. |
| Aggregation.UpstreamDriftBlocks | src/forecastkernel/core/aggregation.py:64-66 | `drift_detected = true` blocks even when `pass_ci` is true. |
| Aggregation.AbsentDriftMonitorIsNoDrift | src/forecastkernel/core/aggregation.py:64-70 | An absent `drift_monitor` counts as no drift. |
| Aggregation.CascadeTestScenario | tests/test_aggregation.py:21-33 | `pass_ci` true, no drift and both files present: the cascade passes. |
| ServeHash.SelectedMetrics | src/forecastkernel/core/hash_utils.py:23 | The selected model's metrics, or `{}` when it has none. It fails only when the selected model is unhashable. |
| ServeHash.GenerateServeHash | src/forecastkernel/core/hash_utils.py:6-28 | The hash exists exactly when the payload can be built. It is then 8 lower-case hex characters. |
| ServeHash.PayloadFields | src/forecastkernel/core/hash_utils.py:20-26 | `Payload`, the dictionary that is hashed, holds exactly five fields: `series_id`, `selected_model`, the selected model's metrics, `timestamp` and `metadata.phase`. |
| ServeHash.MissingFieldIsAnError | src/forecastkernel/core/hash_utils.py:20-26 | A missing `series_id`, `selected_model`, `metrics`, `timestamp`, `metadata` or `metadata.phase` is an error. |
| ServeHash.AbsentSelectedMetricsAreEmpty | src/forecastkernel/core/hash_utils.py:23 | A selected model with no metrics entry hashes `{}` instead of failing. |
| ServeHash.OtherTopLevelFieldsIgnored | src/forecastkernel/core/hash_utils.py:20-26 | Records that agree on the five projected members have the same hash. Other top-level fields, such as `drift_monitor` or `anchor_bias`, are ignored. |
| ServeHash.OtherMetadataIgnored | src/forecastkernel/core/hash_utils.py:25 | Metadata other than `phase` (e.g. `commit_hash`, `serve_hash`) does not affect the hash. |
| ServeHash.OtherModelsMetricsIgnored | src/forecastkernel/core/hash_utils.py:23 | Other models' metrics do not affect the hash. |
| ServeHash.MetricsInsertionOrderIgnored | src/forecastkernel/core/hash_utils.py:27 | The hash does not depend on the order in which the selected model's metric keys were inserted. |
| ServeHash.SameLookupsSameHash | src/forecastkernel/core/hash_utils.py:20-28 | The hash depends on the record only through the five projected lookups. |
| Forecastability.CountNonzero | src/core/forecastability.py:75 | `np.count_nonzero` is at most the length, and is zero exactly when every value is zero. |
| Forecastability.Adi | src/core/forecastability.py:72-75 | When defined, ADI = n / #nonzero is at least 1. |
| Forecastability.ComputeForecastabilityMetrics | src/core/forecastability.py:58-85 | It succeeds exactly when the ADI is defined. The classification is then that of its ADI, CV² and entropy, and CV² is non-negative. |
| Forecastability.ClassifyIff | src/core/forecastability.py:29-55 | Each of the five labels holds exactly under its own condition: Lumpy, Intermittent, Noisy, Strongly Seasonal, and Moderate otherwise. So every input has exactly one label. |
| Forecastability.LabelTextInjective | src/core/forecastability.py:46-55 | The five labels have five distinct texts. |
| Forecastability.EntropyIgnoredWhenIntermittent | src/core/forecastability.py:46-49 | When ADI >= 1.32, the label does not depend on the entropy. |
| Forecastability.OneSeriesIff | src/core/forecastability.py:72 | `nunique() == 1` holds exactly when the frame is non-empty and every row carries the first row's id. |
| Forecastability.AdiOfSeries | src/core/forecastability.py:72-75 | For one series, the ADI is defined exactly when some value is non-zero. A series with no zeros has ADI 1. |
| Forecastability.SeveralSeriesRejected | src/core/forecastability.py:72 | A frame with two different ids fails the assertion before any statistic is computed. |
| BaselineGate.EnsembleCell | src/forecastkernel/scripts/baseline_sf.py:125 | The ensemble is defined exactly where both inputs are, and is their average. |
| BaselineGate.WithEnsemble | src/forecastkernel/scripts/baseline_sf.py:123-125 | It fails exactly when `Naive` or `SeasonalNaive` is missing, naming the first missing one. Otherwise it keeps every row and adds the column once, at the end. |
| BaselineGate.EnsembleBetweenInputs | src/forecastkernel/scripts/baseline_sf.py:125 | The ensemble forecast lies between its two inputs. |
| BaselineGate.WithEnsembleIdempotent | src/forecastkernel/scripts/baseline_sf.py:125 | Computing the ensemble column a second time changes nothing. |
| BaselineGate.ForecastCols | src/forecastkernel/scripts/baseline_sf.py:130-134 | The scored columns are exactly the table's columns that are not bookkeeping columns, and never more of them than the table has; ForecastColsIsFilter states that they keep table order. |
| BaselineGate.ForecastColsIsFilter | src/forecastkernel/scripts/baseline_sf.py:130-134 | The list comprehension filters column by column: it distributes over concatenation, drops `unique_id`, `ds`, `run_id`, `horizon`, `n_models` and `tag`, and keeps every other column. The scored columns are therefore the remaining columns in table order, with their repetitions, and that order is the order of the metrics dictionary that breaks ties in the model selection. |
| BaselineGate.Put | src/forecastkernel/scripts/baseline_sf.py:155-161 | `d[model] = m` keeps one entry per model and changes only that model's entry. |
| BaselineGate.MetricsDict | src/forecastkernel/scripts/baseline_sf.py:155-161 | The dictionary has one entry per model, holding the model's last record. |
| BaselineGate.MetricsDictOfDistinct | src/forecastkernel/scripts/baseline_sf.py:155-161 | With one record per model, the dictionary lists the records in order. |
| BaselineGate.MetricsDictModels | src/forecastkernel/scripts/baseline_sf.py:155-161 | The dictionary names exactly the scored models. |
| BaselineGate.CiGate | src/forecastkernel/scripts/baseline_sf.py:164-166 | The gate succeeds exactly when both `ensemble_naive` and `HoltWinters` were scored, and otherwise raises KeyError for the first of them that is missing. The selected model is one of the scored models. |
| BaselineGate.FirstArgMin | src/forecastkernel/scripts/baseline_sf.py:165 | `min(..., key=score)` picks a minimal score, the first in dictionary order among ties. |
| BaselineGate.CiGateOkIff | src/forecastkernel/scripts/baseline_sf.py:164 | `ci_floor` can be computed exactly when both `ensemble_naive` and `HoltWinters` were scored. |
| BaselineGate.SelectedIsFirstMinimum | src/forecastkernel/scripts/baseline_sf.py:164-165 | The selected model has the lowest score and is the first with it. `ci_floor` is the lower of the two reference scores. |
| BaselineGate.PassCiAlwaysTrue | src/forecastkernel/scripts/baseline_sf.py:164-166 | `pass_ci` is true whenever it is computed. |
| BaselineGate.DriftStage | src/forecastkernel/scripts/baseline_sf.py:198-212 | A run that goes on carries a drift report exactly from phase 2 on, and that report shows no drift. Every failure happens at phase 2 or above and is either the drift abort or a failure of the detector. |
| BaselineGate.AnchorBias | src/forecastkernel/scripts/baseline_sf.py:218-222 | The anchor bias is computed exactly when the parent's forecasts file exists, reads as CSV and aligns with the run's forecasts. The only errors are those three. The mean is NaN exactly when every value of the bias series is missing. |
| BaselineGate.DriftAbortIff | src/forecastkernel/scripts/baseline_sf.py:198-212 | The run aborts on drift exactly when the phase is at least 2 and the detector reports drift. |
| BaselineGate.EarlyPhasesNeverAbortOnDrift | src/forecastkernel/scripts/baseline_sf.py:198-212 | Below phase 2, the drift stage neither runs the detector nor aborts. |
| BaselineGate.MonitoredRunCarriesReport | src/forecastkernel/scripts/baseline_sf.py:198-203 | A monitored run that goes on carries the detector's report, which shows no drift. |
| BaselineGate.SelfAnchorBiasIsZero | src/forecastkernel/scripts/baseline_sf.py:218-222 | A cascade against identical parent forecasts has anchor bias 0. With no rows the anchor bias is NaN. |
| BaselineRun.Workspace.constructor | src/forecastkernel/scripts/baseline_sf.py:66-67 | The run starts from the given file system, with nothing written yet. |
| BaselineRun.Workspace.MakeDirs | src/forecastkernel/scripts/baseline_sf.py:67 | Creating the directory logs the event and changes no file. |
| BaselineRun.Workspace.Write | src/forecastkernel/scripts/baseline_sf.py:145-146 | Writing a file replaces exactly that path's content and logs the write. |
| BaselineRun.RunId | src/forecastkernel/scripts/baseline_sf.py:65 | The run id is the tag when a non-empty tag is given, and "dvc-run" otherwise; it is never empty. |
| BaselineRun.MetricsRecord | src/forecastkernel/scripts/baseline_sf.py:229-237 | From phase 2 on, the record carries a serve hash; a failure to compute it is the only error. |
| BaselineRun.Decide | src/forecastkernel/scripts/baseline_sf.py:155-212 | The gate and the drift stage succeed together or report the first failure. The decision holds the dictionary, the gate and the drift stage's report. |
| BaselineRun.BaselineMetrics | src/forecastkernel/scripts/baseline_sf.py:174-237 | `baseline_metrics` carries a serve hash exactly at phases that include it. Only the serve hash can fail. |
| BaselineRun.BaselineMetricsRecordsRun | src/forecastkernel/scripts/baseline_sf.py:174-237 | The record as written holds the series id, the metrics dictionary, the selected model and `pass_ci`. `dm_test` is present exactly from phase 2 on; `drift_monitor` exactly when the drift stage reported; `anchor_bias` exactly when it was computed. Its metadata holds the input hash, the phase, the commit hash, and the serve hash exactly when one was computed. |
| BaselineRun.CoreMetricsMembers | src/forecastkernel/scripts/baseline_sf.py:174-188 | The dictionary literal answers `series_id`, `metrics`, `selected_model`, `pass_ci` and `metadata` with the values it was built from. |
| BaselineRun.CoreMetricsLacksOptional | src/forecastkernel/scripts/baseline_sf.py:174-188 | The literal holds none of `dm_test`, `drift_monitor` and `anchor_bias`. |
| BaselineRun.OptionalMembersAdded | src/forecastkernel/scripts/baseline_sf.py:191-224 | `dm_test`, `drift_monitor` and `anchor_bias` are each set exactly when their gate asks for them; every other member answers as before. |
| BaselineRun.DraftMembers | src/forecastkernel/scripts/baseline_sf.py:174-224 | The draft the serve hash is computed over holds the literal's members, and each optional member exactly when its gate asks for it. |
| BaselineRun.MetadataMembers | src/forecastkernel/scripts/baseline_sf.py:183-189 | The metadata object holds the input hash and the phase, and no serve hash before stamping. |
| BaselineRun.StampedMembers | src/forecastkernel/scripts/baseline_sf.py:229-237 | Stamping changes only `metadata`. There it adds `commit_hash`, and `serve_hash` exactly when one was computed, and leaves every other metadata member alone. |
| BaselineRun.PublishedRecordRecordsRun | src/forecastkernel/scripts/baseline_sf.py:174-237 | A draft with the run's members and metadata, once stamped, records the run. |
| BaselineRun.RecordAllowsCascade | src/forecastkernel/core/aggregation.py:59-66 | A record that passed CI and carries no drift report showing drift satisfies what a child run's cascade check asks of its parent's metrics. |
| BaselineRun.CompletedRunRecord | src/forecastkernel/scripts/baseline_sf.py:174-224 | In the record of a completed run, `selected_model` is the gate's choice and `pass_ci` is true; `dm_test` and `drift_monitor` are present exactly from phase 2 on, and the drift monitor never shows drift; `anchor_bias` is present exactly when the run cascades from a parent at phase 2 or above. |
| BaselineRun.DriftMonitorShowsNoDrift | src/forecastkernel/scripts/baseline_sf.py:198-203 | A `drift_monitor` member built from a report without drift has `drift_detected` false. |
| BaselineRun.CompletedRunAllowsCascade | src/forecastkernel/core/aggregation.py:42-70 | The directory a completed run leaves passes a later run's cascade check, wherever the JSON codec round-trips its metrics. |
| BaselineRun.BreakdownCarriesAnchorBias | src/forecastkernel/scripts/baseline_sf.py:216-223 | `setdefault(selected, {})["Anchor Bias"] = bias` files the bias under the selected model, in a new entry when the model has none, and leaves every other entry and every other key of that entry alone. Without a parent run the breakdown is unchanged. |
| BaselineRun.ParentForecastsNotOverwritten | src/forecastkernel/scripts/baseline_sf.py:143-146 | Writing `forecastability.json` cannot change the parent's `baseline_forecasts.csv`, so the anchor bias reads the parent's forecasts as the run found them. |
| BaselineRun.KeepsOtherPathsTransitive | src/forecastkernel/scripts/baseline_sf.py:143-301 | Stages that each leave the paths outside the run's outputs alone leave them alone together. |
| BaselineRun.StagesCompleteRun | src/forecastkernel/scripts/baseline_sf.py:155-320 | The gate, the phase-2 stage, the record and the publication, each as its method promises, make a completed run. |
| BaselineRun.PrepareRun | src/forecastkernel/scripts/baseline_sf.py:67-146 | The directory is created, then `forecastability.json` is written, and only on success. It fails only on the input hash, the ensemble, the evaluation or the forecastability. On success the new directory is the old one plus `forecastability.json`, and the result holds the input digest, the forecasts with their ensemble, the scored columns, the evaluation, the forecastability metrics and the series id, each computed from the inputs. |
| BaselineRun.WriteBreakdown | src/forecastkernel/scripts/baseline_sf.py:215-227 | From phase 2 on, `error_breakdown.json` is written and nothing else: one breakdown per scored column, and, with a parent run, the anchor bias computed from the parent's forecasts under the selected model. Below phase 2, nothing is written. |
| BaselineRun.WriteArtifacts | src/forecastkernel/scripts/baseline_sf.py:240-278 | The metrics, the forecasts and `run_info.json` are written, in that order, and nothing else. |
| BaselineRun.SealLedger | src/forecastkernel/scripts/baseline_sf.py:290-320 | The ledger is written over the artifacts as they are, then re-verified. A clean round trip verifies to an empty dictionary, and a mismatch only warns. |
| BaselineRun.Publish | src/forecastkernel/scripts/baseline_sf.py:240-320 | The three tracked artifacts, then the ledger, and no other write. The ledger's entries are the digests of the artifacts as they finally are. |
| BaselineRun.Complete | src/forecastkernel/scripts/baseline_sf.py:155-320 | A drift abort writes nothing more, and no path outside the run's outputs ever changes. On success (`CompletedRun`): the gate over the metrics dictionary passed and chose the model; the drift stage let the run through; an anchor bias is present exactly at phase 2 and above with a parent run, and is the one the parent's forecasts give; the record written holds those decisions; the stored serve hash reproduces from it; and the new directory is the old one plus each stage's writes. |
| BaselineRun.RunBaseline | src/forecastkernel/scripts/baseline_sf.py:60-320 | The cascade checks run before anything is created. Every run writes a prefix of the fixed write order, which ends with the ledger, and changes no path outside its outputs. A drift abort writes no tracked artifact and no ledger. A completed run is the first stage's results followed by a completed run over the directory that stage left, its anchor bias is read from the parent's forecasts as the run found them, and the directory it leaves passes a later run's cascade check. |
| BaselineRun.StoredServeHashReproduces | src/forecastkernel/scripts/baseline_sf.py:229-237 | Adding `serve_hash` and `commit_hash` to the metadata leaves the serve hash unchanged. The stored value reproduces from the record as written. |
| BaselineRun.MetadataUpdateKeepsHash | src/forecastkernel/scripts/baseline_sf.py:231-237 | Replacing the metadata by one with the same phase keeps the serve hash. |
| BaselineRun.PublishedServeHashReproduces | src/forecastkernel/scripts/baseline_sf.py:174-242 | The serve hash stored in `baseline_metrics` is the serve hash of `baseline_metrics` as written. |
| BaselineRun.PublishedPathsDistinct | src/forecastkernel/scripts/baseline_sf.py:240-300 | The four files of the last stage are four distinct paths. |
| BaselineRun.TrackedFilesPresent | src/forecastkernel/scripts/baseline_sf.py:290-297 | Once the three artifacts are written, every ledger digest can be computed. |
| BaselineRun.LedgerWriteKeepsEntries | src/forecastkernel/scripts/baseline_sf.py:300-315 | Writing the ledger leaves the digests it records as they were. |

## Left out

- **Rounding.** The statistics are not rounded: metrics to 2 decimals, the
  breakdown, the p-value and the anchor bias to 4, and forecastability to
  2 or 3. Floating point is modelled as `real`.
- **NaN.** NaN is modelled as an absent value (`None`), not as a float.
- **Foreign computations.** These are abstract function parameters:
  - SHA-256;
  - JSON and CSV encoding and decoding;
  - the Kolmogorov-Smirnov test;
  - `scipy.stats.variation`;
  - `spectral_entropy` (src/core/forecastability.py:9-26);
  - the Diebold-Mariano test, whose result is an input document;
  - the StatsForecast fit and `read_csv`;
  - the input schema validation;
  - the held-out split (src/forecastkernel/scripts/baseline_sf.py:79-94).
- **BaselineRun.RunBaseline:** does not model the `numpy.bool_` that
  `p < 0.05` yields at src/core/drift.py:35. It arises from phase 2 on
  when the residual table has at least twice the drift window (28 rows
  with the default window of 14, so a horizon of 28 or more). Then
  `drift_detected` is that numpy value, and `json.dump` at
  src/forecastkernel/scripts/baseline_sf.py:242 raises TypeError on it
  part way through `baseline_metrics.json`, after `error_breakdown.json`
  is written. The model stores a JSON boolean and lets the run go on.
  With the default horizon of 7 the short-history branch returns a plain
  `False` and the run is as modelled.
- **BaselineRun.Number:** writes NaN as `null`; `json.dump` writes the
  bare token `NaN`. With the default horizon of 7 there are never more
  than seven residuals per model, so "Seasonality Miss" is NaN in every
  `error_breakdown.json`, and the file differs in that token.
- **Drift.NonPositiveWindow** and **Drift.MissingResidualGivesNaN:**
  `ks_2samp` on an empty sample or on NaN behaves differently across
  SciPy versions (an error, a warning with a NaN p-value, or NaN
  propagation). The model fixes one choice: an empty sample is an
  error, and a NaN anywhere gives a NaN p-value and no drift.
- **FileHash.ComputeFileHash:** fixes the algorithm to SHA-256. The
  `algo` argument of `compute_file_hash` (src/utils/hash_utils.py:6) is
  not modelled; every caller uses the default.
- **CiUtils.ValidateFileHashes:** returns a `map`, so the insertion
  order of the mismatch dictionary (src/utils/ci_utils.py:27-40), which
  follows the ledger, is not kept. Its keys and values are.
- **Ties on `ds`.** The drift sort orders equal timestamps in one
  arbitrary fixed way. pandas' default sort promises no order among ties.
- **Duplicate JSON keys.** JSON objects are member lists, so a document
  with duplicate keys answers the first of them. The run never writes
  duplicate keys.
- **BaselineGate.ForecastCols:** does not model the `is_numeric_dtype`
  filter (src/forecastkernel/scripts/baseline_sf.py:133). Every
  non-bookkeeping column is treated as numeric, because model columns
  hold reals.
- **BaselineGate.FirstArgMin:** works on the unrounded score. The source
  selects on the score rounded to 2 decimals.
- **The `season_length` argument.** It only configures model fitting and
  is not modelled. The run calls the drift detector with its default
  window of 14, which the model keeps as a parameter.
- **Regenerate mode.** It reloads earlier forecasts
  (src/forecastkernel/scripts/baseline_sf.py:107-111). In the model, the
  forecasts are an input either way.
- **Directories and extra files.** Directories are not modelled beyond the
  `MadeDirs` event in the run log. The log file, the plots,
  `visual_debug`, MLflow and logging are left out.
- **Clock and git.** `datetime.now()`/`utcnow()` are a `Clock` of four
  timestamps, and `get_git_commit_hash()` is an input string.
- **CLI parsing.** The `__main__` block of src/utils/ci_utils.py
  (lines 44-94) is left out, and argparse is replaced by the `Args` record.
- **Duplicate copies.** Two source files are duplicates and have no
  separate model:
  - src/core/hash_utils.py is a verbatim copy of
    src/forecastkernel/core/hash_utils.py.
  - scripts/baseline_sf.py is a superseded copy of the run script.
- **Import path.** run_ci_check.py imports the file digest from
  `forecastkernel.utils.hash_utils`. That module is not part of this model.
  The digest used is the one in src/utils/hash_utils.py.
- **Cascade CLI.** The cascade CLI (src/forecastkernel/scripts/cascade.py)
  only calls the modelled `enforce_cascade_checks`.
