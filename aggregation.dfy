/** Cascade support: the anchor bias between a granular run's forecasts and
    its parent (anchor) run's forecasts, and the guards a parent run must
    pass before a granular run may cascade from it. */
module Aggregation {
  import opened Common
  import opened Frames
  import opened Json
  import opened Files

  datatype BiasError =
    | MissingColumn(name: string)  // KeyError selecting the model column
    | MissingAnchorValue           // ValueError: anchor forecasts missing for some timestamps

  // ---------------------------------------------------------------------
  // compute_anchor_bias

  /** The anchor forecasts recorded at key k, in table order (None = NaN). */
  function AnchorsAt(anchor: seq<ForecastRow>, k: Key, model: string): seq<Option<real>>
  {
    if anchor == [] then []
    else (if anchor[0].key == k then [Cell(anchor[0].values, model)] else []) + AnchorsAt(anchor[1..], k, model)
  }

  /** The anchor column of one atomic row after the left merge: every
      matching anchor value, or a single NaN when nothing matches. */
  function AnchorColumn(r: ForecastRow, anchor: seq<ForecastRow>, model: string): seq<Option<real>>
  {
    var m := AnchorsAt(anchor, r.key, model);
    if m == [] then [None] else m
  }

  /** `atomic - anchor` for one joined row; NaN propagates from the atomic side. */
  function Difference(atomic: Option<real>, anchor: real): Option<real>
  {
    match atomic
    case Some(a) => Some(a - anchor)
    case None => None
  }

  predicate AllPresent(s: seq<Option<real>>)
  {
    forall i :: 0 <= i < |s| ==> s[i].Some?
  }

  /** The bias series of one atomic row (one value per matching anchor row). */
  function RowBias(r: ForecastRow, anchors: seq<Option<real>>, model: string): (b: seq<Option<real>>)
    requires AllPresent(anchors)
    ensures |b| == |anchors|
    ensures forall i :: 0 <= i < |b| ==> b[i] == Difference(Cell(r.values, model), anchors[i].value)
  {
    seq(|anchors|, i requires 0 <= i < |anchors| => Difference(Cell(r.values, model), anchors[i].value))
  }

  /** The left merge and subtraction over the atomic rows, or the error the
      NaN check raises. */
  function JoinedBias(atomic: seq<ForecastRow>, anchor: seq<ForecastRow>, model: string): Result<seq<Option<real>>, BiasError>
  {
    if atomic == [] then Ok([])
    else
      var col := AnchorColumn(atomic[0], anchor, model);
      if !AllPresent(col) then Err(MissingAnchorValue)
      else
        match JoinedBias(atomic[1..], anchor, model)
        case Err(e) => Err(e)
        case Ok(rest) => Ok(RowBias(atomic[0], col, model) + rest)
  }

  function ComputeAnchorBias(atomic: ForecastTable, anchor: ForecastTable, model: string): (r: Result<seq<Option<real>>, BiasError>)
    ensures r.Ok? ==> |r.value| >= |atomic.rows|
    ensures r.Err? ==> r.error == MissingColumn(model) || r.error == MissingAnchorValue
  {
    if model !in atomic.columns || model !in anchor.columns then Err(MissingColumn(model))
    else
      JoinedBiasShape(atomic.rows, anchor.rows, model);
      JoinedBias(atomic.rows, anchor.rows, model)
  }

  lemma {:induction false} JoinedBiasShape(atomic: seq<ForecastRow>, anchor: seq<ForecastRow>, model: string)
    ensures var r := JoinedBias(atomic, anchor, model);
      (r.Ok? ==> |r.value| >= |atomic|) && (r.Err? ==> r.error == MissingAnchorValue)
  {
    if atomic != [] {
      JoinedBiasShape(atomic[1..], anchor, model);
    }
  }

  /** An anchor forecast is available for an atomic row: some anchor row has
      its key, and every anchor row with its key has a value. */
  predicate Anchored(r: ForecastRow, anchor: seq<ForecastRow>, model: string)
  {
    && (exists j :: 0 <= j < |anchor| && anchor[j].key == r.key)
    && (forall j :: 0 <= j < |anchor| && anchor[j].key == r.key ==> model in anchor[j].values)
  }

  lemma {:induction false} AnchorsAtFacts(anchor: seq<ForecastRow>, k: Key, model: string)
    ensures AnchorsAt(anchor, k, model) == [] <==> forall j :: 0 <= j < |anchor| ==> anchor[j].key != k
    ensures AllPresent(AnchorsAt(anchor, k, model)) <==>
      forall j :: 0 <= j < |anchor| && anchor[j].key == k ==> model in anchor[j].values
  {
    if anchor != [] {
      AnchorsAtFacts(anchor[1..], k, model);
      assert forall j :: 0 < j < |anchor| ==> anchor[j] == anchor[1..][j - 1];
      var head := if anchor[0].key == k then [Cell(anchor[0].values, model)] else [];
      var tail := AnchorsAt(anchor[1..], k, model);
      assert AnchorsAt(anchor, k, model) == head + tail;
      PresentAppend(head, tail);
      if AllPresent(head + tail) {
        forall j | 0 <= j < |anchor| && anchor[j].key == k ensures model in anchor[j].values {
          if j == 0 {
            assert head[0] == Cell(anchor[0].values, model);
          } else {
            assert anchor[1..][j - 1].key == k;
          }
        }
      }
      if forall j :: 0 <= j < |anchor| && anchor[j].key == k ==> model in anchor[j].values {
        assert forall j :: 0 <= j < |anchor[1..]| && anchor[1..][j].key == k ==> model in anchor[1..][j].values;
        assert AllPresent(head);
      }
    }
  }

  lemma PresentAppend(a: seq<Option<real>>, b: seq<Option<real>>)
    ensures AllPresent(a + b) <==> AllPresent(a) && AllPresent(b)
  {
    if AllPresent(a + b) {
      assert forall i :: 0 <= i < |a| ==> a[i] == (a + b)[i];
      assert forall i :: 0 <= i < |b| ==> b[i] == (a + b)[|a| + i];
    }
  }

  lemma AnchorColumnPresentIff(r: ForecastRow, anchor: seq<ForecastRow>, model: string)
    ensures AllPresent(AnchorColumn(r, anchor, model)) <==> Anchored(r, anchor, model)
  {
    AnchorsAtFacts(anchor, r.key, model);
    var col := AnchorColumn(r, anchor, model);
    if AnchorsAt(anchor, r.key, model) == [] {
      assert col[0] == None;
    }
  }

  /** Success exactly when both tables have the model column and every
      atomic row is anchored; a missing anchor raises rather than filling. */
  lemma {:induction false} AnchorBiasSucceedsIff(atomic: ForecastTable, anchor: ForecastTable, model: string)
    ensures ComputeAnchorBias(atomic, anchor, model).Ok? <==>
      model in atomic.columns && model in anchor.columns &&
      forall i :: 0 <= i < |atomic.rows| ==> Anchored(atomic.rows[i], anchor.rows, model)
  {
    JoinedBiasOkIff(atomic.rows, anchor.rows, model);
  }

  lemma {:induction false} JoinedBiasOkIff(atomic: seq<ForecastRow>, anchor: seq<ForecastRow>, model: string)
    ensures JoinedBias(atomic, anchor, model).Ok? <==> forall i :: 0 <= i < |atomic| ==> Anchored(atomic[i], anchor, model)
  {
    if atomic != [] {
      var rest := atomic[1..];
      JoinedBiasOkIff(rest, anchor, model);
      AnchorColumnPresentIff(atomic[0], anchor, model);
      JoinedBiasStep(atomic, anchor, model);
      if forall i :: 0 <= i < |atomic| ==> Anchored(atomic[i], anchor, model) {
        forall i | 0 <= i < |rest| ensures Anchored(rest[i], anchor, model) {
          assert rest[i] == atomic[i + 1];
        }
      }
      if Anchored(atomic[0], anchor, model) && forall i :: 0 <= i < |rest| ==> Anchored(rest[i], anchor, model) {
        forall i | 0 < i < |atomic| ensures Anchored(atomic[i], anchor, model) {
          assert atomic[i] == rest[i - 1];
        }
      }
    }
  }

  lemma JoinedBiasStep(atomic: seq<ForecastRow>, anchor: seq<ForecastRow>, model: string)
    requires atomic != []
    ensures JoinedBias(atomic, anchor, model).Ok? <==>
      AllPresent(AnchorColumn(atomic[0], anchor, model)) && JoinedBias(atomic[1..], anchor, model).Ok?
  {
  }

  /** v is the atomic row's forecast minus an anchor forecast at its key. */
  predicate AnchoredBias(r: ForecastRow, anchor: seq<ForecastRow>, model: string, v: Option<real>)
  {
    exists j :: 0 <= j < |anchor| && anchor[j].key == r.key && model in anchor[j].values &&
      v == Difference(Cell(r.values, model), anchor[j].values[model])
  }

  /** With one anchor row per key, the bias series follows the atomic rows
      one for one: each value is atomic minus anchor at the same key. */
  lemma {:induction false} AnchorBiasPerRow(atomic: seq<ForecastRow>, anchor: seq<ForecastRow>, model: string)
    requires forall j, k :: 0 <= j < k < |anchor| ==> anchor[j].key != anchor[k].key
    requires JoinedBias(atomic, anchor, model).Ok?
    ensures var b := JoinedBias(atomic, anchor, model).value;
      && |b| == |atomic|
      && forall i :: 0 <= i < |atomic| ==> AnchoredBias(atomic[i], anchor, model, b[i])
  {
    if atomic != [] {
      AnchorBiasPerRow(atomic[1..], anchor, model);
      var r := atomic[0];
      JoinedBiasOkIff(atomic, anchor, model);
      assert Anchored(r, anchor, model);
      var j :| 0 <= j < |anchor| && anchor[j].key == r.key;
      UniqueAnchor(anchor, j, model);
      var b := JoinedBias(atomic, anchor, model).value;
      var rest := JoinedBias(atomic[1..], anchor, model).value;
      assert b == RowBias(r, [Cell(anchor[j].values, model)], model) + rest;
      forall i | 0 <= i < |atomic|
        ensures AnchoredBias(atomic[i], anchor, model, b[i])
      {
        if i > 0 {
          assert atomic[i] == atomic[1..][i - 1] && b[i] == rest[i - 1];
        }
      }
    }
  }

  /** With unique anchor keys, the anchors at an anchor row's key are just that row. */
  lemma {:induction false} UniqueAnchor(anchor: seq<ForecastRow>, j: int, model: string)
    requires forall a, b :: 0 <= a < b < |anchor| ==> anchor[a].key != anchor[b].key
    requires 0 <= j < |anchor|
    ensures AnchorsAt(anchor, anchor[j].key, model) == [Cell(anchor[j].values, model)]
  {
    var k := anchor[j].key;
    if j == 0 {
      AnchorsAtFacts(anchor[1..], k, model);
    } else {
      UniqueAnchor(anchor[1..], j - 1, model);
    }
  }

  /** Anchor rows whose key no atomic row has do not change the result. */
  lemma {:induction false} UnmatchedAnchorsIgnored(atomic: seq<ForecastRow>, anchor: seq<ForecastRow>, extra: ForecastRow, model: string)
    requires forall i :: 0 <= i < |atomic| ==> atomic[i].key != extra.key
    ensures JoinedBias(atomic, anchor + [extra], model) == JoinedBias(atomic, anchor, model)
  {
    if atomic != [] {
      UnmatchedAnchorsIgnored(atomic[1..], anchor, extra, model);
      AnchorsAtAppend(anchor, extra, atomic[0].key, model);
    }
  }

  lemma {:induction false} AnchorsAtAppend(anchor: seq<ForecastRow>, extra: ForecastRow, k: Key, model: string)
    requires extra.key != k
    ensures AnchorsAt(anchor + [extra], k, model) == AnchorsAt(anchor, k, model)
  {
    if anchor == [] {
      assert [] + [extra] == [extra];
    } else {
      assert (anchor + [extra])[1..] == anchor[1..] + [extra];
      AnchorsAtAppend(anchor[1..], extra, k, model);
    }
  }

  /** A table compared with itself (unique keys, no missing forecasts) has
      zero bias everywhere. */
  lemma SelfBiasIsZero(t: ForecastTable, model: string)
    requires model in t.columns
    requires forall j, k :: 0 <= j < k < |t.rows| ==> t.rows[j].key != t.rows[k].key
    requires forall i :: 0 <= i < |t.rows| ==> model in t.rows[i].values
    ensures var r := ComputeAnchorBias(t, t, model);
      r.Ok? && |r.value| == |t.rows| && forall i :: 0 <= i < |r.value| ==> r.value[i] == Some(0.0)
  {
    forall i | 0 <= i < |t.rows| ensures Anchored(t.rows[i], t.rows, model) {
      assert t.rows[i].key == t.rows[i].key;
    }
    AnchorBiasSucceedsIff(t, t, model);
    AnchorBiasPerRow(t.rows, t.rows, model);
    var b := ComputeAnchorBias(t, t, model).value;
    forall i | 0 <= i < |b| ensures b[i] == Some(0.0) {
      var j :| 0 <= j < |t.rows| && t.rows[j].key == t.rows[i].key && model in t.rows[j].values &&
        b[i] == Difference(Cell(t.rows[i].values, model), t.rows[j].values[model]);
      assert j == i;
    }
  }

  /** The repository's anchor-bias test: 12.0 against 10.0 is 2.0. */
  lemma TwelveAgainstTen(model: string)
    ensures var k := Key("A", 0);
      ComputeAnchorBias(
        ForecastTable([model], [ForecastRow(k, map[model := 12.0])]),
        ForecastTable([model], [ForecastRow(k, map[model := 10.0])]),
        model) == Ok([Some(2.0)])
  {
    var k := Key("A", 0);
    var atomic := [ForecastRow(k, map[model := 12.0])];
    var anchor := [ForecastRow(k, map[model := 10.0])];
    assert AnchorsAt(anchor, k, model) == [Some(10.0)];
    assert AnchorColumn(atomic[0], anchor, model) == [Some(10.0)];
    assert RowBias(atomic[0], [Some(10.0)], model) == [Some(2.0)];
    assert JoinedBias(atomic[1..], anchor, model) == Ok([]);
    assert JoinedBias(atomic, anchor, model) == Ok([Some(2.0)] + []);
    assert model in [model];
    assert ComputeAnchorBias(ForecastTable([model], atomic), ForecastTable([model], anchor), model) == JoinedBias(atomic, anchor, model);
    assert [Some(2.0)] + [] == [Some(2.0)];
  }

  // ---------------------------------------------------------------------
  // enforce_cascade_checks

  datatype CascadeError =
    | MissingParentMetrics      // FileNotFoundError: no baseline_metrics.json
    | MalformedMetrics          // json.load raises on the metrics file
    | NotAnObject(what: string) // `.get` on a decoded value that is not a dict
    | UpstreamCIFailed          // pass_ci false or absent
    | UnresolvedUpstreamDrift   // drift_monitor.drift_detected is true
    | MissingAnchorForecasts    // FileNotFoundError: no baseline_forecasts.csv

  /** enforce_cascade_checks over a read-only file system: the guards in
      their fixed order; passing has no effect. */
  function EnforceCascadeChecks(fs: FileSystem, parentDir: string, decode: Decoder): (r: Outcome<CascadeError>)
    ensures r.Pass? ==> Join(parentDir, MetricsFile) in fs && Join(parentDir, ForecastsFile) in fs
  {
    var metricsPath := Join(parentDir, MetricsFile);
    if metricsPath !in fs then Fail(MissingParentMetrics)
    else match decode(fs[metricsPath])
      case None => Fail(MalformedMetrics)
      case Some(doc) =>
        if !doc.JObj? then Fail(NotAnObject("parent metrics"))
        else if !Truthy(GetOr(doc.fields, "pass_ci", JBool(false))) then Fail(UpstreamCIFailed)
        else
          var drift := GetOr(doc.fields, "drift_monitor", JObj([]));
          if !drift.JObj? then Fail(NotAnObject("drift_monitor"))
          else if Truthy(GetOr(drift.fields, "drift_detected", JBool(false))) then Fail(UnresolvedUpstreamDrift)
          else if Join(parentDir, ForecastsFile) !in fs then Fail(MissingAnchorForecasts)
          else Pass
  }

  /** What the parent's decoded metrics must say for the cascade to proceed. */
  predicate ParentMetricsAllowCascade(doc: Json)
  {
    && doc.JObj?
    && Truthy(GetOr(doc.fields, "pass_ci", JBool(false)))
    && GetOr(doc.fields, "drift_monitor", JObj([])).JObj?
    && !Truthy(GetOr(GetOr(doc.fields, "drift_monitor", JObj([])).fields, "drift_detected", JBool(false)))
  }

  /** The cascade passes exactly when both parent artifacts exist and the
      parent's metrics decode and allow it. */
  lemma CascadePassesIff(fs: FileSystem, parentDir: string, decode: Decoder)
    ensures EnforceCascadeChecks(fs, parentDir, decode).Pass? <==>
      var m := Join(parentDir, MetricsFile);
      && m in fs
      && decode(fs[m]).Some?
      && ParentMetricsAllowCascade(decode(fs[m]).value)
      && Join(parentDir, ForecastsFile) in fs
  {
  }

  /** A missing metrics file is reported first, whatever else is wrong. */
  lemma MissingMetricsFailsFirst(fs: FileSystem, parentDir: string, decode: Decoder)
    requires Join(parentDir, MetricsFile) !in fs
    ensures EnforceCascadeChecks(fs, parentDir, decode) == Fail(MissingParentMetrics)
  {
  }

  /** A false or absent pass_ci blocks the cascade before drift or the
      forecasts are looked at. */
  lemma FailedUpstreamCIBlocks(fs: FileSystem, parentDir: string, decode: Decoder, fields: seq<Field>)
    requires Join(parentDir, MetricsFile) in fs
    requires decode(fs[Join(parentDir, MetricsFile)]) == Some(JObj(fields))
    requires Get(fields, "pass_ci").None? || Get(fields, "pass_ci") == Some(JBool(false))
    ensures EnforceCascadeChecks(fs, parentDir, decode) == Fail(UpstreamCIFailed)
  {
  }

  /** Detected drift blocks even when CI passed; an absent drift_monitor
      counts as no drift. */
  lemma UpstreamDriftBlocks(fs: FileSystem, parentDir: string, decode: Decoder, fields: seq<Field>, drift: seq<Field>)
    requires Join(parentDir, MetricsFile) in fs
    requires decode(fs[Join(parentDir, MetricsFile)]) == Some(JObj(fields))
    requires Get(fields, "pass_ci") == Some(JBool(true))
    requires Get(fields, "drift_monitor") == Some(JObj(drift))
    requires Get(drift, "drift_detected") == Some(JBool(true))
    ensures EnforceCascadeChecks(fs, parentDir, decode) == Fail(UnresolvedUpstreamDrift)
  {
  }

  lemma AbsentDriftMonitorIsNoDrift(fs: FileSystem, parentDir: string, decode: Decoder, fields: seq<Field>)
    requires Join(parentDir, MetricsFile) in fs && Join(parentDir, ForecastsFile) in fs
    requires decode(fs[Join(parentDir, MetricsFile)]) == Some(JObj(fields))
    requires Get(fields, "pass_ci") == Some(JBool(true))
    requires Get(fields, "drift_monitor").None?
    ensures EnforceCascadeChecks(fs, parentDir, decode) == Pass
  {
  }

  /** The repository's cascade test: pass_ci true, no drift, and both files
      present lets the cascade proceed. */
  lemma CascadeTestScenario(fs: FileSystem, parentDir: string, decode: Decoder)
    requires Join(parentDir, MetricsFile) in fs && Join(parentDir, ForecastsFile) in fs
    requires decode(fs[Join(parentDir, MetricsFile)]) == Some(JObj([
      Field("pass_ci", JBool(true)),
      Field("drift_monitor", JObj([Field("drift_detected", JBool(false))]))]))
    ensures EnforceCascadeChecks(fs, parentDir, decode) == Pass
  {
  }
}
