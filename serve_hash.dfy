/** generate_serve_hash: projects five fields out of the run's metrics
    record, encodes them as JSON with sorted keys, and keeps the first eight
    hexadecimal digits of the SHA-256 digest. */
module ServeHash {
  import opened Common
  import opened Json
  import opened FileHash

  const ShortLength: nat := 8

  datatype ServeHashError =
    | MissingKey(name: string)    // KeyError
    | NotAnObject(what: string)   // `.get` or `[...]` on a value that is not a dict
    | Unhashable                  // a list or dict used as a dictionary key

  /** `metrics.get(selected_model, {})`: the keys of a JSON object are
      strings, so a selected model that is not a string finds nothing. */
  function SelectedMetrics(metrics: seq<Field>, selected: Json): (r: Result<Json, ServeHashError>)
    ensures r.Ok? <==> !selected.JArr? && !selected.JObj?
    ensures selected.JStr? && Get(metrics, selected.s).None? ==> r == Ok(JObj([]))
  {
    match selected
    case JArr(_) => Err(Unhashable)
    case JObj(_) => Err(Unhashable)
    case JStr(name) => Ok(GetOr(metrics, name, JObj([])))
    case _ => Ok(JObj([]))
  }

  /** `record[name]`. */
  function Member(record: seq<Field>, name: string): (r: Result<Json, ServeHashError>)
    ensures r.Ok? <==> Get(record, name).Some?
    ensures r.Ok? ==> r.value == Get(record, name).value
    ensures r.Err? ==> r.error == MissingKey(name)
  {
    match Get(record, name)
    case None => Err(MissingKey(name))
    case Some(v) => Ok(v)
  }

  /** `record["metrics"].get(record["selected_model"], {})`. */
  function ChosenMetrics(record: seq<Field>): Result<Json, ServeHashError>
  {
    var selected :- Member(record, "selected_model");
    var metrics :- Member(record, "metrics");
    if !metrics.JObj? then Err(NotAnObject("metrics"))
    else SelectedMetrics(metrics.fields, selected)
  }

  /** `record["metadata"]["phase"]`. */
  function Phase(record: seq<Field>): Result<Json, ServeHashError>
  {
    var metadata :- Member(record, "metadata");
    if !metadata.JObj? then Err(NotAnObject("metadata"))
    else match Get(metadata.fields, "phase")
      case None => Err(MissingKey("phase"))
      case Some(phase) => Ok(phase)
  }

  /** The payload dictionary; its values are evaluated left to right, so
      the first failing lookup is the exception raised. */
  function Payload(record: seq<Field>): (r: Result<seq<Field>, ServeHashError>)
  {
    var seriesId :- Member(record, "series_id");
    var selected :- Member(record, "selected_model");
    var chosen :- ChosenMetrics(record);
    var timestamp :- Member(record, "timestamp");
    var phase :- Phase(record);
    Ok(PayloadOf(seriesId, selected, chosen, timestamp, phase))
  }

  /** The payload's members, in the order the dictionary literal lists them. */
  function PayloadOf(seriesId: Json, selected: Json, chosen: Json, timestamp: Json, phase: Json): seq<Field>
  {
    [Field("series_id", seriesId), Field("selected_model", selected),
     Field("metrics", chosen), Field("timestamp", timestamp), Field("phase", phase)]
  }

  /** generate_serve_hash(baseline_metrics). */
  function GenerateServeHash(record: seq<Field>, encode: Encoder, sha: Sha256): (r: Result<string, ServeHashError>)
    ensures r.Ok? <==> Payload(record).Ok?
    ensures r.Err? ==> r.error == Payload(record).error
    ensures r.Ok? ==> |r.value| == ShortLength && forall i :: 0 <= i < ShortLength ==> IsHexDigit(r.value[i])
  {
    match Payload(record)
    case Err(e) => Err(e)
    case Ok(payload) => Ok(sha(encode(SortKeys(JObj(payload))))[..ShortLength])
  }

  // ---------------------------------------------------------------------
  // Properties

  /** The payload holds exactly the five projected fields: the record's
      series_id, selected_model and timestamp, the selected model's metrics,
      and the phase from the metadata. */
  lemma PayloadFields(record: seq<Field>)
    requires Payload(record).Ok?
    ensures var p := Payload(record).value;
      && |p| == 5
      && p[0] == Field("series_id", Get(record, "series_id").value)
      && p[1] == Field("selected_model", Get(record, "selected_model").value)
      && Get(record, "metrics").value.JObj?
      && p[2] == Field("metrics", SelectedMetrics(Get(record, "metrics").value.fields, Get(record, "selected_model").value).value)
      && p[3] == Field("timestamp", Get(record, "timestamp").value)
      && Get(record, "metadata").value.JObj?
      && p[4] == Field("phase", Get(Get(record, "metadata").value.fields, "phase").value)
  {
  }

  /** A missing series_id, selected_model, metrics, timestamp, metadata or
      metadata phase is an error, not a default. */
  lemma MissingFieldIsAnError(record: seq<Field>, encode: Encoder, sha: Sha256)
    requires
      || Get(record, "series_id").None?
      || Get(record, "selected_model").None?
      || Get(record, "metrics").None?
      || Get(record, "timestamp").None?
      || Get(record, "metadata").None?
      || (Get(record, "metadata").Some? && Get(record, "metadata").value.JObj? &&
          Get(Get(record, "metadata").value.fields, "phase").None?)
    ensures GenerateServeHash(record, encode, sha).Err?
  {
  }

  /** A selected model with no entry in `metrics` hashes an empty metrics object. */
  lemma AbsentSelectedMetricsAreEmpty(record: seq<Field>, name: string, metrics: seq<Field>)
    requires Payload(record).Ok?
    requires Get(record, "selected_model") == Some(JStr(name)) && Get(record, "metrics") == Some(JObj(metrics))
    requires Get(metrics, name).None?
    ensures Payload(record).value[2] == Field("metrics", JObj([]))
  {
  }

  /** Records that agree on the five projected members have the same serve
      hash, whatever else they hold (drift_monitor, anchor_bias, dm_test, ...). */
  lemma OtherTopLevelFieldsIgnored(r1: seq<Field>, r2: seq<Field>, encode: Encoder, sha: Sha256)
    requires Get(r1, "series_id") == Get(r2, "series_id")
    requires Get(r1, "selected_model") == Get(r2, "selected_model")
    requires Get(r1, "metrics") == Get(r2, "metrics")
    requires Get(r1, "timestamp") == Get(r2, "timestamp")
    requires Get(r1, "metadata") == Get(r2, "metadata")
    ensures GenerateServeHash(r1, encode, sha) == GenerateServeHash(r2, encode, sha)
  {
    SameMetricsSameChoice(r1, r2);
    SameMetadataSamePhase(r1, r2);
    SameLookupsSameHash(r1, r2, encode, sha);
  }

  /** Metadata members other than the phase (commit_hash, aggregation_level,
      serve_hash, ...) do not enter the serve hash. */
  lemma OtherMetadataIgnored(r1: seq<Field>, r2: seq<Field>, m1: seq<Field>, m2: seq<Field>, encode: Encoder, sha: Sha256)
    requires Get(r1, "series_id") == Get(r2, "series_id")
    requires Get(r1, "selected_model") == Get(r2, "selected_model")
    requires Get(r1, "metrics") == Get(r2, "metrics")
    requires Get(r1, "timestamp") == Get(r2, "timestamp")
    requires Get(r1, "metadata") == Some(JObj(m1)) && Get(r2, "metadata") == Some(JObj(m2))
    requires Get(m1, "phase") == Get(m2, "phase")
    ensures GenerateServeHash(r1, encode, sha) == GenerateServeHash(r2, encode, sha)
  {
    SameMetricsSameChoice(r1, r2);
    assert Phase(r1) == Phase(r2);
    SameLookupsSameHash(r1, r2, encode, sha);
  }

  /** Other models' metrics do not enter the serve hash: only the selected
      model's entry of `metrics` is looked at. */
  lemma OtherModelsMetricsIgnored(r1: seq<Field>, r2: seq<Field>, metrics1: seq<Field>, metrics2: seq<Field>, selected: string, encode: Encoder, sha: Sha256)
    requires Get(r1, "series_id") == Get(r2, "series_id")
    requires Get(r1, "selected_model") == Get(r2, "selected_model") == Some(JStr(selected))
    requires Get(r1, "metrics") == Some(JObj(metrics1)) && Get(r2, "metrics") == Some(JObj(metrics2))
    requires Get(metrics1, selected) == Get(metrics2, selected)
    requires Get(r1, "timestamp") == Get(r2, "timestamp")
    requires Get(r1, "metadata") == Get(r2, "metadata")
    ensures GenerateServeHash(r1, encode, sha) == GenerateServeHash(r2, encode, sha)
  {
    assert ChosenMetrics(r1) == ChosenMetrics(r2);
    SameMetadataSamePhase(r1, r2);
    SameLookupsSameHash(r1, r2, encode, sha);
  }

  /** The hash does not depend on the order in which the selected model's
      metrics were inserted. */
  lemma MetricsInsertionOrderIgnored(r1: seq<Field>, r2: seq<Field>, metrics1: seq<Field>, metrics2: seq<Field>, selected: string,
                                     a: seq<Field>, b: seq<Field>, encode: Encoder, sha: Sha256)
    requires Get(r1, "series_id") == Get(r2, "series_id")
    requires Get(r1, "selected_model") == Get(r2, "selected_model") == Some(JStr(selected))
    requires Get(r1, "metrics") == Some(JObj(metrics1)) && Get(r2, "metrics") == Some(JObj(metrics2))
    requires Get(metrics1, selected) == Some(JObj(a)) && Get(metrics2, selected) == Some(JObj(b))
    requires DistinctNames(a) && DistinctNames(b) && forall k :: CanonGet(a, k) == CanonGet(b, k)
    requires Get(r1, "timestamp") == Get(r2, "timestamp")
    requires Get(r1, "metadata") == Get(r2, "metadata")
    ensures GenerateServeHash(r1, encode, sha) == GenerateServeHash(r2, encode, sha)
  {
    assert ChosenMetrics(r1) == Ok(JObj(a)) && ChosenMetrics(r2) == Ok(JObj(b));
    SameMetadataSamePhase(r1, r2);
    if Payload(r1).Ok? {
      var seriesId, phase := Get(r1, "series_id").value, Phase(r1).value;
      var timestamp := Get(r1, "timestamp").value;
      assert Payload(r1) == Ok(PayloadOf(seriesId, JStr(selected), JObj(a), timestamp, phase));
      assert Payload(r2) == Ok(PayloadOf(seriesId, JStr(selected), JObj(b), timestamp, phase));
      SortKeysIgnoresInsertionOrder(a, b);
      PayloadOfCanonical(seriesId, JStr(selected), JObj(a), JObj(b), timestamp, phase);
    }
  }

  /** Payloads whose metrics have the same canonical form encode alike. */
  lemma PayloadOfCanonical(seriesId: Json, selected: Json, a: Json, b: Json, timestamp: Json, phase: Json)
    requires SortKeys(a) == SortKeys(b)
    ensures SortKeys(JObj(PayloadOf(seriesId, selected, a, timestamp, phase))) ==
            SortKeys(JObj(PayloadOf(seriesId, selected, b, timestamp, phase)))
  {
    var p, q := PayloadOf(seriesId, selected, a, timestamp, phase), PayloadOf(seriesId, selected, b, timestamp, phase);
    assert DistinctNames(p) && DistinctNames(q);
    forall k ensures CanonGet(p, k) == CanonGet(q, k) {
      if k != "metrics" {
        SameLookupsOffOneName(p, q, 2, k);
      } else {
        assert Get(p, k) == Get(p[1..], k) == Get(p[2..], k);
        assert Get(q, k) == Get(q[1..], k) == Get(q[2..], k);
      }
    }
    SortKeysIgnoresInsertionOrder(p, q);
  }

  lemma SameMetricsSameChoice(r1: seq<Field>, r2: seq<Field>)
    requires Get(r1, "selected_model") == Get(r2, "selected_model") && Get(r1, "metrics") == Get(r2, "metrics")
    ensures ChosenMetrics(r1) == ChosenMetrics(r2)
  {
  }

  lemma SameMetadataSamePhase(r1: seq<Field>, r2: seq<Field>)
    requires Get(r1, "metadata") == Get(r2, "metadata")
    ensures Phase(r1) == Phase(r2)
  {
  }

  /** The hash depends on the record only through the five projected lookups. */
  lemma SameLookupsSameHash(r1: seq<Field>, r2: seq<Field>, encode: Encoder, sha: Sha256)
    requires Get(r1, "series_id") == Get(r2, "series_id")
    requires Get(r1, "selected_model") == Get(r2, "selected_model")
    requires Get(r1, "timestamp") == Get(r2, "timestamp")
    requires ChosenMetrics(r1) == ChosenMetrics(r2) && Phase(r1) == Phase(r2)
    ensures GenerateServeHash(r1, encode, sha) == GenerateServeHash(r2, encode, sha)
  {
    assert Payload(r1) == Payload(r2);
  }

  /** Two member lists that differ only at one position answer every other
      name alike. */
  lemma {:induction false} SameLookupsOffOneName(p: seq<Field>, q: seq<Field>, i: int, k: string)
    requires |p| == |q| && 0 <= i < |p| && p[i].name == q[i].name != k
    requires forall j :: 0 <= j < |p| && j != i ==> p[j] == q[j]
    ensures Get(p, k) == Get(q, k)
  {
    if p[0].name != k && i != 0 {
      SameLookupsOffOneName(p[1..], q[1..], i - 1, k);
    } else if p[0].name != k {
      assert p[1..] == q[1..];
    }
  }
}
