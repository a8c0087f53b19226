/** Evaluation engine: per model column, left-join the forecasts to the
    actuals on (unique_id, ds), score the model (MAE, signed bias and
    score = MAE + |bias|) and collect its residuals; then consolidate all
    residuals into one wide table with one row per key (groupby-first). */
module Evaluation {
  import opened Common
  import opened Frames

  datatype EvalError =
    | MissingColumn(name: string)  // KeyError selecting the model column
    | NoSamples                    // the metric rejects an empty sample
    | MissingValue                 // the metric rejects NaN (an unmatched key or a NaN forecast)
    | NothingToConcatenate         // no model columns at all

  datatype ModelMetrics = ModelMetrics(model: string, mae: real, bias: real, score: real)

  /** One residual of one model, before consolidation. */
  datatype LongResidual = LongResidual(key: Key, model: string, residual: real)

  datatype Evaluation = Evaluation(metrics: seq<ModelMetrics>, residuals: ResidualTable)

  /** A row of the left join: the prediction and the matched actual (None = NaN). */
  datatype JoinedRow = JoinedRow(key: Key, predicted: Option<real>, actual: Option<real>)

  // ---------------------------------------------------------------------
  // The left join

  /** The actual values recorded at key k, in table order. */
  function ActualsAt(actuals: seq<ActualRow>, k: Key): (ys: seq<real>)
  {
    if actuals == [] then []
    else (if actuals[0].key == k then [actuals[0].y] else []) + ActualsAt(actuals[1..], k)
  }

  /** pandas left merge of one forecast row: one joined row per matching
      actual, or a single row with a missing actual. */
  function JoinRow(r: ForecastRow, actuals: seq<ActualRow>, model: string): (j: seq<JoinedRow>)
  {
    var ys := ActualsAt(actuals, r.key);
    if ys == [] then [JoinedRow(r.key, Cell(r.values, model), None)]
    else seq(|ys|, i requires 0 <= i < |ys| => JoinedRow(r.key, Cell(r.values, model), Some(ys[i])))
  }

  function LeftJoin(rows: seq<ForecastRow>, actuals: seq<ActualRow>, model: string): seq<JoinedRow>
  {
    if rows == [] then [] else JoinRow(rows[0], actuals, model) + LeftJoin(rows[1..], actuals, model)
  }

  predicate Complete(joined: seq<JoinedRow>)
  {
    forall i :: 0 <= i < |joined| ==> joined[i].predicted.Some? && joined[i].actual.Some?
  }

  /** `y_true - y_pred` over a join without missing values. */
  function Differences(joined: seq<JoinedRow>): (d: seq<real>)
    requires Complete(joined)
    ensures |d| == |joined|
    ensures forall i :: 0 <= i < |d| ==> d[i] == joined[i].actual.value - joined[i].predicted.value
  {
    seq(|joined|, i requires 0 <= i < |joined| => joined[i].actual.value - joined[i].predicted.value)
  }

  function ResidualRows(joined: seq<JoinedRow>, model: string): (rs: seq<LongResidual>)
    requires Complete(joined)
    ensures |rs| == |joined|
    ensures forall i :: 0 <= i < |rs| ==> rs[i] == LongResidual(joined[i].key, model, joined[i].actual.value - joined[i].predicted.value)
  {
    seq(|joined|, i requires 0 <= i < |joined| => LongResidual(joined[i].key, model, joined[i].actual.value - joined[i].predicted.value))
  }

  /** A forecast row is scorable when it has a prediction and at least one actual. */
  predicate Scorable(r: ForecastRow, actuals: seq<ActualRow>, model: string)
  {
    model in r.values && ActualsAt(actuals, r.key) != []
  }

  lemma {:induction false} ActualsAtSound(actuals: seq<ActualRow>, k: Key, y: real)
    requires y in ActualsAt(actuals, k)
    ensures exists t :: 0 <= t < |actuals| && actuals[t].key == k && actuals[t].y == y
  {
    if actuals[0].key == k && y == actuals[0].y {
      assert actuals[0].key == k;
    } else {
      ActualsAtSound(actuals[1..], k, y);
      var t :| 0 <= t < |actuals[1..]| && actuals[1..][t].key == k && actuals[1..][t].y == y;
      assert actuals[t + 1] == actuals[1..][t];
    }
  }

  lemma {:induction false} ActualsAtComplete(actuals: seq<ActualRow>, k: Key, t: int)
    requires 0 <= t < |actuals| && actuals[t].key == k
    ensures actuals[t].y in ActualsAt(actuals, k)
  {
    if t > 0 {
      ActualsAtComplete(actuals[1..], k, t - 1);
    }
  }

  lemma CompleteAppend(a: seq<JoinedRow>, b: seq<JoinedRow>)
    ensures Complete(a + b) <==> Complete(a) && Complete(b)
  {
    if Complete(a + b) {
      assert forall i :: 0 <= i < |a| ==> a[i] == (a + b)[i];
      assert forall i :: 0 <= i < |b| ==> b[i] == (a + b)[|a| + i];
    }
  }

  lemma JoinRowShape(r: ForecastRow, actuals: seq<ActualRow>, model: string)
    ensures |JoinRow(r, actuals, model)| >= 1
    ensures Complete(JoinRow(r, actuals, model)) <==> Scorable(r, actuals, model)
  {
    var j := JoinRow(r, actuals, model);
    var ys := ActualsAt(actuals, r.key);
    if ys == [] {
      assert j == [JoinedRow(r.key, Cell(r.values, model), None)];
      assert !j[0].actual.Some?;
    } else {
      assert |j| == |ys|;
      assert forall i :: 0 <= i < |j| ==> j[i] == JoinedRow(r.key, Cell(r.values, model), Some(ys[i]));
      if model !in r.values {
        assert !j[0].predicted.Some?;
      }
    }
  }

  /** Shape of the left join: at least one joined row per forecast row, and
      complete exactly when every forecast row is scorable. */
  lemma {:induction false} LeftJoinShape(rows: seq<ForecastRow>, actuals: seq<ActualRow>, model: string)
    ensures |LeftJoin(rows, actuals, model)| >= |rows|
    ensures Complete(LeftJoin(rows, actuals, model)) <==> forall j :: 0 <= j < |rows| ==> Scorable(rows[j], actuals, model)
  {
    if rows != [] {
      LeftJoinShape(rows[1..], actuals, model);
      JoinRowShape(rows[0], actuals, model);
      var head, tail := JoinRow(rows[0], actuals, model), LeftJoin(rows[1..], actuals, model);
      assert LeftJoin(rows, actuals, model) == head + tail;
      CompleteAppend(head, tail);
      assert (forall j :: 0 <= j < |rows| ==> Scorable(rows[j], actuals, model)) <==>
        Scorable(rows[0], actuals, model) && forall j :: 0 <= j < |rows[1..]| ==> Scorable(rows[1..][j], actuals, model)
      by {
        assert forall j :: 0 <= j < |rows[1..]| ==> rows[1..][j] == rows[j + 1];
        if Scorable(rows[0], actuals, model) && forall j :: 0 <= j < |rows[1..]| ==> Scorable(rows[1..][j], actuals, model) {
          forall j | 0 <= j < |rows| ensures Scorable(rows[j], actuals, model) {
            if j > 0 { assert rows[j] == rows[1..][j - 1]; }
          }
        }
      }
    }
  }

  /** Every joined row comes from a forecast row at the same key with the
      same prediction, and a present actual is an actual recorded at that key. */
  lemma {:induction false} LeftJoinProvenance(rows: seq<ForecastRow>, actuals: seq<ActualRow>, model: string, i: int)
    requires 0 <= i < |LeftJoin(rows, actuals, model)|
    ensures var jr := LeftJoin(rows, actuals, model)[i];
      && (exists j :: 0 <= j < |rows| && rows[j].key == jr.key && jr.predicted == Cell(rows[j].values, model))
      && (jr.actual.Some? ==> exists t :: 0 <= t < |actuals| && actuals[t].key == jr.key && actuals[t].y == jr.actual.value)
  {
    var head, tail := JoinRow(rows[0], actuals, model), LeftJoin(rows[1..], actuals, model);
    assert LeftJoin(rows, actuals, model) == head + tail;
    if i < |head| {
      var jr := head[i];
      assert rows[0].key == jr.key && jr.predicted == Cell(rows[0].values, model);
      if jr.actual.Some? {
        ActualsAtSound(actuals, rows[0].key, jr.actual.value);
      }
    } else {
      LeftJoinProvenance(rows[1..], actuals, model, i - |head|);
      assert tail[i - |head|] == (head + tail)[i];
      var j :| 0 <= j < |rows[1..]| && rows[1..][j].key == tail[i - |head|].key
        && tail[i - |head|].predicted == Cell(rows[1..][j].values, model);
      assert rows[j + 1] == rows[1..][j];
    }
  }

  // ---------------------------------------------------------------------
  // Scoring one model

  /** The body of the per-model loop: join, MAE, bias, score and residuals. */
  function EvaluateModel(f: ForecastTable, actuals: seq<ActualRow>, model: string): (r: Result<(ModelMetrics, seq<LongResidual>), EvalError>)
    ensures r.Ok? ==>
      var mm := r.value.0;
      && mm.model == model
      && mm.score == mm.mae + Abs(mm.bias)
      && 0.0 <= mm.mae <= mm.score <= 2.0 * mm.mae
    ensures r.Ok? ==> forall i :: 0 <= i < |r.value.1| ==> r.value.1[i].model == model
  {
    if model !in f.columns then Err(MissingColumn(model))
    else
      var joined := LeftJoin(f.rows, actuals, model);
      if joined == [] then Err(NoSamples)
      else if !Complete(joined) then Err(MissingValue)
      else
        var d := Differences(joined);
        var mae := Mean(AbsAll(d));
        var bias := Mean(d);
        AbsMeanAtMostMeanAbs(d);
        MeanNonNegative(AbsAll(d));
        Ok((ModelMetrics(model, mae, bias, mae + Abs(bias)), ResidualRows(joined, model)))
  }

  /** Success exactly when the column exists, there is a row, and every
      row has a prediction and a matching actual. */
  lemma EvaluateModelSucceedsIff(f: ForecastTable, actuals: seq<ActualRow>, model: string)
    ensures EvaluateModel(f, actuals, model).Ok? <==>
      model in f.columns && |f.rows| > 0 && forall j :: 0 <= j < |f.rows| ==> Scorable(f.rows[j], actuals, model)
  {
    LeftJoinShape(f.rows, actuals, model);
  }

  /** A forecast key with no actual is an error, never silently skipped. */
  lemma UnmatchedForecastIsAnError(f: ForecastTable, actuals: seq<ActualRow>, model: string, j: int)
    requires model in f.columns && 0 <= j < |f.rows|
    requires forall t :: 0 <= t < |actuals| ==> actuals[t].key != f.rows[j].key
    ensures EvaluateModel(f, actuals, model) == Err(MissingValue)
  {
    LeftJoinShape(f.rows, actuals, model);
    if ActualsAt(actuals, f.rows[j].key) != [] {
      var y := ActualsAt(actuals, f.rows[j].key)[0];
      ActualsAtSound(actuals, f.rows[j].key, y);
    }
    assert !Scorable(f.rows[j], actuals, model);
  }

  /** Each residual is actual - predicted at the same (unique_id, ds). */
  lemma ResidualIsActualMinusPredicted(f: ForecastTable, actuals: seq<ActualRow>, model: string, i: int)
    requires EvaluateModel(f, actuals, model).Ok?
    requires 0 <= i < |EvaluateModel(f, actuals, model).value.1|
    ensures var res := EvaluateModel(f, actuals, model).value.1[i];
      exists j, t :: 0 <= j < |f.rows| && 0 <= t < |actuals|
        && f.rows[j].key == res.key && actuals[t].key == res.key
        && model in f.rows[j].values
        && res.residual == actuals[t].y - f.rows[j].values[model]
  {
    var joined := LeftJoin(f.rows, actuals, model);
    LeftJoinProvenance(f.rows, actuals, model, i);
    var j :| 0 <= j < |f.rows| && f.rows[j].key == joined[i].key && joined[i].predicted == Cell(f.rows[j].values, model);
    var t :| 0 <= t < |actuals| && actuals[t].key == joined[i].key && actuals[t].y == joined[i].actual.value;
    assert EvaluateModel(f, actuals, model).value.1[i].residual == actuals[t].y - f.rows[j].values[model];
  }

  /** Forecasts equal to the actuals score zero and leave zero residuals. */
  lemma PerfectForecastScoresZero(f: ForecastTable, actuals: seq<ActualRow>, model: string)
    requires model in f.columns && |f.rows| > 0
    requires forall j :: 0 <= j < |f.rows| ==> Scorable(f.rows[j], actuals, model)
    requires forall j, t :: 0 <= j < |f.rows| && 0 <= t < |actuals| && actuals[t].key == f.rows[j].key ==>
      model in f.rows[j].values && actuals[t].y == f.rows[j].values[model]
    ensures var r := EvaluateModel(f, actuals, model);
      && r.Ok?
      && r.value.0.mae == 0.0 && r.value.0.bias == 0.0 && r.value.0.score == 0.0
      && forall i :: 0 <= i < |r.value.1| ==> r.value.1[i].residual == 0.0
  {
    EvaluateModelSucceedsIff(f, actuals, model);
    var r := EvaluateModel(f, actuals, model);
    forall i | 0 <= i < |r.value.1| ensures r.value.1[i].residual == 0.0 {
      ResidualIsActualMinusPredicted(f, actuals, model, i);
    }
    var joined := LeftJoin(f.rows, actuals, model);
    var d := Differences(joined);
    assert forall i :: 0 <= i < |d| ==> d[i] == r.value.1[i].residual;
    SumOfZeros(d);
    SumOfZeros(AbsAll(d));
  }

  // ---------------------------------------------------------------------
  // Consolidation: groupby(["unique_id", "ds"]).first()

  predicate StrictlySorted(t: seq<ResidualRow>)
  {
    forall i, j :: 0 <= i < j < |t| ==> KeyLess(t[i].key, t[j].key)
  }

  /** The residual of `model` at key k in a consolidated table. */
  function Lookup(t: seq<ResidualRow>, k: Key, model: string): Option<real>
  {
    if t == [] then None
    else if t[0].key == k then Cell(t[0].values, model)
    else Lookup(t[1..], k, model)
  }

  /** The first residual of `model` recorded at key k. */
  function FirstResidual(rs: seq<LongResidual>, k: Key, model: string): Option<real>
  {
    if rs == [] then None
    else if rs[0].key == k && rs[0].model == model then Some(rs[0].residual)
    else FirstResidual(rs[1..], k, model)
  }

  /** Adds one residual into a key-sorted table; it overrides what is there,
      so folding from the back leaves the first occurrence in place. */
  function Insert(t: seq<ResidualRow>, x: LongResidual): seq<ResidualRow>
  {
    if t == [] then [ResidualRow(x.key, map[x.model := x.residual])]
    else if t[0].key == x.key then [ResidualRow(x.key, t[0].values[x.model := x.residual])] + t[1..]
    else if KeyLess(x.key, t[0].key) then [ResidualRow(x.key, map[x.model := x.residual])] + t
    else [t[0]] + Insert(t[1..], x)
  }

  function GroupFirst(rs: seq<LongResidual>): seq<ResidualRow>
  {
    if rs == [] then [] else Insert(GroupFirst(rs[1..]), rs[0])
  }

  function RowKeys(t: seq<ResidualRow>): set<Key>
  {
    set i | 0 <= i < |t| :: t[i].key
  }

  function ResidualKeys(rs: seq<LongResidual>): set<Key>
  {
    set i | 0 <= i < |rs| :: rs[i].key
  }

  lemma {:induction false} LookupAbsent(t: seq<ResidualRow>, k: Key, model: string)
    requires k !in RowKeys(t)
    ensures Lookup(t, k, model).None?
  {
    if t != [] {
      assert t[0].key in RowKeys(t);
      assert RowKeys(t[1..]) <= RowKeys(t) by {
        forall i | 0 <= i < |t[1..]| ensures t[1..][i].key in RowKeys(t) {
          assert t[1..][i] == t[i + 1];
        }
      }
      LookupAbsent(t[1..], k, model);
    }
  }

  lemma {:induction false} InsertFacts(t: seq<ResidualRow>, x: LongResidual)
    requires StrictlySorted(t)
    ensures StrictlySorted(Insert(t, x))
    ensures RowKeys(Insert(t, x)) == RowKeys(t) + {x.key}
    ensures forall k, m ::
      Lookup(Insert(t, x), k, m) == if k == x.key && m == x.model then Some(x.residual) else Lookup(t, k, m)
  {
    if t == [] {
      InsertIntoEmpty(x);
    } else if t[0].key == x.key {
      InsertAtKey(t, x);
    } else if KeyLess(x.key, t[0].key) {
      InsertBefore(t, x);
    } else {
      KeyLessTotal(x.key, t[0].key);
      assert StrictlySorted(t[1..]);
      InsertFacts(t[1..], x);
      InsertAfterKeys(t, x);
      InsertAfterSorted(t, x);
      InsertAfterLookup(t, x);
    }
  }

  lemma InsertIntoEmpty(x: LongResidual)
    ensures var r := Insert([], x);
      && StrictlySorted(r)
      && RowKeys(r) == {x.key}
      && forall k, m :: Lookup(r, k, m) == if k == x.key && m == x.model then Some(x.residual) else None
  {
    var r := Insert([], x);
    assert r == [ResidualRow(x.key, map[x.model := x.residual])];
    assert RowKeys(r) == {x.key} by {
      assert r[0].key in RowKeys(r);
    }
    forall k, m ensures Lookup(r, k, m) == if k == x.key && m == x.model then Some(x.residual) else None {
      assert r[1..] == [];
    }
  }

  lemma InsertAtKey(t: seq<ResidualRow>, x: LongResidual)
    requires StrictlySorted(t) && t != [] && t[0].key == x.key
    ensures StrictlySorted(Insert(t, x))
    ensures RowKeys(Insert(t, x)) == RowKeys(t) + {x.key}
    ensures forall k, m ::
      Lookup(Insert(t, x), k, m) == if k == x.key && m == x.model then Some(x.residual) else Lookup(t, k, m)
  {
    var r := Insert(t, x);
    assert RowKeys(r) == RowKeys(t) by {
      forall i | 0 <= i < |r| ensures r[i].key == t[i].key { }
    }
    assert forall i :: 0 <= i < |r| ==> r[i].key == t[i].key;
    forall k, m ensures Lookup(r, k, m) == if k == x.key && m == x.model then Some(x.residual) else Lookup(t, k, m) {
      if k != x.key {
        assert r[1..] == t[1..];
      }
    }
  }

  lemma InsertBefore(t: seq<ResidualRow>, x: LongResidual)
    requires StrictlySorted(t) && t != [] && t[0].key != x.key && KeyLess(x.key, t[0].key)
    ensures StrictlySorted(Insert(t, x))
    ensures RowKeys(Insert(t, x)) == RowKeys(t) + {x.key}
    ensures forall k, m ::
      Lookup(Insert(t, x), k, m) == if k == x.key && m == x.model then Some(x.residual) else Lookup(t, k, m)
  {
    var r := Insert(t, x);
    assert r == [r[0]] + t;
    forall i, j | 0 <= i < j < |r| ensures KeyLess(r[i].key, r[j].key) {
      if i == 0 && j > 1 {
        KeyLessTransitive(x.key, t[0].key, t[j - 1].key);
      }
    }
    assert RowKeys(r) == RowKeys(t) + {x.key} by {
      forall k | k in RowKeys(t) ensures k in RowKeys(r) {
        var i :| 0 <= i < |t| && t[i].key == k;
        assert r[i + 1] == t[i];
      }
      forall k | k in RowKeys(r) ensures k in RowKeys(t) + {x.key} {
        var i :| 0 <= i < |r| && r[i].key == k;
        if i > 0 {
          assert r[i] == t[i - 1];
        }
      }
    }
    forall k, m ensures Lookup(r, k, m) == if k == x.key && m == x.model then Some(x.residual) else Lookup(t, k, m) {
      if k == x.key {
        assert x.key !in RowKeys(t) by {
          forall i | 0 <= i < |t| ensures t[i].key != x.key {
            if i > 0 {
              KeyLessTransitive(x.key, t[0].key, t[i].key);
            }
            KeyLessIrreflexive(x.key);
          }
        }
        LookupAbsent(t, k, m);
      } else {
        assert r[1..] == t;
      }
    }
  }

  /** Past the head of the table: the head stays first, the rest is the insertion into the tail. */
  lemma InsertAfterKeys(t: seq<ResidualRow>, x: LongResidual)
    requires t != [] && t[0].key != x.key && !KeyLess(x.key, t[0].key)
    requires RowKeys(Insert(t[1..], x)) == RowKeys(t[1..]) + {x.key}
    ensures Insert(t, x) == [t[0]] + Insert(t[1..], x)
    ensures RowKeys(Insert(t, x)) == RowKeys(t) + {x.key}
  {
    var r := Insert(t, x);
    var rest := Insert(t[1..], x);
    assert r == [t[0]] + rest;
    assert RowKeys(t) == {t[0].key} + RowKeys(t[1..]) by {
      forall k | k in RowKeys(t) ensures k in {t[0].key} + RowKeys(t[1..]) {
        var i :| 0 <= i < |t| && t[i].key == k;
        if i > 0 {
          assert t[1..][i - 1] == t[i];
        }
      }
      forall k | k in RowKeys(t[1..]) ensures k in RowKeys(t) {
        var i :| 0 <= i < |t[1..]| && t[1..][i].key == k;
        assert t[i + 1] == t[1..][i];
      }
      assert t[0].key in RowKeys(t);
    }
    assert RowKeys(r) == {t[0].key} + RowKeys(rest) by {
      forall k | k in RowKeys(r) ensures k in {t[0].key} + RowKeys(rest) {
        var i :| 0 <= i < |r| && r[i].key == k;
        if i > 0 {
          assert rest[i - 1] == r[i];
        }
      }
      forall k | k in RowKeys(rest) ensures k in RowKeys(r) {
        var i :| 0 <= i < |rest| && rest[i].key == k;
        assert r[i + 1] == rest[i];
      }
      assert r[0].key in RowKeys(r);
    }
  }

  lemma InsertAfterSorted(t: seq<ResidualRow>, x: LongResidual)
    requires StrictlySorted(t) && t != [] && KeyLess(t[0].key, x.key)
    requires Insert(t, x) == [t[0]] + Insert(t[1..], x)
    requires StrictlySorted(Insert(t[1..], x))
    requires RowKeys(Insert(t[1..], x)) == RowKeys(t[1..]) + {x.key}
    ensures StrictlySorted(Insert(t, x))
  {
    var r := Insert(t, x);
    var rest := Insert(t[1..], x);
    forall i, j | 0 <= i < j < |r| ensures KeyLess(r[i].key, r[j].key) {
      if i == 0 {
        assert r[j].key in RowKeys(rest) by {
          assert rest[j - 1] == r[j];
        }
        if r[j].key != x.key {
          var s :| 0 <= s < |t[1..]| && t[1..][s].key == r[j].key;
          assert t[s + 1] == t[1..][s];
        }
      } else {
        assert r[i] == rest[i - 1] && r[j] == rest[j - 1];
      }
    }
  }

  lemma InsertAfterLookup(t: seq<ResidualRow>, x: LongResidual)
    requires t != [] && t[0].key != x.key
    requires Insert(t, x) == [t[0]] + Insert(t[1..], x)
    requires forall k, m ::
      Lookup(Insert(t[1..], x), k, m) == if k == x.key && m == x.model then Some(x.residual) else Lookup(t[1..], k, m)
    ensures forall k, m ::
      Lookup(Insert(t, x), k, m) == if k == x.key && m == x.model then Some(x.residual) else Lookup(t, k, m)
  {
    var r := Insert(t, x);
    forall k, m ensures Lookup(r, k, m) == if k == x.key && m == x.model then Some(x.residual) else Lookup(t, k, m) {
      assert r[1..] == Insert(t[1..], x);
    }
  }

  /** The consolidated table: strictly sorted by key (so one row per key),
      exactly the keys seen, and each model keeps its first residual. */
  lemma {:induction false} GroupFirstFacts(rs: seq<LongResidual>)
    ensures StrictlySorted(GroupFirst(rs))
    ensures RowKeys(GroupFirst(rs)) == ResidualKeys(rs)
    ensures forall k, m :: Lookup(GroupFirst(rs), k, m) == FirstResidual(rs, k, m)
  {
    if rs != [] {
      GroupFirstFacts(rs[1..]);
      InsertFacts(GroupFirst(rs[1..]), rs[0]);
      assert ResidualKeys(rs) == ResidualKeys(rs[1..]) + {rs[0].key} by {
        forall k | k in ResidualKeys(rs) ensures k in ResidualKeys(rs[1..]) + {rs[0].key} {
          var i :| 0 <= i < |rs| && rs[i].key == k;
          if i > 0 {
            assert rs[1..][i - 1] == rs[i];
          }
        }
        forall k | k in ResidualKeys(rs[1..]) ensures k in ResidualKeys(rs) {
          var i :| 0 <= i < |rs[1..]| && rs[1..][i].key == k;
          assert rs[i + 1] == rs[1..][i];
        }
      }
    }
  }

  /** In a strictly sorted table, the row at a key answers the lookups for it. */
  lemma {:induction false} LookupAt(t: seq<ResidualRow>, i: int, m: string)
    requires StrictlySorted(t) && 0 <= i < |t|
    ensures Lookup(t, t[i].key, m) == Cell(t[i].values, m)
  {
    if i > 0 {
      KeyLessIrreflexive(t[i].key);
      assert t[0].key != t[i].key;
      assert StrictlySorted(t[1..]);
      LookupAt(t[1..], i - 1, m);
    }
  }

  // ---------------------------------------------------------------------
  // All model columns

  /** What scoring one column yields. */
  type Outcome = Result<(ModelMetrics, seq<LongResidual>), EvalError>

  /** The outcome of each of the columns, in column order. */
  function Outcomes(f: ForecastTable, actuals: seq<ActualRow>, cols: seq<string>): (rs: seq<Outcome>)
    ensures |rs| == |cols|
  {
    seq(|cols|, i requires 0 <= i < |cols| => EvaluateModel(f, actuals, cols[i]))
  }

  /** The loop over forecast_cols, given each column's outcome: the first
      failing column decides the error; otherwise metrics and residuals in
      column order. */
  function Collect(rs: seq<Outcome>): Result<(seq<ModelMetrics>, seq<LongResidual>), EvalError>
  {
    if rs == [] then Ok(([], []))
    else match Collect(rs[..|rs| - 1])
      case Err(e) => Err(e)
      case Ok(acc) =>
        match rs[|rs| - 1]
        case Err(e) => Err(e)
        case Ok(one) => Ok((acc.0 + [one.0], acc.1 + one.1))
  }

  function EvaluateColumns(f: ForecastTable, actuals: seq<ActualRow>, cols: seq<string>): Result<(seq<ModelMetrics>, seq<LongResidual>), EvalError>
  {
    Collect(Outcomes(f, actuals, cols))
  }

  function Evaluate(f: ForecastTable, actuals: seq<ActualRow>, cols: seq<string>): Result<Evaluation, EvalError>
  {
    match EvaluateColumns(f, actuals, cols)
    case Err(e) => Err(e)
    case Ok(acc) =>
      if cols == [] then Err(NothingToConcatenate)
      else Ok(Evaluation(acc.0, ResidualTable(cols, GroupFirst(acc.1))))
  }

  /** The loop completes exactly when every outcome is a success, and then
      holds one metrics record per outcome, in order. */
  lemma {:induction false} CollectFacts(rs: seq<Outcome>)
    ensures Collect(rs).Ok? <==> forall i :: 0 <= i < |rs| ==> rs[i].Ok?
    ensures Collect(rs).Ok? ==>
      var ms := Collect(rs).value.0;
      && |ms| == |rs|
      && forall i :: 0 <= i < |rs| ==> ms[i] == rs[i].value.0
  {
    if rs != [] {
      var init := rs[..|rs| - 1];
      CollectFacts(init);
      assert forall i :: 0 <= i < |init| ==> init[i] == rs[i];
    }
  }

  /** One metrics record per column, in order, each the column's own score. */
  lemma EvaluateColumnsFacts(f: ForecastTable, actuals: seq<ActualRow>, cols: seq<string>)
    ensures EvaluateColumns(f, actuals, cols).Ok? <==> forall i :: 0 <= i < |cols| ==> EvaluateModel(f, actuals, cols[i]).Ok?
    ensures EvaluateColumns(f, actuals, cols).Ok? ==>
      var ms := EvaluateColumns(f, actuals, cols).value.0;
      && |ms| == |cols|
      && forall i :: 0 <= i < |cols| ==> ms[i] == EvaluateModel(f, actuals, cols[i]).value.0
  {
    var rs := Outcomes(f, actuals, cols);
    CollectFacts(rs);
    assert forall i :: 0 <= i < |cols| ==> rs[i] == EvaluateModel(f, actuals, cols[i]);
  }

  /** What `evaluate_forecasts` returns, as one statement. */
  lemma EvaluateFacts(f: ForecastTable, actuals: seq<ActualRow>, cols: seq<string>)
    ensures Evaluate(f, actuals, cols).Ok? <==>
      |cols| > 0 && forall i :: 0 <= i < |cols| ==> EvaluateModel(f, actuals, cols[i]).Ok?
    ensures Evaluate(f, actuals, cols).Ok? ==>
      var e := Evaluate(f, actuals, cols).value;
      var all := EvaluateColumns(f, actuals, cols).value.1;
      && |e.metrics| == |cols|
      && (forall i :: 0 <= i < |cols| ==> e.metrics[i] == EvaluateModel(f, actuals, cols[i]).value.0)
      && e.residuals.columns == cols
      && StrictlySorted(e.residuals.rows)
      && RowKeys(e.residuals.rows) == ResidualKeys(all)
      && forall i, m :: 0 <= i < |e.residuals.rows| ==>
           Cell(e.residuals.rows[i].values, m) == FirstResidual(all, e.residuals.rows[i].key, m)
  {
    EvaluateColumnsFacts(f, actuals, cols);
    if Evaluate(f, actuals, cols).Ok? {
      var all := EvaluateColumns(f, actuals, cols).value.1;
      GroupFirstFacts(all);
      var t := GroupFirst(all);
      forall i, m | 0 <= i < |t| ensures Cell(t[i].values, m) == FirstResidual(all, t[i].key, m) {
        LookupAt(t, i, m);
      }
    }
  }

  /** evaluate_forecasts: the loop over the model columns, appending one
      metrics record and one residual frame per column, then the
      consolidation.  Its result is a function of its inputs, so evaluating
      the same run twice yields identical scores (zero score drift). */
  method EvaluateForecasts(f: ForecastTable, actuals: seq<ActualRow>, cols: seq<string>) returns (r: Result<Evaluation, EvalError>)
    ensures r == Evaluate(f, actuals, cols)
  {
    ghost var outcomes := Outcomes(f, actuals, cols);
    var metrics: seq<ModelMetrics> := [];
    var residuals: seq<LongResidual> := [];
    var i := 0;
    while i < |cols|
      invariant 0 <= i <= |cols|
      invariant Collect(outcomes[..i]) == Ok((metrics, residuals))
    {
      assert outcomes[..i + 1][..i] == outcomes[..i];
      var one := EvaluateModel(f, actuals, cols[i]);
      assert one == outcomes[i];
      if one.Err? {
        assert Collect(outcomes[..i + 1]) == Err(one.error);
        CollectPrefixError(outcomes, i + 1);
        return Err(one.error);
      }
      metrics := metrics + [one.value.0];
      residuals := residuals + one.value.1;
      i := i + 1;
    }
    assert outcomes[..i] == outcomes;
    if cols == [] {
      return Err(NothingToConcatenate);
    }
    r := Ok(Evaluation(metrics, ResidualTable(cols, GroupFirst(residuals))));
  }

  /** An error in a prefix of the columns is the error of all of them. */
  lemma {:induction false} CollectPrefixError(rs: seq<Outcome>, n: int)
    requires 0 <= n <= |rs| && Collect(rs[..n]).Err?
    ensures Collect(rs) == Collect(rs[..n])
    decreases |rs| - n
  {
    if n < |rs| {
      assert rs[..n + 1][..n] == rs[..n];
      CollectPrefixError(rs, n + 1);
    } else {
      assert rs[..n] == rs;
    }
  }
}
