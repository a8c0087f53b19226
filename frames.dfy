/** The pandas DataFrames the core passes around, reduced to what it reads:
    rows keyed by (unique_id, ds) and named real-valued columns.  A cell
    that is absent from a row's map is a missing value (NaN). */
module Frames {
  import opened Common

  /** One row of a forecast table: a prediction per model column. */
  datatype ForecastRow = ForecastRow(key: Key, values: map<string, real>)

  /** A forecast DataFrame: its model columns and its rows, in order. */
  datatype ForecastTable = ForecastTable(columns: seq<string>, rows: seq<ForecastRow>)

  /** One row of the held-out actuals (`y` is non-null by schema). */
  datatype ActualRow = ActualRow(key: Key, y: real)

  /** One row of the wide residual table: a residual per model column. */
  datatype ResidualRow = ResidualRow(key: Key, values: map<string, real>)

  datatype ResidualTable = ResidualTable(columns: seq<string>, rows: seq<ResidualRow>)

  function Cell(values: map<string, real>, column: string): (r: Option<real>)
    ensures r.Some? <==> column in values
  {
    if column in values then Some(values[column]) else None
  }

  /** `residuals_df[column]`, one cell per row (the caller checks the column exists). */
  function Column(t: ResidualTable, column: string): (r: seq<Option<real>>)
    ensures |r| == |t.rows|
    ensures forall i :: 0 <= i < |r| ==> r[i] == Cell(t.rows[i].values, column)
  {
    seq(|t.rows|, i requires 0 <= i < |t.rows| => Cell(t.rows[i].values, column))
  }
}
