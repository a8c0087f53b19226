/** The forecastability classifier: a decision table over the average
    demand interval (ADI), the squared coefficient of variation (CV²) and
    the normalised spectral entropy, and the ADI of a single series.  The
    coefficient of variation and the spectral entropy come from numerical
    libraries and are abstract functions here. */
module Forecastability {
  import opened Common

  const IntermittentAdi: real := 1.32
  const LumpyCv2: real := 0.49
  const NoisyEntropy: real := 0.6
  const SeasonalEntropy: real := 0.3

  datatype Label = Lumpy | Intermittent | Noisy | StronglySeasonal | Moderate

  /** The text stored in the metrics for each label. */
  function LabelText(l: Label): string
  {
    match l
    case Lumpy => "Lumpy"
    case Intermittent => "Intermittent"
    case Noisy => "Noisy"
    case StronglySeasonal => "Strongly Seasonal"
    case Moderate => "Moderate"
  }

  /** classify_forecastability: the first matching row of the table wins. */
  function Classify(adi: real, cv2: real, entropy: real): Label
  {
    if adi >= IntermittentAdi && cv2 >= LumpyCv2 then Lumpy
    else if adi >= IntermittentAdi then Intermittent
    else if entropy > NoisyEntropy then Noisy
    else if entropy < SeasonalEntropy then StronglySeasonal
    else Moderate
  }

  // ---------------------------------------------------------------------
  // compute_forecastability_metrics

  /** A statistic of a series computed by a numerical library
      (scipy.stats.variation with ddof=1, the periodogram entropy). */
  type Statistic = seq<real> -> real

  datatype ForecastabilityError =
    | NotOneSeries     // the assertion that the frame holds exactly one unique_id
    | ZeroDivision     // no nonzero value: `len(y) / 0`

  datatype ForecastabilityMetrics = ForecastabilityMetrics(adi: real, cv2: real, entropy: real, classification: Label)

  /** One row of the single-series frame: its unique_id and its value. */
  datatype SeriesRow = SeriesRow(uniqueId: string, y: real)

  function UniqueIds(rows: seq<SeriesRow>): set<string>
  {
    set i | 0 <= i < |rows| :: rows[i].uniqueId
  }

  /** np.count_nonzero(y). */
  function CountNonzero(y: seq<real>): (n: nat)
    ensures n <= |y|
    ensures n == 0 <==> forall i :: 0 <= i < |y| ==> y[i] == 0.0
  {
    if y == [] then 0
    else
      var rest := CountNonzero(y[1..]);
      assert forall i :: 0 < i < |y| ==> y[i] == y[1..][i - 1];
      (if y[0] != 0.0 then 1 else 0) + rest
  }

  function Values(rows: seq<SeriesRow>): (y: seq<real>)
    ensures |y| == |rows| && forall i :: 0 <= i < |rows| ==> y[i] == rows[i].y
  {
    seq(|rows|, i requires 0 <= i < |rows| => rows[i].y)
  }

  /** `len(y) / np.count_nonzero(y)`, after the single-series assertion. */
  function Adi(rows: seq<SeriesRow>): (r: Result<real, ForecastabilityError>)
    ensures r.Ok? ==> r.value >= 1.0
  {
    if |UniqueIds(rows)| != 1 then Err(NotOneSeries)
    else
      var n := CountNonzero(Values(rows));
      if n == 0 then Err(ZeroDivision)
      else Ok(Ratio(|rows|, n))
  }

  /** `len / count` as a real, at least 1 when the count is a positive part of the length. */
  function Ratio(len: nat, count: nat): (q: real)
    requires 0 < count <= len
    ensures q >= 1.0
  {
    DivMonotone(count as real, len as real, count as real);
    len as real / count as real
  }

  /** compute_forecastability_metrics, before rounding. */
  function ComputeForecastabilityMetrics(rows: seq<SeriesRow>, variation: Statistic, spectralEntropy: Statistic): (r: Result<ForecastabilityMetrics, ForecastabilityError>)
    ensures r.Ok? <==> Adi(rows).Ok?
    ensures r.Ok? ==> r.value.adi == Adi(rows).value && r.value.classification == Classify(r.value.adi, r.value.cv2, r.value.entropy)
    ensures r.Ok? ==> r.value.cv2 >= 0.0
  {
    var adi :- Adi(rows);
    var y := Values(rows);
    var cv := variation(y);
    var cv2 := cv * cv;
    var entropy := spectralEntropy(y);
    Ok(ForecastabilityMetrics(adi, cv2, entropy, Classify(adi, cv2, entropy)))
  }

  // ---------------------------------------------------------------------
  // Properties

  /** Each label holds exactly under its own conditions. */
  lemma ClassifyIff(adi: real, cv2: real, entropy: real)
    ensures Classify(adi, cv2, entropy) == Lumpy <==> adi >= 1.32 && cv2 >= 0.49
    ensures Classify(adi, cv2, entropy) == Intermittent <==> adi >= 1.32 && cv2 < 0.49
    ensures Classify(adi, cv2, entropy) == Noisy <==> adi < 1.32 && entropy > 0.6
    ensures Classify(adi, cv2, entropy) == StronglySeasonal <==> adi < 1.32 && entropy < 0.3
    ensures Classify(adi, cv2, entropy) == Moderate <==> adi < 1.32 && 0.3 <= entropy <= 0.6
  {
  }

  /** The five labels have five different texts. */
  lemma LabelTextInjective(a: Label, b: Label)
    ensures LabelText(a) == LabelText(b) ==> a == b
  {
  }

  /** An intermittent or lumpy series is classified without looking at the entropy. */
  lemma EntropyIgnoredWhenIntermittent(adi: real, cv2: real, e1: real, e2: real)
    requires adi >= 1.32
    ensures Classify(adi, cv2, e1) == Classify(adi, cv2, e2)
  {
  }

  /** The frame holds exactly one series iff every row carries the first row's id. */
  lemma OneSeriesIff(rows: seq<SeriesRow>)
    ensures |UniqueIds(rows)| == 1 <==> rows != [] && forall i :: 0 <= i < |rows| ==> rows[i].uniqueId == rows[0].uniqueId
  {
    var ids := UniqueIds(rows);
    if rows != [] && forall i :: 0 <= i < |rows| ==> rows[i].uniqueId == rows[0].uniqueId {
      assert ids == {rows[0].uniqueId};
    }
    if |ids| == 1 {
      var c :| c in ids;
      assert |ids - {c}| == 0;
      forall i | 0 <= i < |rows| ensures rows[i].uniqueId == c {
        assert rows[i].uniqueId in ids;
        assert rows[i].uniqueId !in ids - {c};
      }
    }
  }

  /** For a single series the ADI is defined exactly when some value is
      nonzero, and a series without zeros has ADI exactly 1. */
  lemma AdiOfSeries(rows: seq<SeriesRow>)
    requires rows != [] && forall i :: 0 <= i < |rows| ==> rows[i].uniqueId == rows[0].uniqueId
    ensures Adi(rows).Ok? <==> exists i :: 0 <= i < |rows| && rows[i].y != 0.0
    ensures (forall i :: 0 <= i < |rows| ==> rows[i].y != 0.0) ==> Adi(rows) == Ok(1.0)
  {
    OneSeriesIff(rows);
    AdiOfOneSeries(rows);
    SomeNonzeroIff(rows);
    if forall i :: 0 <= i < |rows| ==> rows[i].y != 0.0 {
      AllNonzeroCount(Values(rows));
    }
  }

  lemma AdiOfOneSeries(rows: seq<SeriesRow>)
    requires |UniqueIds(rows)| == 1
    ensures Adi(rows).Ok? <==> CountNonzero(Values(rows)) != 0
    ensures CountNonzero(Values(rows)) == |rows| > 0 ==> Adi(rows) == Ok(1.0)
  {
    var n := |rows|;
    if CountNonzero(Values(rows)) == n > 0 {
      assert Ratio(n, n) == n as real / n as real == 1.0;
    }
  }

  lemma SomeNonzeroIff(rows: seq<SeriesRow>)
    ensures CountNonzero(Values(rows)) != 0 <==> exists i :: 0 <= i < |rows| && rows[i].y != 0.0
  {
    var y := Values(rows);
    if exists i :: 0 <= i < |rows| && rows[i].y != 0.0 {
      var i :| 0 <= i < |rows| && rows[i].y != 0.0;
      assert y[i] != 0.0;
    }
  }

  lemma {:induction false} AllNonzeroCount(y: seq<real>)
    requires forall i :: 0 <= i < |y| ==> y[i] != 0.0
    ensures CountNonzero(y) == |y|
  {
    if y != [] {
      assert forall i :: 0 <= i < |y[1..]| ==> y[1..][i] == y[i + 1];
      AllNonzeroCount(y[1..]);
    }
  }

  /** A frame with several series, or with none, is rejected before any statistic. */
  lemma SeveralSeriesRejected(rows: seq<SeriesRow>, i: int, j: int, variation: Statistic, spectralEntropy: Statistic)
    requires 0 <= i < |rows| && 0 <= j < |rows| && rows[i].uniqueId != rows[j].uniqueId
    ensures ComputeForecastabilityMetrics(rows, variation, spectralEntropy) == Err(NotOneSeries)
  {
    OneSeriesIff(rows);
  }
}
