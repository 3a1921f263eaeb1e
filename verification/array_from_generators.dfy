/**
  The generators written as `Array.from({ length: n }, (_, i) => ...)` comprehensions:
  figures S2, S5, S6, S8, S9, S10, S13 and S15. Each record consumes a fixed number of
  draws, in the order its fields are written in the source; record i therefore reads
  draws `k * i` to `k * i + k - 1`, where k is the number of draws per record.
 */
module ArrayFromGenerators {
  import opened Draws

  // ---------------------------------------------------------------------------
  // Labels picked with `[...][Math.floor(Math.random() * n)]`
  // ---------------------------------------------------------------------------

  /** The set a point of figure S2 belongs to. */
  datatype Split = Train | Validation | Test

  const Splits: seq<Split> := [Train, Validation, Test]

  /** `['Train', 'Validation', 'Test'][Math.floor(r * 3)]`: each label takes one third of [0, 1). */
  function PickSplit(r: Draw): (s: Split)
    ensures s == Train <==> r < 1.0 / 3.0
    ensures s == Validation <==> 1.0 / 3.0 <= r < 2.0 / 3.0
    ensures s == Test <==> 2.0 / 3.0 <= r
  {
    Splits[ChoiceIndex(r, |Splits|)]
  }

  /** The kind of a neighbouring building in figure S5. */
  datatype BuildingType = Residential | Commercial | Industrial | Mixed

  const BuildingTypes: seq<BuildingType> := [Residential, Commercial, Industrial, Mixed]

  /** `['Residential', ..., 'Mixed'][Math.floor(r * 4)]`: each label takes one quarter of [0, 1). */
  function PickBuildingType(r: Draw): (t: BuildingType)
    ensures t == Residential <==> r < 0.25
    ensures t == Commercial <==> 0.25 <= r < 0.5
    ensures t == Industrial <==> 0.5 <= r < 0.75
    ensures t == Mixed <==> 0.75 <= r
  {
    BuildingTypes[ChoiceIndex(r, |BuildingTypes|)]
  }

  // ---------------------------------------------------------------------------
  // Figure S2: spatial distribution of the training, validation and test sets
  // ---------------------------------------------------------------------------

  datatype SplitPoint = SplitPoint(x: real, y: real, split: Split)

  const SplitPointCount: nat := 100

  /** The inline data builder of figure S2: 100 points, uniform in [0, 100) x [0, 100). */
  function SplitPoints(rs: seq<Draw>): (data: seq<SplitPoint>)
    requires |rs| >= 3 * SplitPointCount
    ensures |data| == SplitPointCount
    ensures forall i :: 0 <= i < |data| ==> 0.0 <= data[i].x < 100.0 && 0.0 <= data[i].y < 100.0
    ensures forall i :: 0 <= i < |data| ==> data[i].split == PickSplit(rs[3 * i + 2])
  {
    seq(SplitPointCount, i requires 0 <= i < SplitPointCount =>
      var xDraw: real, yDraw: real := rs[3 * i], rs[3 * i + 1];
      SplitPoint(xDraw * 100.0, yDraw * 100.0, PickSplit(rs[3 * i + 2])))
  }

  // ---------------------------------------------------------------------------
  // Figure S5: spatial context attention weights
  // ---------------------------------------------------------------------------

  datatype AttentionPoint = AttentionPoint(building: int, weight: real, distance: real, kind: BuildingType)

  const AttentionPointCount: nat := 40

  /** `generateAttentionWeights`: weights in [0.1, 0.9), distances in [0, 200). */
  function AttentionWeights(rs: seq<Draw>): (data: seq<AttentionPoint>)
    requires |rs| >= 3 * AttentionPointCount
    ensures |data| == AttentionPointCount
    ensures forall i :: 0 <= i < |data| ==> data[i].building == i
    ensures forall i :: 0 <= i < |data| ==> 0.1 <= data[i].weight < 0.9 && 0.0 <= data[i].distance < 200.0
    ensures forall i :: 0 <= i < |data| ==> data[i].kind == PickBuildingType(rs[3 * i + 2])
  {
    seq(AttentionPointCount, i requires 0 <= i < AttentionPointCount =>
      var weightDraw: real, distanceDraw: real := rs[3 * i], rs[3 * i + 1];
      AttentionPoint(i, weightDraw * 0.8 + 0.1, distanceDraw * 200.0, PickBuildingType(rs[3 * i + 2])))
  }

  // ---------------------------------------------------------------------------
  // Figure S6: temporal attention patterns
  // ---------------------------------------------------------------------------

  datatype HourAttention = HourAttention(hour: int, morning: real, evening: real, night: real)

  const Hours: nat := 24

  /** The hour windows that receive a boost. */
  predicate MorningPeak(h: int) { 6 <= h <= 9 }
  predicate EveningPeak(h: int) { 17 <= h <= 21 }
  predicate NightWindow(h: int) { h >= 22 || h <= 5 }

  /**
    `generateTemporalAttention`: each series is noise plus 0.1 outside its window and
    plus a larger boost inside it, so its range tells whether the hour is in the window.
   */
  function TemporalAttention(rs: seq<Draw>): (data: seq<HourAttention>)
    requires |rs| >= 3 * Hours
    ensures |data| == Hours
    ensures forall h :: 0 <= h < |data| ==> data[h].hour == h
    ensures forall h :: 0 <= h < |data| ==>
      if MorningPeak(h) then 0.5 <= data[h].morning < 0.8 else 0.1 <= data[h].morning < 0.4
    ensures forall h :: 0 <= h < |data| ==>
      if EveningPeak(h) then 0.6 <= data[h].evening < 0.9 else 0.1 <= data[h].evening < 0.4
    ensures forall h :: 0 <= h < |data| ==>
      if NightWindow(h) then 0.3 <= data[h].night < 0.5 else 0.1 <= data[h].night < 0.3
  {
    seq(Hours, i requires 0 <= i < Hours =>
      var morningDraw: real, eveningDraw: real, nightDraw: real := rs[3 * i], rs[3 * i + 1], rs[3 * i + 2];
      HourAttention(i,
        morningDraw * 0.3 + (if i >= 6 && i <= 9 then 0.5 else 0.1),
        eveningDraw * 0.3 + (if i >= 17 && i <= 21 then 0.6 else 0.1),
        nightDraw * 0.2 + (if i >= 22 || i <= 5 then 0.3 else 0.1)))
  }

  /**
    Whatever the draws, every hour inside a window gets a larger weight in that series
    than every hour outside it, so the peaks always stand out in the figure.
   */
  lemma PeakHoursStandOut(rs: seq<Draw>, h: int, off: int)
    requires |rs| >= 3 * Hours
    requires 0 <= h < Hours && 0 <= off < Hours
    ensures MorningPeak(h) && !MorningPeak(off) ==> TemporalAttention(rs)[h].morning > TemporalAttention(rs)[off].morning
    ensures EveningPeak(h) && !EveningPeak(off) ==> TemporalAttention(rs)[h].evening > TemporalAttention(rs)[off].evening
    ensures NightWindow(h) && !NightWindow(off) ==> TemporalAttention(rs)[h].night > TemporalAttention(rs)[off].night
  {
    var data := TemporalAttention(rs);
    assert MorningPeak(h) ==> 0.5 <= data[h].morning;
    assert !MorningPeak(off) ==> data[off].morning < 0.4;
  }

  // ---------------------------------------------------------------------------
  // Figure S8: residual analysis
  // ---------------------------------------------------------------------------

  datatype ResidualPoint = ResidualPoint(predicted: real, residual: real, buildingArea: real)

  const ResidualPointCount: nat := 200

  /** `generateResidualData`: three independent uniform fields with fixed ranges. */
  function ResidualData(rs: seq<Draw>): (data: seq<ResidualPoint>)
    requires |rs| >= 3 * ResidualPointCount
    ensures |data| == ResidualPointCount
    ensures forall i :: 0 <= i < |data| ==> 20.0 <= data[i].predicted < 120.0
    ensures forall i :: 0 <= i < |data| ==> -15.0 <= data[i].residual < 15.0
    ensures forall i :: 0 <= i < |data| ==> 50.0 <= data[i].buildingArea < 550.0
  {
    seq(ResidualPointCount, i requires 0 <= i < ResidualPointCount =>
      var predictedDraw: real, residualDraw: real, areaDraw: real := rs[3 * i], rs[3 * i + 1], rs[3 * i + 2];
      ResidualPoint(predictedDraw * 100.0 + 20.0, (residualDraw - 0.5) * 30.0, areaDraw * 500.0 + 50.0))
  }

  // ---------------------------------------------------------------------------
  // Figure S9: calibration curve
  // ---------------------------------------------------------------------------

  datatype CalibrationPoint = CalibrationPoint(predicted: real, observed: real, ideal: real)

  const CalibrationBins: nat := 10

  /**
    `generateCalibrationData`: a fixed grid of predicted probabilities, the centres of
    ten equal bins of [0, 1), each with an observed value within 0.05 of it and the
    ideal line equal to it.
   */
  function CalibrationData(rs: seq<Draw>): (data: seq<CalibrationPoint>)
    requires |rs| >= CalibrationBins
    ensures |data| == CalibrationBins
    ensures forall i :: 0 <= i < |data| ==> data[i].predicted == (i as real + 0.5) / 10.0
    ensures forall i :: 0 <= i < |data| ==> data[i].ideal == data[i].predicted
    ensures forall i :: 0 <= i < |data| ==> -0.05 <= data[i].observed - data[i].predicted < 0.05
    ensures forall i :: 0 <= i < |data| ==> 0.0 < data[i].predicted < 1.0
    ensures forall i :: 0 <= i < |data| - 1 ==> data[i + 1].predicted - data[i].predicted == 0.1
  {
    seq(CalibrationBins, i requires 0 <= i < CalibrationBins =>
      var predicted := (i as real + 0.5) / 10.0;
      var noiseDraw: real := rs[i];
      CalibrationPoint(predicted, predicted + (noiseDraw - 0.5) * 0.1, predicted))
  }

  // ---------------------------------------------------------------------------
  // Figure S10: geographic distribution of prediction errors
  // ---------------------------------------------------------------------------

  datatype ErrorPoint = ErrorPoint(x: real, y: real, error: real)

  const ErrorPointCount: nat := 150

  /** The inline data builder of figure S10: coordinates in [0, 100), MAPE in [5, 30). */
  function ErrorPoints(rs: seq<Draw>): (data: seq<ErrorPoint>)
    requires |rs| >= 3 * ErrorPointCount
    ensures |data| == ErrorPointCount
    ensures forall i :: 0 <= i < |data| ==> 0.0 <= data[i].x < 100.0 && 0.0 <= data[i].y < 100.0
    ensures forall i :: 0 <= i < |data| ==> 5.0 <= data[i].error < 30.0
  {
    seq(ErrorPointCount, i requires 0 <= i < ErrorPointCount =>
      var xDraw: real, yDraw: real, errorDraw: real := rs[3 * i], rs[3 * i + 1], rs[3 * i + 2];
      ErrorPoint(xDraw * 100.0, yDraw * 100.0, errorDraw * 25.0 + 5.0))
  }

  /** The colour class of a point in figure S10. */
  datatype ErrorBand = Low | Moderate | High

  /** `error < 10 ? green : error < 20 ? amber : red`. */
  function Severity(error: real): (band: ErrorBand)
    ensures band == Low <==> error < 10.0
    ensures band == Moderate <==> 10.0 <= error < 20.0
    ensures band == High <==> 20.0 <= error
  {
    if error < 10.0 then Low else if error < 20.0 then Moderate else High
  }

  /** The bands split the error range [5, 30) of figure S10 into [5, 10), [10, 20) and [20, 30). */
  lemma SeverityBandsOfErrorPoints(rs: seq<Draw>, i: int)
    requires |rs| >= 3 * ErrorPointCount
    requires 0 <= i < ErrorPointCount
    ensures Severity(ErrorPoints(rs)[i].error) == Low ==> 5.0 <= ErrorPoints(rs)[i].error < 10.0
    ensures Severity(ErrorPoints(rs)[i].error) == High ==> 20.0 <= ErrorPoints(rs)[i].error < 30.0
  {
    assert 5.0 <= ErrorPoints(rs)[i].error < 30.0;
  }

  // ---------------------------------------------------------------------------
  // Figure S13: observed and predicted time series
  // ---------------------------------------------------------------------------

  datatype SeriesPoint = SeriesPoint(hour: int, observed: real, predicted: real, lower: real, upper: real)

  /** One week of hourly points. */
  const WeekHours: nat := 168

  /** `Math.PI` as a double. */
  const Pi: real := 3.141592653589793

  /** The deterministic curve `40 + 20 sin(i pi / 12) + 10 sin(i pi / 84)`. */
  function Base(i: int, sin: real -> real): real {
    40.0 + 20.0 * sin(i as real * Pi / 12.0) + 10.0 * sin(i as real * Pi / 84.0)
  }

  /**
    `generateTimeSeriesComparison`: the band is always 16 wide and centred on the
    curve, and both the observed and the predicted values lie strictly inside it,
    whatever `Math.sin` returns.
   */
  function TimeSeriesComparison(rs: seq<Draw>, sin: real -> real): (data: seq<SeriesPoint>)
    requires |rs| >= 2 * WeekHours
    ensures |data| == WeekHours
    ensures forall i :: 0 <= i < |data| ==> data[i].hour == i
    ensures forall i :: 0 <= i < |data| ==> data[i].upper - data[i].lower == 16.0
    ensures forall i :: 0 <= i < |data| ==> data[i].lower + 8.0 == Base(i, sin)
    ensures forall i :: 0 <= i < |data| ==>
      data[i].lower < data[i].observed < data[i].upper && data[i].lower < data[i].predicted < data[i].upper
    ensures forall i :: 0 <= i < |data| ==> -2.5 <= data[i].observed - Base(i, sin) < 2.5
    ensures forall i :: 0 <= i < |data| ==> -2.0 <= data[i].predicted - Base(i, sin) < 2.0
  {
    seq(WeekHours, i requires 0 <= i < WeekHours =>
      var base := Base(i, sin);
      var observedDraw: real, predictedDraw: real := rs[2 * i], rs[2 * i + 1];
      SeriesPoint(i, base + (observedDraw - 0.5) * 5.0, base + (predictedDraw - 0.5) * 4.0, base - 8.0, base + 8.0))
  }

  // ---------------------------------------------------------------------------
  // Figure S15: transfer-learning curves
  // ---------------------------------------------------------------------------

  datatype TransferPoint = TransferPoint(samples: int, indiaToBangladesh: real, pakistanToIndia: real, bangladeshToPakistan: real)

  const TransferSteps: nat := 20

  /**
    `generateTransferLearning`: sample counts 0, 50, ..., 950, and three MAPE series,
    each a falling line `C - k i` plus noise in [0, 2).
   */
  function TransferLearning(rs: seq<Draw>): (data: seq<TransferPoint>)
    requires |rs| >= 3 * TransferSteps
    ensures |data| == TransferSteps
    ensures forall i :: 0 <= i < |data| ==> data[i].samples == 50 * i && 0 <= data[i].samples <= 950
    ensures forall i :: 0 <= i < |data| ==>
      0.0 <= data[i].indiaToBangladesh - (28.0 - i as real * 0.7) < 2.0
    ensures forall i :: 0 <= i < |data| ==>
      0.0 <= data[i].pakistanToIndia - (26.0 - i as real * 0.6) < 2.0
    ensures forall i :: 0 <= i < |data| ==>
      0.0 <= data[i].bangladeshToPakistan - (30.0 - i as real * 0.65) < 2.0
  {
    seq(TransferSteps, i requires 0 <= i < TransferSteps =>
      var samples := i * 50;
      var r1: real, r2: real, r3: real := rs[3 * i], rs[3 * i + 1], rs[3 * i + 2];
      TransferPoint(samples, 28.0 - i as real * 0.7 + r1 * 2.0,
                             26.0 - i as real * 0.6 + r2 * 2.0,
                             30.0 - i as real * 0.65 + r3 * 2.0))
  }

  /**
    The noise cannot hide the trend over a long enough stretch: India to Bangladesh
    falls over any 3 steps, and all three series fall over any 4 steps.
   */
  lemma TransferCurvesFall(rs: seq<Draw>, i: int, m: int)
    requires |rs| >= 3 * TransferSteps
    requires 0 <= i && 0 < m && i + m < TransferSteps
    ensures m >= 3 ==> TransferLearning(rs)[i + m].indiaToBangladesh < TransferLearning(rs)[i].indiaToBangladesh
    ensures m >= 4 ==> TransferLearning(rs)[i + m].pakistanToIndia < TransferLearning(rs)[i].pakistanToIndia
    ensures m >= 4 ==> TransferLearning(rs)[i + m].bangladeshToPakistan < TransferLearning(rs)[i].bangladeshToPakistan
  {
    var data := TransferLearning(rs);
    assert 0.0 <= data[i].indiaToBangladesh - (28.0 - i as real * 0.7);
    assert data[i + m].indiaToBangladesh - (28.0 - (i + m) as real * 0.7) < 2.0;
  }

  /** A stream whose third draw is 0 and whose other draws are 0.99. */
  function LowThenHighDraws(): (rs: seq<Draw>)
    ensures |rs| == 3 * TransferSteps
    ensures rs[2] == 0.0 && rs[11] == 0.99
  {
    seq(3 * TransferSteps, k => if k == 2 then 0.0 else 0.99)
  }

  /**
    Over 3 steps Bangladesh to Pakistan can rise, since its slope times 3 (1.95) is
    below the noise width 2, so the 4-step window above is the shortest that works.
   */
  lemma BangladeshToPakistanCanRiseOverThreeSteps()
    ensures TransferLearning(LowThenHighDraws())[3].bangladeshToPakistan >
            TransferLearning(LowThenHighDraws())[0].bangladeshToPakistan
  {
    var rs := LowThenHighDraws();
    assert TransferLearning(rs)[0].bangladeshToPakistan == 30.0;
  }
}
