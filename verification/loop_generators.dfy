/**
  The generators that build their `data` array with a `for` loop and `push`:
  building-footprint areas (figure S1) and learning curves (figure S4).
 */
module LoopGenerators {
  import opened Draws

  /**
    One bar group of figure S1. The bin label `${lo}-${lo + 50}` is kept as its lower
    end `binLow`; the three counts are the bar heights for the three cities.
   */
  datatype AreaBin = AreaBin(binLow: int, dhaka: nat, kolkata: nat, karachi: nat)

  /** The loop builds 30 records and the generator returns the first 12. */
  const AreaRecordsBuilt: nat := 30
  const AreaRecordsKept: nat := 12

  /** Four draws per record, in the order area, Dhaka, Kolkata, Karachi. */
  const AreaDraws: nat := 4 * AreaRecordsBuilt

  /** The footprint area of record i, `Math.exp(Math.random() * 6 + 2)`. */
  function Area(r: Draw, exp: real -> real): real {
    exp(r * 6.0 + 2.0)
  }

  /** The decay factor `Math.exp(-i / 8)` shared by the three city counts. */
  function Decay(i: int, exp: real -> real): real {
    exp(-(i as real) / 8.0)
  }

  /**
    A city count, `Math.floor(Math.random() * scale * Math.exp(-i / 8))`: a natural
    number strictly below `scale * exp(-i / 8)`.
   */
  function CityCount(r: Draw, scale: real, i: int, exp: real -> real): (n: nat)
    requires Positive(exp) && 0.0 < scale
    ensures n as real <= r * (scale * Decay(i, exp)) < n as real + 1.0
    ensures (n as real) < scale * Decay(i, exp)
  {
    var bound := scale * Decay(i, exp);
    assert Decay(i, exp) > 0.0;
    assert bound > 0.0;
    ScaledDrawBelow(r, bound);
    FloorNat(r * bound)
  }

  /** `Math.floor(area / 50) * 50`: the lower end of the 50-wide bin holding `area`. */
  function BinLow(area: real): (lo: int)
    ensures lo % 50 == 0
    ensures lo as real <= area < lo as real + 50.0
    ensures 0.0 <= area ==> 0 <= lo
  {
    (area / 50.0).Floor * 50
  }

  /** The record pushed in iteration i, made from draws 4i to 4i + 3. */
  function AreaRecord(rs: seq<Draw>, i: nat, exp: real -> real): (rec: AreaBin)
    requires Positive(exp) && 4 * i + 3 < |rs|
    ensures 0 <= rec.binLow && rec.binLow % 50 == 0
    ensures rec.binLow as real <= Area(rs[4 * i], exp) < rec.binLow as real + 50.0
    ensures (rec.dhaka as real) < 500.0 * Decay(i, exp)
    ensures (rec.kolkata as real) < 450.0 * Decay(i, exp)
    ensures (rec.karachi as real) < 380.0 * Decay(i, exp)
  {
    AreaBin(BinLow(Area(rs[4 * i], exp)),
            CityCount(rs[4 * i + 1], 500.0, i, exp),
            CityCount(rs[4 * i + 2], 450.0, i, exp),
            CityCount(rs[4 * i + 3], 380.0, i, exp))
  }

  /**
    `generateBuildingAreaData`: all 30 iterations run, consuming 120 draws, and the
    first 12 records are returned.
   */
  method BuildingAreaData(rs: seq<Draw>, exp: real -> real) returns (data: seq<AreaBin>)
    requires Positive(exp) && |rs| >= AreaDraws
    ensures |data| == AreaRecordsKept
    ensures forall i :: 0 <= i < |data| ==> data[i] == AreaRecord(rs, i, exp)
  {
    var built: seq<AreaBin> := [];
    var next := 0;
    for i := 0 to AreaRecordsBuilt
      invariant |built| == i && next == 4 * i
      invariant forall k :: 0 <= k < i ==> built[k] == AreaRecord(rs, k, exp)
    {
      var areaDraw: real := rs[next];
      var area := exp(areaDraw * 6.0 + 2.0);
      var dhaka := CityCount(rs[next + 1], 500.0, i, exp);
      var kolkata := CityCount(rs[next + 2], 450.0, i, exp);
      var karachi := CityCount(rs[next + 3], 380.0, i, exp);
      next := next + 4;
      built := built + [AreaBin(BinLow(area), dhaka, kolkata, karachi)];
    }
    data := built[..AreaRecordsKept];
  }

  /** One point of figure S4. */
  datatype LossPoint = LossPoint(epoch: int, trainLoss: real, valLoss: real)

  const Epochs: nat := 200

  /** Two draws per epoch: the training noise, then the validation noise. */
  const LearningDraws: nat := 2 * Epochs

  /**
    The point of epoch i: `trainLoss = 0.8 e^(-i/30) + 0.05 + noise` with noise in
    [0, 0.02), and `valLoss = 0.9 e^(-i/35) + 0.08 + noise` with noise in [0, 0.03).
   */
  function LossRecord(rs: seq<Draw>, i: nat, exp: real -> real): (p: LossPoint)
    requires Positive(exp) && 2 * i + 1 < |rs|
    ensures p.epoch == i
    ensures 0.05 <= p.trainLoss - 0.8 * exp(-(i as real) / 30.0) < 0.07
    ensures 0.08 <= p.valLoss - 0.9 * exp(-(i as real) / 35.0) < 0.11
    ensures p.trainLoss > 0.05 && p.valLoss > 0.08
  {
    var trainDecay := exp(-(i as real) / 30.0);
    var valDecay := exp(-(i as real) / 35.0);
    LossPoint(i, 0.8 * trainDecay + 0.05 + rs[2 * i] * 0.02,
                 0.9 * valDecay + 0.08 + rs[2 * i + 1] * 0.03)
  }

  /** `generateLearningCurves`: one point per epoch 0..199, in epoch order. */
  method LearningCurves(rs: seq<Draw>, exp: real -> real) returns (data: seq<LossPoint>)
    requires Positive(exp) && |rs| >= LearningDraws
    ensures |data| == Epochs
    ensures forall i :: 0 <= i < |data| ==> data[i] == LossRecord(rs, i, exp)
  {
    data := [];
    var next := 0;
    for i := 0 to Epochs
      invariant |data| == i && next == 2 * i
      invariant forall k :: 0 <= k < i ==> data[k] == LossRecord(rs, k, exp)
    {
      var trainNoise: real, valNoise: real := rs[next], rs[next + 1];
      var trainLoss := 0.8 * exp(-(i as real) / 30.0) + 0.05 + trainNoise * 0.02;
      var valLoss := 0.9 * exp(-(i as real) / 35.0) + 0.08 + valNoise * 0.03;
      next := next + 2;
      data := data + [LossPoint(i, trainLoss, valLoss)];
    }
  }
}
