/**
 * Honeywell SSC digital pressure transducer: the 14-bit reading assembled from
 * the two bytes of an I2C block read, and its conversion to pressure through one
 * of four linear calibration transfer functions.
 */
module Ssc005d {
  import opened Common

  /** Why a conversion produced no pressure. */
  datatype ConversionError =
    | NoReading             // pdata read before any raw read (an AttributeError)
    | UnknownCalibration    // calRange outside 1..4 leaves press unassigned

  /** The two status bits of the high byte masked off: ((b0 << 8) + b1) & 0x3fff, with
      the shift written as a product and the mask of a non-negative value as a remainder. */
  function RawPressure(b0: Byte, b1: Byte): (p: int)
    ensures 0 <= p <= 0x3fff
    ensures p == (b0 % 64) * 256 + b1
  {
    MaskKeepsLowBits(b0, b1);
    (b0 * 256 + b1) % 0x4000
  }

  /** Masking with 0x3fff keeps the low six bits of the high byte and all of the low byte. */
  lemma MaskKeepsLowBits(b0: Byte, b1: Byte)
    ensures (b0 * 256 + b1) % 0x4000 == (b0 % 64) * 256 + b1
  {
    var hi, lo := b0 / 64, b0 % 64;
    assert b0 * 256 + b1 == hi * 0x4000 + (lo * 256 + b1);
    assert 0 <= lo * 256 + b1 < 0x4000;
  }

  /** Slope of the transfer function for calibration ranges 1..4. */
  function Slope(calRange: int): real
    requires 1 <= calRange <= 4
  {
    match calRange
    case 1 => 0.0001525878906   // 10 to 90 % calibration
    case 2 => 0.0001356336806   // 5 to 95 % calibration
    case 3 => 0.0001525878906   // 5 to 85 % calibration
    case 4 => 0.0001356336806   // 4 to 94 % calibration
  }

  /** Offset of the transfer function for calibration ranges 1..4. */
  function Offset(calRange: int): real
    requires 1 <= calRange <= 4
  {
    match calRange
    case 1 => 1.25
    case 2 => 1.111111111
    case 3 => 1.125
    case 4 => 1.088888889
  }

  /** press = (slope * pdata - offset) * sensRange with the chosen range's constants;
      a range outside 1..4 is an error. */
  function ConvertPressure(pdata: int, calRange: int, sensRange: real): (r: Result<real, ConversionError>)
  {
    if 1 <= calRange <= 4 then Ok((Slope(calRange) * pdata as real - Offset(calRange)) * sensRange)
    else Err(UnknownCalibration)
  }

  /** The conversion fails exactly when the range is unknown. */
  lemma ConvertPressureFails(pdata: int, calRange: int, sensRange: real)
    ensures ConvertPressure(pdata, calRange, sensRange).Err? <==> !(1 <= calRange <= 4)
    ensures ConvertPressure(pdata, calRange, sensRange).Err?
        ==> ConvertPressure(pdata, calRange, sensRange).error == UnknownCalibration
  {
  }

  /** The raw reading a pressure came from, for sensRange != 0. */
  function RawOfPressure(press: real, calRange: int, sensRange: real): real
    requires 1 <= calRange <= 4 && sensRange != 0.0
  {
    (press / sensRange + Offset(calRange)) / Slope(calRange)
  }

  /** Converting back recovers the raw reading: no two readings give one pressure. */
  lemma ConvertPressureRoundTrip(pdata: int, calRange: int, sensRange: real)
    requires 1 <= calRange <= 4 && sensRange != 0.0
    ensures ConvertPressure(pdata, calRange, sensRange).Ok?
    ensures RawOfPressure(ConvertPressure(pdata, calRange, sensRange).value, calRange, sensRange) == pdata as real
  {
    var a, b := Slope(calRange), Offset(calRange);
    var press := (a * pdata as real - b) * sensRange;
    assert press / sensRange == a * pdata as real - b;
    assert (press / sensRange + b) / a == pdata as real;
  }

  /** For a positive sensor range a larger reading is a larger pressure, in every range. */
  lemma ConvertPressureIncreasing(p: int, q: int, calRange: int, sensRange: real)
    requires 1 <= calRange <= 4 && sensRange > 0.0 && p < q
    ensures ConvertPressure(p, calRange, sensRange).Ok? && ConvertPressure(q, calRange, sensRange).Ok?
    ensures ConvertPressure(p, calRange, sensRange).value < ConvertPressure(q, calRange, sensRange).value
  {
    var a, b := Slope(calRange), Offset(calRange);
    assert a * p as real - b < a * q as real - b;
    MultiplyPositive(a * p as real - b, a * q as real - b, sensRange);
  }

  lemma MultiplyPositive(x: real, y: real, s: real)
    requires x < y && s > 0.0
    ensures x * s < y * s
  {
    assert (y - x) * s > 0.0;
  }

  /** The status bits, the top two bits of the high byte, never reach the reading. */
  lemma StatusBitsIgnored(b0: Byte, b1: Byte, status: int)
    requires 0 <= status < 4
    ensures b0 % 64 + 64 * status < 256
    ensures RawPressure((b0 % 64 + 64 * status) as Byte, b1) == RawPressure(b0, b1)
  {
  }

  /** The transducer driver: devAddr is kept for the bus, pdata holds the last reading. */
  class Hwssc {
    const devAddr: int
    var pdata: Option<int>

    constructor (devAddr: int)
      ensures this.devAddr == devAddr && pdata == None
    {
      this.devAddr := devAddr;
      pdata := None;
    }

    /** Stores the masked reading of the two bytes the bus returned. */
    method ReadPressureRaw(b0: Byte, b1: Byte)
      modifies this
      ensures pdata == Some(RawPressure(b0, b1))
      ensures pdata.value == (b0 % 64) * 256 + b1
    {
      var word := b0 * 256 + b1;
      pdata := Some(word % 0x4000);
    }

    /** `convertPressure` on the stored reading; the reading itself is left as it is.
        An unknown range fails before the reading is looked at, as the elif chain
        only reads pdata inside a branch. The pressure determines the reading back. */
    method ConvertPressureReading(calRange: int, sensRange: real) returns (r: Result<real, ConversionError>)
      ensures r.Ok? <==> pdata.Some? && 1 <= calRange <= 4
      ensures r.Err? ==> r.error == (if 1 <= calRange <= 4 then NoReading else UnknownCalibration)
      ensures r.Ok? && sensRange != 0.0 ==> RawOfPressure(r.value, calRange, sensRange) == pdata.value as real
      ensures r.Ok? && sensRange == 0.0 ==> r.value == 0.0
    {
      if !(1 <= calRange <= 4) {
        return Err(UnknownCalibration);
      }
      if pdata.None? {
        return Err(NoReading);
      }
      r := ConvertPressure(pdata.value, calRange, sensRange);
      if sensRange != 0.0 {
        ConvertPressureRoundTrip(pdata.value, calRange, sensRange);
      }
    }
  }
}
