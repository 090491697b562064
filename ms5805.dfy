/**
 * MS5805 barometric pressure sensor: the PROM calibration words and 24-bit ADC
 * readings assembled big-endian from I2C bytes, and the first- and second-order
 * temperature compensation of the MS5805 datasheet ("Second order temperature
 * compensation"). Python's true division is exact division on `real` here.
 */
module Ms5805 {
  import opened Common

  /** C6 is not read from the PROM; the driver always uses this value. */
  const ForcedC6 := 27058

  /** A 16-bit calibration word, hi << 8 | lo; the bytes do not overlap, so the
      bitwise or is a sum. */
  function CalibrationWord(hi: Byte, lo: Byte): (w: int)
    ensures 0 <= w <= 0xffff
    ensures w / 256 == hi && w % 256 == lo
  {
    hi * 256 + lo
  }

  /** A 24-bit ADC result, b0 << 16 | b1 << 8 | b2. */
  function AdcWord(b0: Byte, b1: Byte, b2: Byte): (w: int)
    ensures 0 <= w < 0x100_0000
    ensures w / 0x1_0000 == b0 && (w / 256) % 256 == b1 && w % 256 == b2
  {
    AdcWordBytes(b0, b1, b2);
    b0 * 0x1_0000 + b1 * 256 + b2
  }

  lemma AdcWordBytes(b0: Byte, b1: Byte, b2: Byte)
    ensures (b0 * 0x1_0000 + b1 * 256 + b2) / 0x1_0000 == b0
    ensures ((b0 * 0x1_0000 + b1 * 256 + b2) / 256) % 256 == b1
    ensures (b0 * 0x1_0000 + b1 * 256 + b2) % 256 == b2
  {
    var w := b0 * 0x1_0000 + b1 * 256 + b2;
    assert w == (b0 * 256 + b1) * 256 + b2;
    assert w / 256 == b0 * 256 + b1;
    assert w == b0 * 0x1_0000 + (b1 * 256 + b2) && b1 * 256 + b2 < 0x1_0000;
  }

  /** The six calibration coefficients C1..C6. */
  datatype Prom = Prom(c1: int, c2: int, c3: int, c4: int, c5: int, c6: int)

  /** The first-order quantities of the compensation. */
  datatype FirstOrder = FirstOrder(dT: real, temp: real, off: real, sens: real)

  /** The second-order corrections T2, OFF2, SENS2. */
  datatype Corrections = Corrections(t2: real, off2: real, sens2: real)

  /** Reading a coefficient or a result that was never set (an AttributeError). */
  datatype SensorError =
    | NotInitialized   // read_pressure_temperature before initialize
    | NotMeasured      // a getter before read_pressure_temperature

  /** A compensated measurement: pressure in mbar and temperature in degrees C. */
  datatype Measurement = Measurement(press: real, temp: real)

  /** dT = D2 - C5 * 2^8, temp = 2000 + dT * C6 / 2^23, OFF = C2 * 2^17 + C4 * dT / 2^6,
      SENS = C1 * 2^16 + C3 * dT / 2^7. */
  function FirstOrderValues(c: Prom, d2: int): FirstOrder {
    var dT := (d2 - c.c5 * 256) as real;
    FirstOrder(dT,
               2000.0 + dT * c.c6 as real / 8388608.0,
               c.c2 as real * 131072.0 + c.c4 as real * dT / 64.0,
               c.c1 as real * 65536.0 + c.c3 as real * dT / 128.0)
  }

  /** No correction at or above 20.00 degrees C; below it, the datasheet's
      low-temperature terms. */
  function SecondOrderCorrections(f: FirstOrder): Corrections {
    if f.temp >= 2000.0 then Corrections(0.0, 0.0, 0.0)
    else Corrections(11.0 * f.dT * f.dT / 34359738368.0,
                     31.0 * ((f.temp - 2000.0) * (f.temp - 2000.0)) / 8.0,
                     63.0 * ((f.temp - 2000.0) * (f.temp - 2000.0)) / 32.0)
  }

  /** The pressure and temperature of raw readings d1 (pressure) and d2 (temperature). */
  function Compensate(c: Prom, d1: int, d2: int): Measurement {
    var f := FirstOrderValues(c, d2);
    var k := SecondOrderCorrections(f);
    var temp, off, sens := f.temp - k.t2, f.off - k.off2, f.sens - k.sens2;
    Measurement(((d1 as real * sens) / 2097152.0 - off) / 32768.0 / 100.0, temp / 100.0)
  }

  /** The sensitivity the pressure formula multiplies the pressure reading by. */
  function CompensatedSens(c: Prom, d2: int): real {
    var f := FirstOrderValues(c, d2);
    f.sens - SecondOrderCorrections(f).sens2
  }

  /** The offset the pressure formula subtracts. */
  function CompensatedOff(c: Prom, d2: int): real {
    var f := FirstOrderValues(c, d2);
    f.off - SecondOrderCorrections(f).off2
  }

  function DegreesF(celsius: real): real { celsius * 1.8 + 32.0 }

  function Psf(mbar: real): real { mbar * 2.0885434273 }

  // ---------------------------------------------------------------------------

  /** The corrections are squares scaled by positive constants, so never negative;
      they can only lower temp, OFF and SENS. */
  lemma CorrectionsNonNegative(f: FirstOrder)
    ensures SecondOrderCorrections(f).t2 >= 0.0
    ensures SecondOrderCorrections(f).off2 >= 0.0
    ensures SecondOrderCorrections(f).sens2 >= 0.0
  {
    if f.temp < 2000.0 {
      var d := f.temp - 2000.0;
      assert f.dT * f.dT >= 0.0 && d * d >= 0.0;
    }
  }

  /** At or above 20.00 degrees C the measurement is the first-order one. */
  lemma WarmMeasurementIsFirstOrder(c: Prom, d1: int, d2: int)
    requires FirstOrderValues(c, d2).temp >= 2000.0
    ensures var f := FirstOrderValues(c, d2);
            (Compensate(c, d1, d2)
             == Measurement(((d1 as real * f.sens) / 2097152.0 - f.off) / 32768.0 / 100.0, f.temp / 100.0))
  {
  }

  /** Below 20.00 degrees C the compensated temperature is at most the first-order one. */
  lemma ColdTemperatureLowered(c: Prom, d1: int, d2: int)
    requires FirstOrderValues(c, d2).temp < 2000.0
    ensures Compensate(c, d1, d2).temp <= FirstOrderValues(c, d2).temp / 100.0
    ensures CompensatedSens(c, d2) <= FirstOrderValues(c, d2).sens
    ensures CompensatedOff(c, d2) <= FirstOrderValues(c, d2).off
  {
    CorrectionsNonNegative(FirstOrderValues(c, d2));
  }

  /** The pressure is an affine function of the pressure reading D1 with slope
      SENS / (2^21 * 2^15 * 100). */
  lemma PressureAffineInD1(c: Prom, d1: int, d2: int)
    ensures Compensate(c, d1, d2).press
         == d1 as real * CompensatedSens(c, d2) / 6871947673600.0 - CompensatedOff(c, d2) / 3276800.0
  {
    var s, o := CompensatedSens(c, d2), CompensatedOff(c, d2);
    var x := d1 as real;
    assert ((x * s) / 2097152.0 - o) / 32768.0 / 100.0 == x * s / 6871947673600.0 - o / 3276800.0;
  }

  /** With a positive compensated sensitivity a larger pressure reading is a larger
      pressure; the temperature does not depend on D1 at all. */
  lemma PressureIncreasingInD1(c: Prom, d1: int, d1': int, d2: int)
    requires CompensatedSens(c, d2) > 0.0 && d1 < d1'
    ensures Compensate(c, d1, d2).press < Compensate(c, d1', d2).press
    ensures Compensate(c, d1, d2).temp == Compensate(c, d1', d2).temp
  {
    PressureAffineInD1(c, d1, d2);
    PressureAffineInD1(c, d1', d2);
    var s := CompensatedSens(c, d2);
    assert (d1' as real - d1 as real) * s > 0.0;
  }

  /** The Fahrenheit getter loses nothing: the Celsius value is recovered from it. */
  lemma DegreesFRoundTrip(celsius: real)
    ensures (DegreesF(celsius) - 32.0) / 1.8 == celsius
  {
  }

  /** The psf getter is a positive rescaling: it keeps the order of pressures. */
  lemma PsfMonotone(a: real, b: real)
    requires a < b
    ensures Psf(a) < Psf(b)
  {
  }

  // ---------------------------------------------------------------------------

  /** The sensor driver: the PROM after `initialize`, the measurement after
      `read_pressure_temperature`. */
  class Sensor {
    const devAddr: int
    var prom: Option<Prom>
    var measurement: Option<Measurement>

    constructor (devAddr: int)
      ensures this.devAddr == devAddr && prom == None && measurement == None
    {
      this.devAddr := devAddr;
      prom := None;
      measurement := None;
    }

    /** Assembles C1..C5 from the five two-byte PROM reads and forces C6. */
    method Initialize(b: seq<Byte>)
      requires |b| == 10
      modifies this
      ensures prom == Some(Prom(CalibrationWord(b[0], b[1]), CalibrationWord(b[2], b[3]),
                                CalibrationWord(b[4], b[5]), CalibrationWord(b[6], b[7]),
                                CalibrationWord(b[8], b[9]), ForcedC6))
      ensures measurement == old(measurement)
    {
      var c1: int := b[0] as int * 256 + b[1] as int;
      var c2: int := b[2] as int * 256 + b[3] as int;
      var c3: int := b[4] as int * 256 + b[5] as int;
      var c4: int := b[6] as int * 256 + b[7] as int;
      var c5: int := b[8] as int * 256 + b[9] as int;
      prom := Some(Prom(c1, c2, c3, c4, c5, 27058));
    }

    /** Converts the two three-byte ADC reads (pressure first, then temperature).
        Without `initialize` the coefficients were never set and nothing is stored. */
    method ReadPressureTemperature(p: seq<Byte>, t: seq<Byte>) returns (r: Result<(), SensorError>)
      requires |p| == 3 && |t| == 3
      modifies this
      ensures prom == old(prom)
      ensures old(prom).None? ==> r == Err(NotInitialized) && measurement == old(measurement)
      ensures old(prom).Some? ==>
                r.Ok? && measurement == Some(Compensate(old(prom).value, AdcWord(p[0], p[1], p[2]),
                                                        AdcWord(t[0], t[1], t[2])))
    {
      var pressi: int := p[0] as int * 0x1_0000 + p[1] as int * 256 + p[2] as int;
      var tempi: int := t[0] as int * 0x1_0000 + t[1] as int * 256 + t[2] as int;
      if prom.None? {
        return Err(NotInitialized);
      }
      var c := prom.value;
      var dT := (tempi - c.c5 * 256) as real;
      var temp := 2000.0 + dT * c.c6 as real / 8388608.0;
      var off := c.c2 as real * 131072.0 + c.c4 as real * dT / 64.0;
      var sens := c.c1 as real * 65536.0 + c.c3 as real * dT / 128.0;
      assert FirstOrderValues(c, tempi) == FirstOrder(dT, temp, off, sens);
      var t2, off2, sens2;
      if temp >= 2000.0 {
        t2, off2, sens2 := 0.0, 0.0, 0.0;
      } else {
        t2 := 11.0 * dT * dT / 34359738368.0;
        off2 := 31.0 * ((temp - 2000.0) * (temp - 2000.0)) / 8.0;
        sens2 := 63.0 * ((temp - 2000.0) * (temp - 2000.0)) / 32.0;
      }
      assert SecondOrderCorrections(FirstOrder(dT, temp, off, sens)) == Corrections(t2, off2, sens2);
      temp, off, sens := temp - t2, off - off2, sens - sens2;
      var m := Measurement(((pressi as real * sens) / 2097152.0 - off) / 32768.0 / 100.0, temp / 100.0);
      assert m == Compensate(c, pressi, tempi);
      measurement := Some(m);
      r := Ok(());
    }

    /** `getTemperature_degF`: converting back gives the stored Celsius value. */
    function TemperatureDegF(): (r: Result<real, SensorError>)
      reads this
      ensures r.Ok? <==> measurement.Some?
      ensures r.Err? ==> r.error == NotMeasured
      ensures r.Ok? ==> (r.value - 32.0) / 1.8 == measurement.value.temp
    {
      if measurement.None? then Err(NotMeasured) else Ok(measurement.value.temp * 1.8 + 32.0)
    }

    /** `getTemperature_egC`: the Celsius value the Fahrenheit getter converts. */
    function TemperatureDegC(): (r: Result<real, SensorError>)
      reads this
      ensures r.Ok? <==> measurement.Some?
      ensures r.Err? ==> r.error == NotMeasured
      ensures r.Ok? ==> TemperatureDegF() == Ok(DegreesF(r.value))
    {
      if measurement.None? then Err(NotMeasured) else Ok(measurement.value.temp)
    }

    /** `getPressure_mbar`: the mbar value the psf getter converts. */
    function PressureMbar(): (r: Result<real, SensorError>)
      reads this
      ensures r.Ok? <==> measurement.Some?
      ensures r.Err? ==> r.error == NotMeasured
      ensures r.Ok? ==> PressurePsf() == Ok(Psf(r.value))
    {
      if measurement.None? then Err(NotMeasured) else Ok(measurement.value.press)
    }

    /** `getPressure_psf`: dividing by the factor gives the stored mbar value. */
    function PressurePsf(): (r: Result<real, SensorError>)
      reads this
      ensures r.Ok? <==> measurement.Some?
      ensures r.Err? ==> r.error == NotMeasured
      ensures r.Ok? ==> r.value / 2.0885434273 == measurement.value.press
    {
      if measurement.None? then Err(NotMeasured) else Ok(measurement.value.press * 2.0885434273)
    }
  }
}
