/** The fixed-point compensation of the raw temperature (ut) and raw pressure
    (up) samples by the eleven calibration coefficients, as the driver computes
    it with Python's unbounded ints, `>>` and `//`. */
module Compensation {
  import opened PyInt
  import opened Registers

  /** The eleven coefficients read from the sensor's calibration registers. */
  datatype Calibration = Calibration(
    ac1: int, ac2: int, ac3: int, ac4: int, ac5: int, ac6: int,
    b1: int, b2: int, mb: int, mc: int, md: int)
  {
    /** AC4..AC6 are unsigned 16-bit words, the other eight signed ones. */
    ghost predicate InRange()
    {
      && Signed16(ac1) && Signed16(ac2) && Signed16(ac3)
      && Unsigned16(ac4) && Unsigned16(ac5) && Unsigned16(ac6)
      && Signed16(b1) && Signed16(b2) && Signed16(mb) && Signed16(mc) && Signed16(md)
    }
  }

  predicate Signed16(v: int) { -0x8000 <= v <= 0x7FFF }

  predicate Unsigned16(v: int) { 0 <= v <= 0xFFFF }

  // ---------------------------------------------------------------------
  // Temperature

  /** x1 = (ut - ac6) * ac5 >> 15 */
  function TemperatureX1(cal: Calibration, ut: int): (x1: int)
    ensures x1 * 32768 <= (ut - cal.ac6) * cal.ac5 < x1 * 32768 + 32768
  {
    assert Pow2(15) == 32768;
    Shr((ut - cal.ac6) * cal.ac5, 15)
  }

  /** The divisor of x2 is not zero, so the temperature path does not raise. */
  predicate TemperatureDefined(cal: Calibration, ut: int)
  {
    TemperatureX1(cal, ut) + cal.md != 0
  }

  /** x2 = (mc << 11) // (x1 + md) */
  function TemperatureX2(cal: Calibration, ut: int): (x2: int)
    requires TemperatureDefined(cal, ut)
    ensures var d := TemperatureX1(cal, ut) + cal.md;
            && (d > 0 ==> x2 * d <= cal.mc * 2048 < x2 * d + d)
            && (d < 0 ==> x2 * d + d < cal.mc * 2048 <= x2 * d)
  {
    FloorDiv(Shl(cal.mc, 11), TemperatureX1(cal, ut) + cal.md)
  }

  /** b5 = x1 + x2, shared by the temperature and the pressure paths. */
  function B5(cal: Calibration, ut: int): int
    requires TemperatureDefined(cal, ut)
  {
    TemperatureX1(cal, ut) + TemperatureX2(cal, ut)
  }

  /** (b5 + 8) >> 4: the temperature in tenths of a degree Celsius, which is
      b5 / 16 rounded to the nearest integer (halves upward). */
  function TemperatureTenths(cal: Calibration, ut: int): (t: int)
    requires TemperatureDefined(cal, ut)
    ensures 16 * t - 8 <= B5(cal, ut) < 16 * t + 8
  {
    Shr(B5(cal, ut) + 8, 4)
  }

  /** With a non-negative ac5, x1 never decreases as the raw temperature grows. */
  lemma TemperatureX1Monotone(cal: Calibration, ut1: int, ut2: int)
    requires cal.ac5 >= 0 && ut1 <= ut2
    ensures TemperatureX1(cal, ut1) <= TemperatureX1(cal, ut2)
  {
    MulMonotone(ut2 - cal.ac6, ut1 - cal.ac6, cal.ac5);
    ShrMonotone((ut1 - cal.ac6) * cal.ac5, (ut2 - cal.ac6) * cal.ac5, 15);
  }

  // ---------------------------------------------------------------------
  // Pressure

  /** b6 = b5 - 4000 */
  function B6(cal: Calibration, ut: int): int
    requires TemperatureDefined(cal, ut)
  {
    B5(cal, ut) - 4000
  }

  /** b62 = b6 ** 2 >> 12 */
  function B62(b6: int): (r: int)
    ensures r >= 0
  {
    Shr(b6 * b6, 12)
  }

  /** b3 = ((abs(ac1 * 4 + x3) << oss) + 2) >> 2, with x3 built from b2 and
      ac2. The absolute value keeps b3 non-negative whatever the coefficients. */
  function B3(cal: Calibration, b6: int, mode: Mode): (b3: int)
    ensures b3 >= 0
  {
    var x1 := Shr(cal.b2 * B62(b6), 11);
    var x2 := Shr(cal.ac2 * b6, 11);
    var x3 := x1 + x2;
    Shr(Shl(Abs(cal.ac1 * 4 + x3), mode.Value()) + 2, 2)
  }

  /** b4 = ac4 * (x3 + 32768) >> 15, with x3 built from ac3 and b1. */
  function B4(cal: Calibration, b6: int): int
  {
    var x1 := Shr(cal.ac3 * b6, 13);
    var x2 := Shr(cal.b1 * B62(b6), 16);
    var x3 := Shr((x1 + x2) + 2, 2);
    Shr(cal.ac4 * (x3 + 32768), 15)
  }

  /** b7 = (up - b3) * (50000 >> oss) */
  function B7(up: int, b3: int, mode: Mode): int
  {
    (up - b3) * Shr(50000, mode.Value())
  }

  /** Neither division of the pressure path divides by zero. */
  predicate PressureDefined(cal: Calibration, ut: int)
  {
    TemperatureDefined(cal, ut) && B4(cal, B6(cal, ut)) != 0
  }

  /** p: `b7 * 2 // b4` below 0x80000000, `b7 // b4 * 2` from there on. */
  function PressureP(b7: int, b4: int): (p: int)
    requires b4 != 0
    ensures FloorDiv(b7 * 2, b4) - 1 <= p <= FloorDiv(b7 * 2, b4)
  {
    PressureBranchesDifferByAtMostOne(b7, b4);
    if b7 < 0x80000000 then FloorDiv(b7 * 2, b4) else FloorDiv(b7, b4) * 2
  }

  /** The last step: p + ((x1 + x2 + 3791) >> 4) with x1 from p ** 2. */
  function FinalPressure(p: int): int
  {
    var x1 := Shr(p * p, 16);
    var x1' := Shr(x1 * 3038, 16);
    var x2 := Shr(-7357 * p, 16);
    p + Shr(x1' + x2 + 3791, 4)
  }

  /** The compensated pressure in pascal. */
  function CompensatePressure(cal: Calibration, ut: int, up: int, mode: Mode): int
    requires PressureDefined(cal, ut)
  {
    var b6 := B6(cal, ut);
    var b3 := B3(cal, b6, mode);
    var b4 := B4(cal, b6);
    FinalPressure(PressureP(B7(up, b3, mode), b4))
  }

  /** The two ways of computing p differ only in the lowest bit: halving
      before the division drops at most one unit. */
  lemma PressureBranchesDifferByAtMostOne(b7: int, b4: int)
    requires b4 != 0
    ensures 0 <= FloorDiv(b7 * 2, b4) - FloorDiv(b7, b4) * 2 <= 1
  {
    if b4 > 0 {
      DoubleDividend(b7, b4);
    } else {
      DoubleDividend(-b7, -b4);
      assert -(b7 * 2) == 2 * -b7;
    }
  }

  lemma DoubleDividend(a: int, d: int)
    requires d > 0
    ensures 0 <= (2 * a) / d - 2 * (a / d) <= 1
  {
    var q, r := a / d, a % d;
    assert a == d * q + r && 0 <= r < d;
    assert 2 * a == d * (2 * q) + 2 * r;
    if 2 * r < d {
      DivideExactly(2 * a, d, 2 * q, 2 * r);
    } else {
      assert 2 * a == d * (2 * q + 1) + (2 * r - d);
      DivideExactly(2 * a, d, 2 * q + 1, 2 * r - d);
    }
  }

  /** The comparison with 0x80000000 is strict: the threshold itself already
      takes the divide-then-double branch, the value below it does not. */
  lemma PressureBranchThreshold(b4: int)
    requires b4 != 0
    ensures PressureP(0x80000000, b4) == FloorDiv(0x80000000, b4) * 2
    ensures PressureP(0x7FFFFFFF, b4) == FloorDiv(0xFFFFFFFE, b4)
  {
  }

  /** At the threshold the branch matters: with b4 = 3 the two formulas give
      different values. */
  lemma PressureBranchMattersAtThreshold()
    ensures PressureP(0x80000000, 3) == 1431655764
    ensures FloorDiv(0x80000000 * 2, 3) == 1431655765
  {
  }

  // ---------------------------------------------------------------------
  // The datasheet's version of the last step

  /** The Bosch datasheet squares p >> 8 where the driver shifts p ** 2. */
  function DatasheetFinalPressure(p: int): int
  {
    var x1 := Shr(p, 8) * Shr(p, 8);
    var x1' := Shr(x1 * 3038, 16);
    var x2 := Shr(-7357 * p, 16);
    p + Shr(x1' + x2 + 3791, 4)
  }

  /** For a non-negative p, the driver's last step never gives less than the
      datasheet's, because (p >> 8) ** 2 <= p ** 2 >> 16. */
  lemma FinalPressureAtLeastDatasheet(p: int)
    requires p >= 0
    ensures FinalPressure(p) >= DatasheetFinalPressure(p)
  {
    var a := Shr(p, 8);
    assert Pow2(8) == 256 && Pow2(16) == 65536;
    assert 0 <= a * 256 <= p;
    MulMonotone(p, a * 256, p);
    MulMonotone(p, a * 256, a * 256);
    assert (a * a) * 65536 == (a * 256) * (a * 256);
    assert (a * a) * Pow2(16) <= p * p;
    var s := Shr(p * p, 16);
    assert a * a <= s by {
      if a * a > s {
        assert false;
      }
    }
    MulMonotone(s, a * a, 3038);
    ShrMonotone((a * a) * 3038, s * 3038, 16);
    var x2 := Shr(-7357 * p, 16);
    ShrMonotone(Shr((a * a) * 3038, 16) + x2 + 3791, Shr(s * 3038, 16) + x2 + 3791, 4);
  }

  // ---------------------------------------------------------------------
  // The datasheet's worked example

  const DatasheetCalibration: Calibration := Calibration(
    ac1 := 408, ac2 := -72, ac3 := -14383, ac4 := 32741, ac5 := 32757,
    ac6 := 23153, b1 := 6190, b2 := 4, mb := -32768, mc := -8711, md := 2868)

  /** ut = 27898 gives x1 = 4743, x2 = -2344, b5 = 2399 and 15.0 degrees. */
  lemma DatasheetTemperature()
    ensures TemperatureDefined(DatasheetCalibration, 27898)
    ensures TemperatureX1(DatasheetCalibration, 27898) == 4743
    ensures TemperatureX2(DatasheetCalibration, 27898) == -2344
    ensures B5(DatasheetCalibration, 27898) == 2399
    ensures TemperatureTenths(DatasheetCalibration, 27898) == 150
  {
    assert Pow2(4) == 16 && Pow2(11) == 2048 && Pow2(15) == 32768;
    assert TemperatureX1(DatasheetCalibration, 27898) == 155431965 / 32768 == 4743;
    assert FloorDiv(-8711 * 2048, 7611) == -2344;
  }

  /** up = 23843 at oss 0 reproduces the datasheet's b3, b4 and p; the
      driver's last step then gives 69965 Pa, the datasheet's 69964 Pa. */
  lemma DatasheetPressure()
    ensures PressureDefined(DatasheetCalibration, 27898)
    ensures B6(DatasheetCalibration, 27898) == -1601
    ensures B3(DatasheetCalibration, -1601, UltraLowPower) == 422
    ensures B4(DatasheetCalibration, -1601) == 33457
    ensures B7(23843, 422, UltraLowPower) == 1171050000
    ensures PressureP(1171050000, 33457) == 70003
    ensures CompensatePressure(DatasheetCalibration, 27898, 23843, UltraLowPower) == 69965
    ensures DatasheetFinalPressure(70003) == 69964
  {
    DatasheetTemperature();
    assert Pow2(0) == 1 && Pow2(2) == 4 && Pow2(4) == 16;
    assert Pow2(11) == 2048 && Pow2(12) == 4096 && Pow2(13) == 8192;
    assert Pow2(15) == 32768 && Pow2(16) == 65536;
    assert B62(-1601) == 625;
    assert B4(DatasheetCalibration, -1601) == 33457;
    assert FloorDiv(1171050000 * 2, 33457) == 70003;
    assert Shr(70003 * 70003, 16) == 74774;
    assert Shr(-7357 * 70003, 16) == -7859;
  }
}
