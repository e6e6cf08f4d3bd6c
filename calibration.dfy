/** The numeric conversions of src/main.cpp that the target does in floating point: the RPM
    multiplier fitted to a test cluster, the scaled speed, and the coolant temperature byte.
    Floating-point values are modelled as exact reals; conversion to an integer type is the C
    rule, truncation toward zero. */
module Calibration {
  import opened Payload

  /** Initial value of `rpmHexConversionMultipler`, before the fitted formula first runs. */
  const DEFAULT_MULTIPLIER: real := 6.55
  const MULTIPLIER_SLOPE: real := -0.00005540102040816370
  const MULTIPLIER_INTERCEPT: real := 6.70061224489796

  /** Bounds of the multiplier over the swept speeds and the default (used as an invariant). */
  const MIN_MULTIPLIER: real := 6.5
  const MAX_MULTIPLIER: real := 6.7

  /** Range of the scaled speed over the swept speeds with a multiplier within those bounds. */
  const MIN_SCALED_RPM := 6500
  const MAX_SCALED_RPM := 20100

  /** Coolant temperature encoding: (celsius + offset) / scale, truncated to a byte. */
  const TEMP_OFFSET: real := 48.373
  const TEMP_SCALE: real := 0.75
  /** The temperatures whose encoding fits an `unsigned char`; outside them the C conversion
      is undefined. */
  const MIN_ENCODABLE_TEMP := -49
  const MAX_ENCODABLE_TEMP := 143

  /** The linear fit of RPM to scaling ratio, recomputed by canWriteRpm. */
  function Multiplier(rpm: int): real
  {
    MULTIPLIER_SLOPE * rpm as real + MULTIPLIER_INTERCEPT
  }

  /** Conversion of a floating-point value to an integer type: truncation toward zero. */
  function Truncate(x: real): (r: int)
    ensures 0.0 <= x ==> 0 <= r && r as real <= x < r as real + 1.0
    ensures x < 0.0 ==> r <= 0 && r as real - 1.0 < x <= r as real
  {
    if x >= 0.0 then x.Floor else -((-x).Floor)
  }

  /** `multipliedRpm = currentRpm * rpmHexConversionMultipler`. */
  function ScaledRpm(rpm: int, multiplier: real): int
  {
    Truncate(rpm as real * multiplier)
  }

  /** `(currentTempCelsius + 48.373) / 0.75` converted to `unsigned char`. */
  function TempByte(celsius: int): (b: byte)
    requires MIN_ENCODABLE_TEMP <= celsius <= MAX_ENCODABLE_TEMP
  {
    Truncate((celsius as real + TEMP_OFFSET) / TEMP_SCALE)
  }

  /** The fitted multiplier falls as the speed rises, like the measured ratios. */
  lemma MultiplierDecreasing(a: int, b: int)
    requires a < b
    ensures Multiplier(b) < Multiplier(a)
  {
  }

  /** Over the swept speeds the multiplier stays between 6.53 and 6.65. */
  lemma MultiplierOverSweep(rpm: int)
    requires 1000 <= rpm <= 3000
    ensures 6.53 < Multiplier(rpm) < 6.65
    ensures MIN_MULTIPLIER <= Multiplier(rpm) <= MAX_MULTIPLIER
  {
    MultiplierDecreasing(1000, 3000);
    if 1000 < rpm { MultiplierDecreasing(1000, rpm); }
    if rpm < 3000 { MultiplierDecreasing(rpm, 3000); }
  }

  /** The ratios measured on the test cluster at 1000 to 7000 RPM, which the fit approximates. */
  const MEASURED: seq<(int, real)> :=
    [(1000, 6.65), (2000, 6.59), (3000, 6.53), (4000, 6.48), (5000, 6.42), (6000, 6.37), (7000, 6.31)]

  /** The fit is within 0.005 of every measured ratio. */
  lemma MultiplierFitsMeasurements()
    ensures forall i :: 0 <= i < |MEASURED| ==>
      -0.005 < Multiplier(MEASURED[i].0) - MEASURED[i].1 < 0.005
  {
  }

  /** With the multiplier within its bounds, a swept speed scales into 6500..20100: positive
      and below 2^15, so it fits the target's 16-bit `int` and the two bytes of the RPM frame. */
  lemma ScaledRpmInRange(rpm: int, multiplier: real)
    requires 1000 <= rpm <= 3000
    requires MIN_MULTIPLIER <= multiplier <= MAX_MULTIPLIER
    ensures MIN_SCALED_RPM <= ScaledRpm(rpm, multiplier) <= MAX_SCALED_RPM
  {
    var x := rpm as real;
    assert 1000.0 <= x <= 3000.0;
    assert x * multiplier >= 6500.0 by {
      ProductNonNegative(x - 1000.0, multiplier - MIN_MULTIPLIER);
      assert (x - 1000.0) * (multiplier - MIN_MULTIPLIER)
          == x * multiplier - MIN_MULTIPLIER * x - 1000.0 * multiplier + 6500.0;
    }
    assert x * multiplier <= 20100.0 by {
      ProductNonNegative(3000.0 - x, multiplier - MIN_MULTIPLIER);
      assert (3000.0 - x) * (multiplier - MIN_MULTIPLIER)
          == 3000.0 * multiplier - 19500.0 - x * multiplier + MIN_MULTIPLIER * x;
    }
  }

  lemma ProductNonNegative(a: real, b: real)
    requires 0.0 <= a && 0.0 <= b
    ensures 0.0 <= a * b
  {
  }

  /** The encoding of the simulated 95 degrees and of the zero-initialised temperature. */
  lemma TempByteExamples()
    ensures TempByte(95) == 191
    ensures TempByte(0) == 64
  {
  }

  /** A warmer engine never shows a lower encoded temperature. */
  lemma TempByteMonotonic(a: int, b: int)
    requires MIN_ENCODABLE_TEMP <= a <= b <= MAX_ENCODABLE_TEMP
    ensures TempByte(a) <= TempByte(b)
  {
    var x, y := (a as real + TEMP_OFFSET) / TEMP_SCALE, (b as real + TEMP_OFFSET) / TEMP_SCALE;
    assert x <= y;
  }

  /** The encoding is defined exactly on the encodable range: one degree beyond either end the
      value leaves the byte. */
  lemma TempByteDomain()
    ensures (MAX_ENCODABLE_TEMP as real + 1.0 + TEMP_OFFSET) / TEMP_SCALE >= 256.0
    ensures (MIN_ENCODABLE_TEMP as real - 1.0 + TEMP_OFFSET) / TEMP_SCALE <= -1.0
  {
  }

  /** The worked example of the frame encoding: 1000 RPM at a ratio of 6.65 is 6650 = 0x19FA. */
  lemma ScaledRpmExample()
    ensures ScaledRpm(1000, 6.65) == 6650
    ensures RpmFrame(ScaledRpm(1000, 6.65)) == [0, 0, 0xFA, 0x19, 0, 0, 0, 0]
  {
  }
}
