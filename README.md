# E46 instrument-cluster CAN emulator: signal state and payload encoding

This project models the core of an Arduino program (`src/main.cpp`) that drives a BMW E46
instrument cluster over CAN. The program has no real sensors. It keeps a few module-level globals:
- a simulated engine speed that sweeps up and down between 1000 and 3000 RPM in steps of 25;
- a fixed coolant temperature of 95 °C;
- a fuel-consumption accumulator that grows by 40 on every misc frame.

Five timed actions turn these globals into three 8-byte payloads. Those payloads go out with CAN
identifiers 0x316 (RPM), 0x329 (temperature) and 0x545 (lamps, fuel consumption and the
temperature alarm).

The project has four modules:

- `Payload` (`payload.dfy`) defines the byte layout of the frames. It has the low-byte and high-byte
  split as C's conversions to `unsigned char` compute it, and the little-endian read-back. It also
  has the RPM, temperature and misc frames and the alarm byte. It proves the round trips between
  values and bytes, and that a frame is unchanged when the consumption value wraps at 16 bits.
- `RpmSweep` (`sweep.dfy`) is the triangle wave of `canReadRpm` as a pure step function. It gives a
  closed form of the state after k calls, and proves: the bounds, the ±25 moves, that the direction
  turns exactly at the bounds, and that the sweep has period 160, with none shorter.
- `Calibration` (`calibration.dfy`) holds the conversions the target does in floating point:
  - the RPM multiplier fitted to the test cluster, checked against the seven measured ratios in
    the file header;
  - the scaled speed, with C's truncation toward zero;
  - the coolant-temperature byte.
- `ClusterControl` (`cluster.dfy`) has one class `Cluster`. Its fields are the globals and the three
  payload arrays (`array<byte>` of length 8). Its methods are `canReadRpm`, `canWriteRpm`,
  `canReadTemp`, `canWriteTemp` and `canWriteMisc`, plus `Pass`, one pass of `loop()`,
  which runs its RPM half (`RpmActions`) and then its temperature and misc half (`TempAndMiscActions`).
  - `Valid()` is the invariant kept between steps. It holds the sweep's closed form, the ranges of
    the multiplier and of the scaled speed, the temperature (0 or 95), the fuel relation
    `consumptionValue == 40 * consumptionCounter`, and the payload bytes no step writes staying zero.
  - Each method states its new state as an update of the old one (`State()`), with everything else
    unchanged.
  - Each writer returns the `CanMessage` it hands to the bus.
  - `FirstTwoPasses` runs two passes with every action due, from a fresh object, and asserts the
    six messages that come out.

The float expressions are modelled as exact `real` arithmetic plus C's truncation toward zero when
the result is stored in an integer.
- For the temperature byte this gives exactly what the target computes for every encodable integer
  temperature. The exact quotient `(c + 48.373) / 0.75` has a fractional part of about .16, .50 or
  .83, far from the single-precision error.
- For the scaled RPM see "Left out".

Where a natural reading of the program differs from what the code does, the model follows the code:
- The temperature byte is truncated toward zero by the conversion to `unsigned char`; it is not
  rounded to the nearest integer.
- A temperature outside −49..143 °C is a precondition, because the C conversion to `unsigned char`
  is undefined there.
- The lamp byte is always 0.
- The scheduling clock is replaced by the `Due` flags, because the firing rule lives in the
  `TimedAction` library, which is not part of this model.

## Model

| member | source | states |
|---|---|---|
| `RpmSweep.NextAt` | src/main.cpp:64-70 | One `canReadRpm` step (direction chosen from the speed before the update, then applied) moves the closed-form sweep state from call k to call k+1 |
| `RpmSweep.IterateAt` | src/main.cpp:49-55 | Starting from `currentRpm = 1000` and the zero-initialised `step`, the state after k calls equals the closed form: up 25 per call for 80 calls, then down 25 per call for 80 calls |
| `RpmSweep.AtInRange` | src/main.cpp:48-55 | After any number of calls the speed is in [1000, 3000] and is 1000 plus a multiple of 25. The step is 0 only before the first call and ±25 afterwards |
| `RpmSweep.AtMoves` | src/main.cpp:65-70 | Every call changes `currentRpm` by exactly the new step, which is +25 or −25 |
| `RpmSweep.TurnsExactlyAtBounds` | src/main.cpp:65-68 | The step changes if and only if the speed before the call is 1000 or 3000. At 3000 it becomes −25, at 1000 it becomes +25, otherwise the previous step is kept |
| `RpmSweep.ReachesBounds` | src/main.cpp:49-50 | After any number k of calls, the speed is 3000 exactly when k ≡ 80 (mod 160) and 1000 exactly when k ≡ 0 (mod 160) |
| `RpmSweep.Periodic` | src/main.cpp:64-70 | From the first call on, the (`currentRpm`, `step`) state repeats after 160 calls |
| `RpmSweep.LeastPeriod` | src/main.cpp:64-70 | No shorter period exists: for every k and 0 < j < 160 the state after k+j calls differs from the state after k |
| `Payload.JoinSplit` | src/main.cpp:78-79 | Reading back the low byte (`(unsigned char) v`) and the high byte (`(unsigned char)(v >> 8)`) little-endian gives v modulo 2^16 |
| `Payload.SplitJoin` | src/main.cpp:78-79 | Conversely, any two bytes are recovered by splitting their little-endian join |
| `Payload.Join` | src/main.cpp:104-105 | A little-endian pair of bytes reads back as a value in [0, 65536) |
| `Payload.Wrap16` | src/main.cpp:96-97 | Two's-complement wrap into the target's 16-bit `int`: the result is in [−32768, 32768) and congruent to the input modulo 2^16 |
| `Payload.SplitIgnoresWrap` | src/main.cpp:104-105 | The two payload bytes of a value equal those of its 16-bit wrap |
| `Payload.AlarmByte` | src/main.cpp:106-109 | The alarm byte is 8 if and only if the temperature is at least 110, and 0 if and only if it is below |
| `Payload.RpmFrameRoundTrip` | src/main.cpp:59 | The RPM frame is zero outside bytes 2 and 3, and bytes 2-3 read back as the scaled speed modulo 2^16 (exactly, for 0 ≤ v < 65536) |
| `Payload.RpmFrameOfRpm` | src/main.cpp:78-79 | Every frame zero outside bytes 2-3 is the encoding of the speed it carries |
| `Payload.MiscFrameRoundTrip` | src/main.cpp:100-109 | The misc frame has lamp byte 0, bytes 1-2 read back as the consumption modulo 2^16, byte 3 = 8 exactly when the temperature is ≥ 110, and bytes 4-7 zero |
| `Payload.MiscFrameWraps` | src/main.cpp:104-105 | The misc frame built from the unbounded consumption value is the one built from the value after 16-bit wrap-around |
| `Calibration.Truncate` | src/main.cpp:71 | Storing a float in an integer truncates toward zero: the result lies within one of the value, on the zero side |
| `Calibration.MultiplierDecreasing` | src/main.cpp:76 | The fitted multiplier strictly decreases as the speed rises |
| `Calibration.MultiplierOverSweep` | src/main.cpp:76 | Over 1000..3000 RPM the fitted multiplier lies strictly between 6.53 and 6.65 |
| `Calibration.MultiplierFitsMeasurements` | src/main.cpp:14-21 | The fitted line is within 0.005 of each of the seven ratios measured on the test cluster |
| `Calibration.ScaledRpmInRange` | src/main.cpp:71 | A swept speed times a multiplier in [6.5, 6.7] truncates to 6500..20100. That fits the 16-bit `int` and the two bytes of the RPM frame |
| `Calibration.ScaledRpmExample` | src/main.cpp:71-79 | 1000 RPM at ratio 6.65 scales to 6650 and is sent as bytes 0xFA, 0x19 |
| `Calibration.TempByteExamples` | src/main.cpp:86-91 | The simulated 95 °C encodes as 191, the zero-initialised 0 °C as 64 |
| `Calibration.TempByteMonotonic` | src/main.cpp:91 | A higher temperature never encodes to a lower byte |
| `Calibration.TempByteDomain` | src/main.cpp:91 | The encodable range −49..143 °C is the largest whose encoding fits an `unsigned char` |
| `ClusterControl.FirstSpeeds` | src/main.cpp:71-79 | When every action is due from the start, the first pass sends 1025 RPM × 6.55 = 6713 (bytes 0x39, 0x1A). The second sends 1050 RPM scaled by the multiplier fitted at 1025 RPM, which is 6976 (bytes 0x40, 0x1B) |
| `ClusterControl.Cluster.constructor` | src/main.cpp:46-61 | Initial globals: speed 1000, step 0, multiplier 6.55, temperature 0, consumption 0 and counter 0, with all three payloads zero |
| `ClusterControl.Cluster.ReadRpm` | src/main.cpp:64-72 | The sweep takes one `Next` step, and `multipliedRpm` becomes the new speed scaled by the multiplier as it was before the call. Nothing else changes, and the invariant (bounds, grid, closed form) is kept |
| `ClusterControl.Cluster.WriteRpm` | src/main.cpp:75-82 | The RPM payload becomes the frame of the current `multipliedRpm` (bytes 2-3 read back to it exactly), the message 0x316 carries it, and the multiplier is refitted from the current speed. Nothing else changes |
| `ClusterControl.Cluster.ReadTemp` | src/main.cpp:85-87 | The temperature becomes 95 and nothing else changes |
| `ClusterControl.Cluster.WriteTemp` | src/main.cpp:90-93 | Byte 1 of the temperature payload becomes the encoded temperature, the rest stays zero, and the message 0x329 carries it |
| `ClusterControl.Cluster.WriteMisc` | src/main.cpp:100-118 | The misc payload becomes lamp 0, the consumption before the call split little-endian, and the alarm byte of the current temperature (always 0 here). Then consumption grows by 40 and the counter by 1, which keeps `consumptionValue == 40 * consumptionCounter` |
| `ClusterControl.Cluster.Pass` | src/main.cpp:147-153 | One `loop()` pass runs the due actions in the order readRpm, writeRpm, readTemp, writeTemp, writeMisc. The RPM frame carries this pass's speed scaled with the previous multiplier, the refit only affects the next pass, the misc alarm uses the temperature read in the same pass, and the messages come out in that order |

## Left out

- CAN transmission (`CAN_BMW.sendMsgBuf`, the two `mcp2515_can` objects, SPI pins): foreign
  hardware library. Each writer returns the `CanMessage` it would send. Send failures are not
  modelled.
- `setup()` with its bus-initialisation retry loop, `delay` and Serial logging: I/O plumbing only.
- The `TimedAction` periods (40 ms and 10 ms) and its firing rule: the library is not part of this
  model. `Pass` takes the five "due" answers as a parameter instead.
- `ClusterControl.Cluster.ReadRpm`: the float product `currentRpm * rpmHexConversionMultipler` is
  computed exactly rather than in single precision. When the exact product lies within float
  rounding error of an integer, the target may truncate to a value one lower or one higher.
- `ClusterControl.Cluster.WriteMisc`: `consumptionValue` and `consumptionCounter` are unbounded.
  On the 16-bit target `consumptionValue` is 32760 after 819 calls and passes 32767 on call 820,
  where C signed overflow is undefined. The bytes sent are proved equal to those of the two's-complement wrapped value
  (`Payload.MiscFrameWraps`), so the frame matches a wrapping target.
- The commented-out lamp codes 2, 16 and 18: the program always writes 0.
- The second CAN interface (`CAN_NISSAN`) is only initialised, never read: the speed and
  temperature "reads" are simulations.
