# BMP180 driver model

A Dafny model of the `bmp180` Python package: a driver for the Bosch BMP180
barometric pressure and temperature sensor on an I2C bus (device address
0x77). The model covers three pieces of logic:

- **Register decoding.** Big-endian register bytes become an unsigned
  16-bit word, a two's-complement 16-bit word, or the 16-to-19-bit raw
  pressure sample. The driver's own shifts and ors are proved equal to
  these values.
- **Compensation arithmetic.** The fixed-point algorithm turns the raw
  temperature `ut` and raw pressure `up` into tenths of a degree Celsius
  and pascal. It uses the eleven calibration coefficients and follows the
  driver's formulas, which differ from the Bosch datasheet's in two places:
  the `abs` in `b3`, and `p ** 2 >> 16` in the last step.
- **Measurement sequencing.** Opening the driver reads the calibration
  once. A reading writes a command to CONTROL, waits, and reads DATA. The
  mode selects the pressure command byte and the delay.

Modules, one file each:

- `pyint.dfy` (`PyInt`): Python's `<<`, `>>`, `//` and `|` on unbounded
  integers. `>>` and `//` round toward negative infinity. `|` works on the
  infinite two's-complement form.
- `registers.dfy` (`Registers`): the register map, the modes and command
  values, the decoders, the pressure command byte and the conversion delays.
- `compensation.dfy` (`Compensation`): the calibration record and the
  temperature and pressure formulas, with the datasheet's worked example.
- `bus.dfy` (`Bus`): the I2C bus as an oracle with a log. Three functions
  of the earlier transactions decide whether a write fails, whether a block
  read fails, and which bytes a read returns. Every transaction, failed or
  not, and every requested delay is appended to the log.
- `driver.dfy` (`Driver`): the `BMP180` class and its methods. Each bus
  step has a "run" function that gives, from the log before the step, the
  outcome and the log after it. Each method is proved to do exactly what
  its run function says. The protocol lemmas then state, event by event,
  what the run functions do.

Python exceptions become an `Error` value:

- `TransportError`: a failed bus transaction.
- `ZeroDivisionError`: the division in `readTemperature` or
  `readPressure`.

A failed step leaves the log ending in the transaction that failed.

## Model

| member | source | states |
|---|---|---|
| PyInt.Shr | src/bmp180/__init__.py:77 | `x >> k` is the floor of x / 2^k: r·2^k <= x < (r+1)·2^k, also for negative x |
| PyInt.Shl | src/bmp180/__init__.py:78 | `x << k` loses no bits: shifting the result back right by k gives x |
| PyInt.FloorDiv | src/bmp180/__init__.py:78 | `a // b` is the floor of a / b for either sign of b: the quotient brackets a from below for b > 0 and from above for b < 0 |
| PyInt.Or | src/bmp180/__init__.py:153 | `a \| b` on non-negative operands lies between max(a, b) and a + b; with a negative operand the result is negative |
| PyInt.Pow2Add | src/bmp180/__init__.py:143 | 2^(a+b) = 2^a · 2^b, which the nested shifts rely on |
| PyInt.ShrMonotone | src/bmp180/__init__.py:77 | `>>` preserves order |
| PyInt.ShrBelow | src/bmp180/__init__.py:143 | a value below 2^(k+m), shifted right by k, is below 2^m |
| PyInt.OrCommutative | src/bmp180/__init__.py:141 | `a \| b == b \| a` |
| PyInt.OrShifted | src/bmp180/__init__.py:143 | `(a << k) \| (b << k) == (a \| b) << k` |
| PyInt.OrDisjoint | src/bmp180/__init__.py:153 | or-ing l < 2^k into h << k is h·2^k + l, also for negative h |
| Registers.RegisterAddressesDistinct | src/bmp180/__init__.py:8-24 | two registers have the same address exactly when they are the same register |
| Registers.ModeValueInjective | src/bmp180/__init__.py:26-30 | two modes have the same oversampling value exactly when they are the same mode |
| Registers.DecodeU16 | src/bmp180/__init__.py:151-153 | the unsigned word of a register pair lies in [0, 65535] |
| Registers.DecodeS16 | src/bmp180/__init__.py:155-159 | the signed word lies in [-32768, 32767] and is negative exactly when the high byte is above 127 |
| Registers.ShiftOrDecodes | src/bmp180/__init__.py:153-159 | `data[0] << 8 \| data[1]` is hi·256 + lo; after `data[0] -= 256` on a high byte above 127 it is the signed word |
| Registers.DecodeS16IsTwosComplement | src/bmp180/__init__.py:155-159 | the signed word is the 16-bit two's-complement reading of the unsigned one |
| Registers.UnsignedRoundTrip | src/bmp180/__init__.py:151-153 | every value in [0, 65535] is decoded from the register pair that holds it |
| Registers.SignedRoundTrip | src/bmp180/__init__.py:155-159 | every value in [-32768, 32767] is decoded from the register pair that holds it |
| Registers.DecodeRoundTrip | src/bmp180/__init__.py:151-159 | encoding a decoded word, signed or unsigned, gives back the register pair |
| Registers.RawPressure | src/bmp180/__init__.py:143 | the raw pressure sample is non-negative and below 2^(16+oss) |
| Registers.ShiftOrRawPressure | src/bmp180/__init__.py:143 | `(raw[0] << 16 \| raw[1] << 8 \| raw[2]) >> (8 - oss)` is the raw pressure sample of the three bytes |
| Registers.Word24 | src/bmp180/__init__.py:143 | the three bytes or-ed at shifts 16, 8 and 0 are their big-endian value |
| Registers.PressureCommand | src/bmp180/__init__.py:141 | the byte written to CONTROL to start a pressure conversion: bits 6 and 7 hold the mode's value and the low six bits hold READ_PRESSURE (0x34) |
| Registers.PressureCommandIsOr | src/bmp180/__init__.py:141 | `READ_PRESSURE \| (oss << 6)` is 0x34 + 64·oss |
| Registers.PressureCommandDeterminesMode | src/bmp180/__init__.py:141 | two modes give the same command byte exactly when they are the same mode |
| Registers.PressureDelayMs | src/bmp180/__init__.py:137-139 | the delay before the pressure read: 5 ms, or 2 + (3 << oss) ms in the two highest modes; its values and its growth with oss are stated by PressureDelayTable and PressureDelayMonotone |
| Registers.PressureDelayTable | src/bmp180/__init__.py:137-139 | the pressure delay is 5, 5, 14 and 26 ms for modes 0 to 3 |
| Registers.PressureDelayMonotone | src/bmp180/__init__.py:137-139 | the delay never shrinks as oversampling grows; modes 0, 2 and 3 wait at least 2 + 3·2^oss ms, and Standard waits less than that |
| Compensation.TemperatureX1 | src/bmp180/__init__.py:77 | x1 is the floor of (ut - ac6) · ac5 / 2^15: x1 · 32768 <= (ut - ac6) · ac5 < (x1 + 1) · 32768 |
| Compensation.TemperatureX2 | src/bmp180/__init__.py:78 | x2 is the floor of (mc << 11) / (x1 + md), bracketing mc · 2048 from the correct side for either sign of the divisor |
| Compensation.B5 | src/bmp180/__init__.py:79 | b5 = x1 + x2, the same expression readPressure recomputes at :85-87 |
| Compensation.B6 | src/bmp180/__init__.py:88 | b6 = b5 - 4000 |
| Compensation.TemperatureTenths | src/bmp180/__init__.py:75-80 | `(b5 + 8) >> 4` is b5 / 16 rounded to the nearest integer, halves upward |
| Compensation.TemperatureX1Monotone | src/bmp180/__init__.py:77 | with a non-negative ac5, x1 never decreases as ut grows |
| Compensation.B62 | src/bmp180/__init__.py:89 | `b6 ** 2 >> 12` is never negative |
| Compensation.B3 | src/bmp180/__init__.py:90-93 | b3 is never negative, whatever the coefficients, because of the `abs` |
| Compensation.B4 | src/bmp180/__init__.py:94-97 | b4 = ac4 · (x3 + 32768) >> 15, with x3 built from ac3, b1 and b62 as written; the division by b4 is guarded by PressureDefined |
| Compensation.B7 | src/bmp180/__init__.py:98 | b7 = (up - b3) · (50000 >> oss), as written |
| Compensation.PressureP | src/bmp180/__init__.py:101-105 | whichever branch is taken, p is the exact floor of 2·b7 / b4 or one less |
| Compensation.FinalPressure | src/bmp180/__init__.py:107-110 | the last step, `p + ((x1 + x2 + 3791) >> 4)` with x1 from `p ** 2`; compared with the datasheet's by FinalPressureAtLeastDatasheet |
| Compensation.CompensatePressure | src/bmp180/__init__.py:82-110 | readPressure's formulas chained in the source's order, defined exactly when neither divisor is zero (PressureDefined); the datasheet example is checked by DatasheetPressure |
| Compensation.PressureBranchesDifferByAtMostOne | src/bmp180/__init__.py:101-105 | the two ways of computing p differ by 0 or 1, for either sign of b4 |
| Compensation.PressureBranchThreshold | src/bmp180/__init__.py:102-105 | the test is strict: b7 = 0x80000000 takes `b7 // b4 * 2`, and 0x7FFFFFFF takes `b7 * 2 // b4` |
| Compensation.PressureBranchMattersAtThreshold | src/bmp180/__init__.py:102-105 | at b7 = 0x80000000 with b4 = 3 the branch taken gives 1431655764, where the other formula gives 1431655765 |
| Compensation.FinalPressureAtLeastDatasheet | src/bmp180/__init__.py:107-110 | for p >= 0 the driver's last step, which squares p before shifting, never gives less than the datasheet's `(p >> 8) * (p >> 8)` |
| Compensation.DatasheetTemperature | src/bmp180/__init__.py:75-80 | the datasheet calibration with ut = 27898 gives x1 = 4743, x2 = -2344, b5 = 2399 and 150 tenths of a degree |
| Compensation.DatasheetPressure | src/bmp180/__init__.py:82-110 | with up = 23843 at oss 0: b6 = -1601, b3 = 422, b4 = 33457, b7 = 1171050000, p = 70003, and 69965 Pa where the datasheet's last step gives 69964 |
| Driver.WriteRegRun | src/bmp180/__init__.py:145-149 | `_writeReg`: the write is logged; if the bus fails it the step fails, otherwise a positive wait is logged after it (stated by WriteStep) |
| Driver.ReadRegRun | src/bmp180/__init__.py:161-162 | `_readReg`: the block read is logged; it fails if the bus fails it and otherwise yields the device's bytes (stated by ReadStep) |
| Driver.ReadU16Run | src/bmp180/__init__.py:151-153 | `_readU16BitInt`: a two-byte read decoded unsigned (stated by U16Step) |
| Driver.ReadS16Run | src/bmp180/__init__.py:155-159 | `_read16BitInt`: a two-byte read decoded signed (stated by S16Step) |
| Driver.CalibrationRun | src/bmp180/__init__.py:115-129 | `_readCalibration`: eleven word reads, each after the previous one, stopping at the first failure (stated by CalibrationProtocol) |
| Driver.RawTempRun | src/bmp180/__init__.py:131-134 | `_readRawTemp`: the temperature command, its wait, then an unsigned word read of DATA (stated by RawTempProtocol) |
| Driver.RawPressureRun | src/bmp180/__init__.py:136-143 | `_readRawPressure`: the pressure command, the mode's wait, then three bytes of DATA assembled into the sample (stated by RawPressureProtocol) |
| Driver.TemperatureRun | src/bmp180/__init__.py:75-80 | `readTemperature`: the raw temperature, then the compensation or a division by zero (stated by TemperatureProtocol) |
| Driver.PressureRun | src/bmp180/__init__.py:82-110 | `readPressure`: both raw samples first, then the compensation or a division by zero (stated by PressureProtocol) |
| Driver.CalibrationEvents | src/bmp180/__init__.py:116-126 | the eleven reads of two bytes from 0xAA, 0xAC, …, 0xBE at device 0x77, in the source's order |
| Driver.TemperatureEvents | src/bmp180/__init__.py:132-133 | write 0x2E to 0xF4, sleep 5 ms, read two bytes from 0xF6 |
| Driver.PressureConversionEvents | src/bmp180/__init__.py:137-142 | write 0x34 + 64·oss to 0xF4, sleep the mode's delay, read three bytes from 0xF6 |
| Driver.PressureEvents | src/bmp180/__init__.py:83-84 | the temperature events followed by the pressure conversion events |
| Driver.Sample | src/bmp180/__init__.py:161-162 | a read of count bytes returns exactly count bytes |
| Driver.CalibrationLog | src/bmp180/__init__.py:115-126 | after k calibration reads the log has grown by exactly k events |
| Driver.CalibrationWord | src/bmp180/__init__.py:116-126 | AC4, AC5 and AC6 are read unsigned and lie in [0, 65535]; the other eight are signed and lie in [-32768, 32767] |
| Driver.PrefixStep | src/bmp180/__init__.py:145-162 | one more event of a planned sequence extends the log by that event and stays within the plan |
| Driver.WriteStep | src/bmp180/__init__.py:145-149 | a register write fails exactly when the bus fails it, and then ends the log; otherwise it logs the write and then its delay |
| Driver.ReadStep | src/bmp180/__init__.py:161-162 | a block read logs one event, fails exactly when the bus fails it, and otherwise returns the device's bytes for it |
| Driver.U16Step | src/bmp180/__init__.py:151-153 | an unsigned word read logs one read; it fails exactly when the bus fails that read, and otherwise returns the decoded word |
| Driver.S16Step | src/bmp180/__init__.py:155-159 | a signed word read logs one read; it fails exactly when the bus fails that read, and otherwise returns the decoded word |
| Driver.CalibrationLogIsPrefix | src/bmp180/__init__.py:115-126 | the first k calibration reads are the first k events of the AC1..MD sequence |
| Driver.CalibrationReadFailed | src/bmp180/__init__.py:115-126 | when the k-th calibration read fails, the log stops after it with the failed read last |
| Driver.FirstFailure | src/bmp180/__init__.py:115-126 | the index of the first calibration read the bus fails: every read before it succeeds, and the read at it fails |
| Driver.CalibrationLogSteps | src/bmp180/__init__.py:115-126 | the calibration reads are AC1, AC2, AC3, AC4, AC5, AC6, B1, B2, MB, MC, MD, in that order, two bytes each |
| Driver.CalibrationCompletes | src/bmp180/__init__.py:115-129 | a completed calibration made the eleven reads, and each coefficient is the word its own read returned |
| Driver.CalibrationStopsAtFirstFailure | src/bmp180/__init__.py:115-126 | calibration fails exactly when one of its reads fails; the error is a transport error, and the log ends with the first failed read |
| Driver.CalibrationProtocol | src/bmp180/__init__.py:115-129 | the log is always a prefix of the eleven reads. On success it is all of them, each coefficient is its decoded word, and all are within the 16-bit ranges. On failure the failed read is the last event |
| Driver.PressureEventsAt | src/bmp180/__init__.py:82-84 | a pressure reading's six events, one by one: write CONTROL 0x2E, sleep 5, read DATA ×2, write CONTROL with the pressure command, sleep for the mode's delay, read DATA ×3 |
| Driver.RawTempSteps | src/bmp180/__init__.py:131-134 | the temperature conversion, embedded anywhere in a planned sequence, completes exactly when neither its write nor its read fails. A failed write stops the log after the write; a failed read stops it after the read. Otherwise all three events are logged and the decoded word returned |
| Driver.RawPressureSteps | src/bmp180/__init__.py:136-143 | the same for the pressure conversion: it completes exactly when neither transaction fails, stops the log at the first failed one, and otherwise returns the assembled raw pressure sample |
| Driver.RawTempProtocol | src/bmp180/__init__.py:131-134 | `_readRawTemp` writes 0x2E to CONTROL, waits 5 ms and reads two bytes of DATA. It fails with a transport error exactly when the write or the read fails, and the log then stops at the first failed transaction |
| Driver.RawPressureProtocol | src/bmp180/__init__.py:136-143 | `_readRawPressure` writes 0x34 + 64·oss to CONTROL, waits the mode's delay and reads three bytes of DATA, whose sample it returns. It fails with a transport error exactly when the write or the read fails, and the log then stops at the first failed transaction |
| Driver.TemperatureProtocol | src/bmp180/__init__.py:75-80 | on success the three events happen and the result compensates the sampled word. A transport error is raised exactly when the write or the read fails, and the log stops at the first failed transaction. A division by zero is raised only after all three events, exactly when the divisor is zero |
| Driver.PressureProtocol | src/bmp180/__init__.py:82-110 | on success the six events happen in order and the result compensates both samples. A transport error is raised exactly when one of the two writes or two reads fails, and the log stops at the first failed transaction. A division by zero is raised only after all six events |
| Driver.ReliableBusCalibrates | src/bmp180/__init__.py:67-70 | on a bus that never fails, opening always reads a calibration |
| Driver.ReliableBusTemperature | src/bmp180/__init__.py:75-80 | on a bus that never fails, a temperature reading makes all three events and can fail only by a division by zero |
| Driver.ReliableBusPressure | src/bmp180/__init__.py:82-110 | on a bus that never fails, a pressure reading makes all six events and can fail only by a division by zero |
| Driver.BMP180.constructor | src/bmp180/__init__.py:62-70 | the object holds the bus, the calibration and the mode it is given; the calibration, fixed from then on, is within the decoders' 16-bit ranges |
| Driver.BMP180.Open | src/bmp180/__init__.py:67-70 | `__init__` makes exactly the calibration run's bus traffic; it yields a fresh driver with that calibration and the mode exactly when the calibration completes |
| Driver.BMP180.SetMode | src/bmp180/__init__.py:72-73 | only the mode changes; the bus log stays as it was, and the calibration is a constant of the object |
| Driver.BMP180.ReadTemperature | src/bmp180/__init__.py:75-80 | the method's log and result are those of the temperature run |
| Driver.BMP180.ReadPressure | src/bmp180/__init__.py:82-110 | the method's log and result are those of the pressure run |
| Driver.BMP180.ReadRawTemp | src/bmp180/__init__.py:131-134 | the method's log and result are those of the raw temperature run |
| Driver.BMP180.ReadRawPressure | src/bmp180/__init__.py:136-143 | computing the delay, the command byte and the shifted or as the driver does gives the raw pressure run's log and result |
| Driver.BMP180.ReadCalibration | src/bmp180/__init__.py:115-129 | the eleven reads in the method give the calibration run's log and result |
| Driver.BMP180.WriteReg | src/bmp180/__init__.py:145-149 | a write, then a sleep only when the wait is positive and the write succeeded |
| Driver.BMP180.ReadU16 | src/bmp180/__init__.py:151-153 | the unsigned word read's log and result |
| Driver.BMP180.ReadS16 | src/bmp180/__init__.py:155-159 | adjusting `data[0]` in place before the shift and or gives the signed word read's log and result |
| Driver.BMP180.ReadReg | src/bmp180/__init__.py:161-162 | the block read's log and result; a successful read has exactly count bytes |
| Bus.I2CBus.WriteByteData | src/bmp180/__init__.py:146 | the write is logged, and it succeeds exactly when the oracle does not fail it |
| Bus.I2CBus.ReadI2CBlockData | src/bmp180/__init__.py:162 | the read is logged, and it returns the oracle's bytes unless the oracle fails it |
| Bus.I2CBus.Sleep | src/bmp180/__init__.py:149 | the delay is logged after everything before it |
| Bus.I2CBus.Reply | src/bmp180/__init__.py:162 | a reply has exactly the number of bytes asked for |

## Left out

- The smbus2 transport (`SMBus`, `write_byte_data`, `read_i2c_block_data`) is a foreign library. It is modelled as an oracle that may fail a transaction or supply the reply bytes. The model assumes that a failed transaction raises, so that nothing after it happens; the library's own exception types are folded into one `TransportError`.
- `Driver.BMP180.Open` takes an already opened bus object. Opening the bus by number (`SMBus(i2cBus)`) and the defaults (`i2cBus=1`, `ULTRA_LOW_POWER`) are left out.
- `time.sleep` is not modelled as time. The requested delay is logged in whole milliseconds: 0.005 s becomes 5, and `(2 + (3 << oss)) / 1000` s becomes `2 + (3 << oss)`.
- Compensation.TemperatureTenths: returns integer tenths of a degree, not the float `/ 10.0`, because floating point is outside the model.
- `calculateAbsoluteAltitude` is left out: it is a floating-point power with exponent 1/5.255.
- The debug `print` of the coefficients in `_readCalibration` is console output and is left out.
- The class attributes that start as `None` are left out: a `BMP180` value always holds its bus, calibration and mode.
- The bus reply is assumed well formed: a block read that succeeds returns exactly the requested number of bytes, each in 0..255. A short reply, which would raise `IndexError` at lines 143, 153 and 159, is therefore not modelled.
- `setup.py` is packaging metadata and is left out.
