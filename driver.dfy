/** The BMP180 driver object: calibration read once when it is opened, a
    resolution mode that can be changed, and readings that each drive a fixed
    handshake on the bus (write a command to CONTROL, wait, read DATA) before
    compensating the raw samples.

    Each bus-level step is specified by a "run" function that, from the bus
    log h before the step, gives the outcome and the log after it; the
    methods are proved to do exactly what their run functions say, and the
    protocol lemmas below say what the run functions do. */
module Driver {
  import opened PyInt
  import opened Registers
  import opened Compensation
  import opened Bus

  /** The exceptions a reading can raise: a failed bus transaction, or a
      division by zero in the compensation formulas. */
  datatype Error = TransportError | ZeroDivisionError

  datatype Result<T> = Ok(value: T) | Err(error: Error)
  {
    predicate IsFailure() { Err? }

    function PropagateFailure<U>(): Result<U>
      requires Err?
    {
      Err(error)
    }

    function Extract(): T
      requires Ok?
    {
      value
    }
  }

  /** The outcome of a step together with the bus log after it. */
  datatype Run<T> = Done(value: T, trace: seq<Event>) | Failed(error: Error, trace: seq<Event>)
  {
    predicate IsFailure() { Failed? }

    function PropagateFailure<U>(): Run<U>
      requires Failed?
    {
      Failed(error, trace)
    }

    function Extract(): Run<T>
      requires Done?
    {
      this
    }

    function Outcome(): Result<T>
    {
      if Done? then Ok(value) else Err(error)
    }
  }

  // ---------------------------------------------------------------------
  // Run functions: what each step does to a bus whose log is h

  /** _writeReg: write value to register, then sleep waitMs if it is positive. */
  function WriteRegRun(bus: I2CBus, h: seq<Event>, register: Register, value: int, waitMs: nat): Run<()>
  {
    var h' := h + [Write(DeviceAddress, register.Address(), value)];
    if bus.writeFails(h, DeviceAddress, register.Address(), value) then Failed(TransportError, h')
    else if waitMs > 0 then Done((), h' + [Sleep(waitMs)])
    else Done((), h')
  }

  /** _readReg: a block read of count bytes from register. */
  function ReadRegRun(bus: I2CBus, h: seq<Event>, register: Register, count: nat): Run<seq<Byte>>
  {
    var h' := h + [Read(DeviceAddress, register.Address(), count)];
    if bus.readFails(h, DeviceAddress, register.Address(), count) then Failed(TransportError, h')
    else Done(bus.Reply(h, DeviceAddress, register.Address(), count), h')
  }

  /** _readU16BitInt */
  function ReadU16Run(bus: I2CBus, h: seq<Event>, register: Register): Run<int>
  {
    var data :- ReadRegRun(bus, h, register, 2);
    Done(DecodeU16(data.value[0], data.value[1]), data.trace)
  }

  /** _read16BitInt */
  function ReadS16Run(bus: I2CBus, h: seq<Event>, register: Register): Run<int>
  {
    var data :- ReadRegRun(bus, h, register, 2);
    Done(DecodeS16(data.value[0], data.value[1]), data.trace)
  }

  /** _readCalibration: the eleven words in register order. */
  function CalibrationRun(bus: I2CBus, h: seq<Event>): Run<Calibration>
  {
    var ac1 :- ReadS16Run(bus, h, AC1);
    var ac2 :- ReadS16Run(bus, ac1.trace, AC2);
    var ac3 :- ReadS16Run(bus, ac2.trace, AC3);
    var ac4 :- ReadU16Run(bus, ac3.trace, AC4);
    var ac5 :- ReadU16Run(bus, ac4.trace, AC5);
    var ac6 :- ReadU16Run(bus, ac5.trace, AC6);
    var b1 :- ReadS16Run(bus, ac6.trace, B1);
    var b2 :- ReadS16Run(bus, b1.trace, B2);
    var mb :- ReadS16Run(bus, b2.trace, MB);
    var mc :- ReadS16Run(bus, mb.trace, MC);
    var md :- ReadS16Run(bus, mc.trace, MD);
    Done(Calibration(ac1.value, ac2.value, ac3.value, ac4.value, ac5.value, ac6.value,
                     b1.value, b2.value, mb.value, mc.value, md.value), md.trace)
  }

  /** _readRawTemp */
  function RawTempRun(bus: I2CBus, h: seq<Event>): Run<int>
  {
    var written :- WriteRegRun(bus, h, Control, ReadTemperature.Value(), TemperatureDelayMs);
    ReadU16Run(bus, written.trace, Data)
  }

  /** _readRawPressure */
  function RawPressureRun(bus: I2CBus, h: seq<Event>, mode: Mode): Run<int>
  {
    var written :- WriteRegRun(bus, h, Control, PressureCommand(mode), PressureDelayMs(mode));
    var raw :- ReadRegRun(bus, written.trace, Data, 3);
    Done(RawPressure(raw.value[0], raw.value[1], raw.value[2], mode), raw.trace)
  }

  /** readTemperature, in tenths of a degree Celsius. */
  function TemperatureRun(bus: I2CBus, h: seq<Event>, cal: Calibration): Run<int>
  {
    var ut :- RawTempRun(bus, h);
    if TemperatureDefined(cal, ut.value) then Done(TemperatureTenths(cal, ut.value), ut.trace)
    else Failed(ZeroDivisionError, ut.trace)
  }

  /** readPressure, in pascal. */
  function PressureRun(bus: I2CBus, h: seq<Event>, cal: Calibration, mode: Mode): Run<int>
  {
    var ut :- RawTempRun(bus, h);
    var up :- RawPressureRun(bus, ut.trace, mode);
    if PressureDefined(cal, ut.value) then Done(CompensatePressure(cal, ut.value, up.value, mode), up.trace)
    else Failed(ZeroDivisionError, up.trace)
  }

  // ---------------------------------------------------------------------
  // The protocol, written out event by event

  /** The eleven calibration reads, AC1 to MD, two bytes each. */
  function CalibrationEvents(): seq<Event>
  {
    [ Read(0x77, 0xAA, 2), Read(0x77, 0xAC, 2), Read(0x77, 0xAE, 2), Read(0x77, 0xB0, 2),
      Read(0x77, 0xB2, 2), Read(0x77, 0xB4, 2), Read(0x77, 0xB6, 2), Read(0x77, 0xB8, 2),
      Read(0x77, 0xBA, 2), Read(0x77, 0xBC, 2), Read(0x77, 0xBE, 2) ]
  }

  /** Start a temperature conversion, wait 5 ms, read two bytes of DATA. */
  function TemperatureEvents(): seq<Event>
  {
    [Write(0x77, 0xF4, 0x2E), Sleep(5), Read(0x77, 0xF6, 2)]
  }

  /** Start a pressure conversion with the mode in bits 6 and 7 of the
      command, wait the mode's delay, read three bytes of DATA. */
  function PressureConversionEvents(mode: Mode): seq<Event>
  {
    [Write(0x77, 0xF4, 0x34 + 64 * mode.Value()), Sleep(PressureDelayMs(mode)), Read(0x77, 0xF6, 3)]
  }

  /** A pressure reading converts the temperature first. */
  function PressureEvents(mode: Mode): seq<Event>
  {
    TemperatureEvents() + PressureConversionEvents(mode)
  }

  /** The bytes the device returns to the read at position i of events,
      when the events start after the log h. */
  function Sample(bus: I2CBus, h: seq<Event>, events: seq<Event>, i: nat): (data: seq<Byte>)
    requires i < |events| && events[i].Read?
    ensures |data| == events[i].count
  {
    bus.Reply(h + events[..i], events[i].device, events[i].register, events[i].count)
  }

  /** The calibration registers in the order they are read. */
  function CalibrationRegister(i: nat): Register
    requires i < 11
  {
    match i
    case 0 => AC1 case 1 => AC2 case 2 => AC3 case 3 => AC4
    case 4 => AC5 case 5 => AC6 case 6 => B1 case 7 => B2
    case 8 => MB case 9 => MC case _ => MD
  }

  /** The log after the first k calibration reads, when they start after h. */
  function CalibrationLog(h: seq<Event>, k: nat): (t: seq<Event>)
    requires k <= 11
    ensures |t| == |h| + k
  {
    if k == 0 then h
    else CalibrationLog(h, k - 1) + [Read(DeviceAddress, CalibrationRegister(k - 1).Address(), 2)]
  }

  /** The coefficient the i-th calibration read yields: AC4, AC5 and AC6 are
      unsigned, the others signed. */
  function CalibrationWord(bus: I2CBus, h: seq<Event>, i: nat): (w: int)
    requires i < 11
    ensures if 3 <= i <= 5 then Unsigned16(w) else Signed16(w)
  {
    var data := bus.Reply(CalibrationLog(h, i), DeviceAddress, CalibrationRegister(i).Address(), 2);
    if 3 <= i <= 5 then DecodeU16(data[0], data[1]) else DecodeS16(data[0], data[1])
  }

  /** The last transaction in the log t is one the bus failed. */
  predicate LastFailed(bus: I2CBus, t: seq<Event>)
  {
    |t| > 0 && Fails(bus, t[..|t| - 1], t[|t| - 1])
  }

  /** The transaction ev fails when it is issued after the log t. */
  predicate Fails(bus: I2CBus, t: seq<Event>, ev: Event)
  {
    match ev
    case Write(device, register, value) => bus.writeFails(t, device, register, value)
    case Read(device, register, count) => bus.readFails(t, device, register, count)
    case Sleep(_) => false
  }

  /** Event i of e fails when the events before it start after the log h. */
  predicate FailsAt(bus: I2CBus, h: seq<Event>, e: seq<Event>, i: nat)
    requires i < |e|
  {
    Fails(bus, h + e[..i], e[i])
  }

  lemma PrefixStep(h: seq<Event>, e: seq<Event>, i: nat)
    requires i < |e|
    ensures h + e[..i] + [e[i]] == h + e[..i + 1]
    ensures (h + e[..i + 1])[..|h| + i] == h + e[..i]
    ensures h <= h + e[..i + 1] <= h + e
  {
    assert e[..i + 1] == e[..i] + [e[i]];
  }

  /** A register write at position i of e, followed by its delay. */
  lemma WriteStep(bus: I2CBus, h: seq<Event>, e: seq<Event>, i: nat,
                  register: Register, value: int, waitMs: nat)
    requires i + 1 < |e| && waitMs > 0
    requires e[i] == Write(DeviceAddress, register.Address(), value) && e[i + 1] == Sleep(waitMs)
    ensures var run := WriteRegRun(bus, h + e[..i], register, value, waitMs);
            && h <= run.trace <= h + e
            && (run.Failed? ==> run.error == TransportError && run.trace == h + e[..i + 1]
                                && LastFailed(bus, run.trace))
            && (run.Done? ==> run.trace == h + e[..i + 2])
            && (run.Failed? <==> FailsAt(bus, h, e, i))
  {
    PrefixStep(h, e, i);
    PrefixStep(h, e, i + 1);
  }

  /** A block read at position i of e. */
  lemma ReadStep(bus: I2CBus, h: seq<Event>, e: seq<Event>, i: nat, register: Register, count: nat)
    requires i < |e| && e[i] == Read(DeviceAddress, register.Address(), count)
    ensures var run := ReadRegRun(bus, h + e[..i], register, count);
            && run.trace == h + e[..i + 1]
            && h <= run.trace <= h + e
            && (run.Failed? ==> run.error == TransportError && LastFailed(bus, run.trace))
            && (run.Done? ==> run.value == Sample(bus, h, e, i))
            && (run.Failed? <==> FailsAt(bus, h, e, i))
  {
    PrefixStep(h, e, i);
  }

  /** An unsigned word read at position i of e. */
  lemma U16Step(bus: I2CBus, h: seq<Event>, e: seq<Event>, i: nat, register: Register)
    requires i < |e| && e[i] == Read(DeviceAddress, register.Address(), 2)
    ensures var run := ReadU16Run(bus, h + e[..i], register);
            var data := Sample(bus, h, e, i);
            && run.trace == h + e[..i + 1]
            && h <= run.trace <= h + e
            && (run.Failed? ==> run.error == TransportError && LastFailed(bus, run.trace))
            && (run.Done? ==> run.value == DecodeU16(data[0], data[1]))
            && (run.Failed? <==> FailsAt(bus, h, e, i))
  {
    ReadStep(bus, h, e, i, register, 2);
  }

  /** A signed word read at position i of e. */
  lemma S16Step(bus: I2CBus, h: seq<Event>, e: seq<Event>, i: nat, register: Register)
    requires i < |e| && e[i] == Read(DeviceAddress, register.Address(), 2)
    ensures var run := ReadS16Run(bus, h + e[..i], register);
            var data := Sample(bus, h, e, i);
            && run.trace == h + e[..i + 1]
            && h <= run.trace <= h + e
            && (run.Failed? ==> run.error == TransportError && LastFailed(bus, run.trace))
            && (run.Done? ==> run.value == DecodeS16(data[0], data[1]))
            && (run.Failed? <==> FailsAt(bus, h, e, i))
  {
    ReadStep(bus, h, e, i, register, 2);
  }

  /** The first k calibration reads are the first k calibration events. */
  lemma {:induction false} CalibrationLogIsPrefix(h: seq<Event>, k: nat)
    requires k <= 11
    ensures CalibrationLog(h, k) == h + CalibrationEvents()[..k]
    ensures h <= CalibrationLog(h, k) <= h + CalibrationEvents()
  {
    var e := CalibrationEvents();
    if k > 0 {
      CalibrationLogIsPrefix(h, k - 1);
      assert e[k - 1] == Read(DeviceAddress, CalibrationRegister(k - 1).Address(), 2);
      PrefixStep(h, e, k - 1);
    } else {
      assert h + e[..0] == h;
    }
  }

  /** A failed k-th calibration read ends the log after k reads. */
  lemma CalibrationReadFailed(bus: I2CBus, h: seq<Event>, k: nat)
    requires 0 < k <= 11
    requires bus.readFails(CalibrationLog(h, k - 1), DeviceAddress, CalibrationRegister(k - 1).Address(), 2)
    ensures h <= CalibrationLog(h, k) <= h + CalibrationEvents()
    ensures LastFailed(bus, CalibrationLog(h, k))
  {
    CalibrationLogIsPrefix(h, k);
    var t := CalibrationLog(h, k);
    assert t[..|t| - 1] == CalibrationLog(h, k - 1);
  }

  /** The index of the first calibration read, from the k-th on, that the
      bus fails, or 11 if none of them does. */
  function FirstFailure(bus: I2CBus, h: seq<Event>, k: nat): (f: nat)
    requires k <= 11
    ensures k <= f <= 11
    ensures f < 11 ==> bus.readFails(CalibrationLog(h, f), DeviceAddress, CalibrationRegister(f).Address(), 2)
    ensures forall j :: k <= j < f ==> !bus.readFails(CalibrationLog(h, j), DeviceAddress, CalibrationRegister(j).Address(), 2)
    decreases 11 - k
  {
    if k == 11 then 11
    else if bus.readFails(CalibrationLog(h, k), DeviceAddress, CalibrationRegister(k).Address(), 2) then k
    else FirstFailure(bus, h, k + 1)
  }

  /** The calibration log, one read at a time. */
  lemma CalibrationLogSteps(h: seq<Event>)
    ensures CalibrationLog(h, 1) == CalibrationLog(h, 0) + [Read(DeviceAddress, AC1.Address(), 2)]
    ensures CalibrationLog(h, 2) == CalibrationLog(h, 1) + [Read(DeviceAddress, AC2.Address(), 2)]
    ensures CalibrationLog(h, 3) == CalibrationLog(h, 2) + [Read(DeviceAddress, AC3.Address(), 2)]
    ensures CalibrationLog(h, 4) == CalibrationLog(h, 3) + [Read(DeviceAddress, AC4.Address(), 2)]
    ensures CalibrationLog(h, 5) == CalibrationLog(h, 4) + [Read(DeviceAddress, AC5.Address(), 2)]
    ensures CalibrationLog(h, 6) == CalibrationLog(h, 5) + [Read(DeviceAddress, AC6.Address(), 2)]
    ensures CalibrationLog(h, 7) == CalibrationLog(h, 6) + [Read(DeviceAddress, B1.Address(), 2)]
    ensures CalibrationLog(h, 8) == CalibrationLog(h, 7) + [Read(DeviceAddress, B2.Address(), 2)]
    ensures CalibrationLog(h, 9) == CalibrationLog(h, 8) + [Read(DeviceAddress, MB.Address(), 2)]
    ensures CalibrationLog(h, 10) == CalibrationLog(h, 9) + [Read(DeviceAddress, MC.Address(), 2)]
    ensures CalibrationLog(h, 11) == CalibrationLog(h, 10) + [Read(DeviceAddress, MD.Address(), 2)]
  {
  }

  /** A completed calibration has made the eleven reads, and each
      coefficient is the word its read returned. */
  lemma CalibrationCompletes(bus: I2CBus, h: seq<Event>)
    ensures var run := CalibrationRun(bus, h);
            run.Done? ==>
              && run.trace == CalibrationLog(h, 11)
              && run.value == Calibration(
                   CalibrationWord(bus, h, 0), CalibrationWord(bus, h, 1), CalibrationWord(bus, h, 2),
                   CalibrationWord(bus, h, 3), CalibrationWord(bus, h, 4), CalibrationWord(bus, h, 5),
                   CalibrationWord(bus, h, 6), CalibrationWord(bus, h, 7), CalibrationWord(bus, h, 8),
                   CalibrationWord(bus, h, 9), CalibrationWord(bus, h, 10))
  {
    CalibrationLogSteps(h);
  }

  /** Calibration fails exactly when one of its reads fails, with a
      transport error, and the log then ends with the first failed read. */
  lemma CalibrationStopsAtFirstFailure(bus: I2CBus, h: seq<Event>)
    ensures var run := CalibrationRun(bus, h);
            var f := FirstFailure(bus, h, 0);
            && (run.Failed? <==> f < 11)
            && (run.Failed? ==> run.error == TransportError && run.trace == CalibrationLog(h, f + 1))
  {
    CalibrationLogSteps(h);
  }

  /** Calibration: on success the eleven reads happen in order and each
      coefficient is its word decoded with the right signedness; a failed
      read is the last thing in the log. */
  lemma CalibrationProtocol(bus: I2CBus, h: seq<Event>)
    ensures var run := CalibrationRun(bus, h);
            && h <= run.trace <= h + CalibrationEvents()
            && (run.Failed? ==> run.error == TransportError && LastFailed(bus, run.trace))
            && (run.Done? ==>
                  && run.trace == h + CalibrationEvents()
                  && run.value == Calibration(
                       CalibrationWord(bus, h, 0), CalibrationWord(bus, h, 1), CalibrationWord(bus, h, 2),
                       CalibrationWord(bus, h, 3), CalibrationWord(bus, h, 4), CalibrationWord(bus, h, 5),
                       CalibrationWord(bus, h, 6), CalibrationWord(bus, h, 7), CalibrationWord(bus, h, 8),
                       CalibrationWord(bus, h, 9), CalibrationWord(bus, h, 10))
                  && run.value.InRange())
  {
    var run := CalibrationRun(bus, h);
    if run.Done? {
      CalibrationCompletes(bus, h);
      CalibrationLogIsPrefix(h, 11);
      assert CalibrationEvents()[..11] == CalibrationEvents();
    } else {
      CalibrationStopsAtFirstFailure(bus, h);
      var f := FirstFailure(bus, h, 0);
      CalibrationReadFailed(bus, h, f + 1);
    }
  }

  lemma WholeSlices(h: seq<Event>, e: seq<Event>)
    ensures h + e[..0] == h && e[..|e|] == e
  {
    assert e[..0] == [];
  }

  /** The pressure events one by one. */
  lemma PressureEventsAt(mode: Mode)
    ensures var e := PressureEvents(mode);
            && |e| == 6
            && e[0] == Write(DeviceAddress, Control.Address(), ReadTemperature.Value())
            && e[1] == Sleep(TemperatureDelayMs) && e[2] == Read(DeviceAddress, Data.Address(), 2)
            && e[3] == Write(DeviceAddress, Control.Address(), PressureCommand(mode))
            && e[4] == Sleep(PressureDelayMs(mode)) && e[5] == Read(DeviceAddress, Data.Address(), 3)
  {
  }

  /** The temperature conversion at positions i to i + 2 of e: it fails
      exactly when its write or its read fails, and the log then stops at the
      failed transaction; otherwise it logs all three events and returns the
      decoded two bytes. */
  lemma RawTempSteps(bus: I2CBus, h: seq<Event>, e: seq<Event>, i: nat)
    requires i + 2 < |e|
    requires e[i] == Write(DeviceAddress, Control.Address(), ReadTemperature.Value())
    requires e[i + 1] == Sleep(TemperatureDelayMs) && e[i + 2] == Read(DeviceAddress, Data.Address(), 2)
    ensures var run := RawTempRun(bus, h + e[..i]);
            var data := Sample(bus, h, e, i + 2);
            && h <= run.trace <= h + e
            && (run.Failed? ==> run.error == TransportError && LastFailed(bus, run.trace))
            && (run.Done? ==> run.trace == h + e[..i + 3] && run.value == DecodeU16(data[0], data[1]))
    ensures var run := RawTempRun(bus, h + e[..i]);
            && (FailsAt(bus, h, e, i) ==> run == Failed(TransportError, h + e[..i + 1]))
            && (!FailsAt(bus, h, e, i) && FailsAt(bus, h, e, i + 2) ==>
                  run == Failed(TransportError, h + e[..i + 3]))
            && (run.Done? <==> !FailsAt(bus, h, e, i) && !FailsAt(bus, h, e, i + 2))
  {
    WriteStep(bus, h, e, i, Control, ReadTemperature.Value(), TemperatureDelayMs);
    U16Step(bus, h, e, i + 2, Data);
  }

  /** The pressure conversion at positions i to i + 2 of e: it fails exactly
      when its write or its read fails, and the log then stops at the failed
      transaction; otherwise it logs all three events and returns the
      assembled three bytes. */
  lemma RawPressureSteps(bus: I2CBus, h: seq<Event>, e: seq<Event>, i: nat, mode: Mode)
    requires i + 2 < |e|
    requires e[i] == Write(DeviceAddress, Control.Address(), PressureCommand(mode))
    requires e[i + 1] == Sleep(PressureDelayMs(mode)) && e[i + 2] == Read(DeviceAddress, Data.Address(), 3)
    ensures var run := RawPressureRun(bus, h + e[..i], mode);
            var data := Sample(bus, h, e, i + 2);
            && h <= run.trace <= h + e
            && (run.Failed? ==> run.error == TransportError && LastFailed(bus, run.trace))
            && (run.Done? ==> run.trace == h + e[..i + 3]
                              && run.value == RawPressure(data[0], data[1], data[2], mode))
    ensures var run := RawPressureRun(bus, h + e[..i], mode);
            && (FailsAt(bus, h, e, i) ==> run == Failed(TransportError, h + e[..i + 1]))
            && (!FailsAt(bus, h, e, i) && FailsAt(bus, h, e, i + 2) ==>
                  run == Failed(TransportError, h + e[..i + 3]))
            && (run.Done? <==> !FailsAt(bus, h, e, i) && !FailsAt(bus, h, e, i + 2))
  {
    WriteStep(bus, h, e, i, Control, PressureCommand(mode), PressureDelayMs(mode));
    ReadStep(bus, h, e, i + 2, Data, 3);
  }

  /** _readRawTemp: the three temperature events and the decoded two bytes;
      if the write or the read fails, the conversion fails with a transport
      error and the log stops at that transaction. */
  lemma RawTempProtocol(bus: I2CBus, h: seq<Event>)
    ensures var run := RawTempRun(bus, h);
            var data := Sample(bus, h, TemperatureEvents(), 2);
            && h <= run.trace <= h + TemperatureEvents()
            && (run.Failed? ==> run.error == TransportError && LastFailed(bus, run.trace))
            && (run.Done? ==> run.trace == h + TemperatureEvents() && run.value == DecodeU16(data[0], data[1]))
    ensures var run := RawTempRun(bus, h);
            var e := TemperatureEvents();
            && (FailsAt(bus, h, e, 0) ==> run == Failed(TransportError, h + e[..1]))
            && (!FailsAt(bus, h, e, 0) && FailsAt(bus, h, e, 2) ==> run == Failed(TransportError, h + e))
            && (run.Done? <==> !FailsAt(bus, h, e, 0) && !FailsAt(bus, h, e, 2))
  {
    var e := TemperatureEvents();
    WholeSlices(h, e);
    RawTempSteps(bus, h, e, 0);
  }

  /** _readRawPressure: the three conversion events and the assembled three
      bytes; if the write or the read fails, the conversion fails with a
      transport error and the log stops at that transaction. */
  lemma RawPressureProtocol(bus: I2CBus, h: seq<Event>, mode: Mode)
    ensures var run := RawPressureRun(bus, h, mode);
            var data := Sample(bus, h, PressureConversionEvents(mode), 2);
            && h <= run.trace <= h + PressureConversionEvents(mode)
            && (run.Failed? ==> run.error == TransportError && LastFailed(bus, run.trace))
            && (run.Done? ==>
                  run.trace == h + PressureConversionEvents(mode)
                  && run.value == RawPressure(data[0], data[1], data[2], mode))
    ensures var run := RawPressureRun(bus, h, mode);
            var e := PressureConversionEvents(mode);
            && (FailsAt(bus, h, e, 0) ==> run == Failed(TransportError, h + e[..1]))
            && (!FailsAt(bus, h, e, 0) && FailsAt(bus, h, e, 2) ==> run == Failed(TransportError, h + e))
            && (run.Done? <==> !FailsAt(bus, h, e, 0) && !FailsAt(bus, h, e, 2))
  {
    var e := PressureConversionEvents(mode);
    WholeSlices(h, e);
    RawPressureSteps(bus, h, e, 0, mode);
  }

  /** readTemperature: on success the three events happen in order and the
      result compensates the two bytes read. The reading fails with a
      transport error exactly when a transaction fails, and the log stops at
      the first one that does; a division by zero is found only once all
      three events have happened. */
  lemma TemperatureProtocol(bus: I2CBus, h: seq<Event>, cal: Calibration)
    ensures var run := TemperatureRun(bus, h, cal);
            var data := Sample(bus, h, TemperatureEvents(), 2);
            var ut := DecodeU16(data[0], data[1]);
            && h <= run.trace <= h + TemperatureEvents()
            && (run.Done? ==>
                  && run.trace == h + TemperatureEvents()
                  && TemperatureDefined(cal, ut)
                  && run.value == TemperatureTenths(cal, ut))
            && (run.Failed? && run.error == TransportError ==> LastFailed(bus, run.trace))
            && (run.Failed? && run.error == ZeroDivisionError ==>
                  run.trace == h + TemperatureEvents() && !TemperatureDefined(cal, ut))
    ensures var run := TemperatureRun(bus, h, cal);
            var e := TemperatureEvents();
            && (FailsAt(bus, h, e, 0) ==> run == Failed(TransportError, h + e[..1]))
            && (!FailsAt(bus, h, e, 0) && FailsAt(bus, h, e, 2) ==> run == Failed(TransportError, h + e))
            && (run.Failed? && run.error == TransportError <==> FailsAt(bus, h, e, 0) || FailsAt(bus, h, e, 2))
  {
    RawTempProtocol(bus, h);
  }

  /** readPressure: on success the six events happen in order and the result
      compensates the samples read. The reading fails with a transport error
      exactly when a transaction fails, and the log stops at the first one
      that does; a division by zero is found only once all six events have
      happened. */
  lemma PressureProtocol(bus: I2CBus, h: seq<Event>, cal: Calibration, mode: Mode)
    ensures var run := PressureRun(bus, h, cal, mode);
            var events := PressureEvents(mode);
            var t := Sample(bus, h, events, 2);
            var p := Sample(bus, h, events, 5);
            var ut := DecodeU16(t[0], t[1]);
            var up := RawPressure(p[0], p[1], p[2], mode);
            && h <= run.trace <= h + events
            && (run.Done? ==>
                  && run.trace == h + events
                  && PressureDefined(cal, ut)
                  && run.value == CompensatePressure(cal, ut, up, mode))
            && (run.Failed? && run.error == TransportError ==> LastFailed(bus, run.trace))
            && (run.Failed? && run.error == ZeroDivisionError ==>
                  run.trace == h + events && !PressureDefined(cal, ut))
    ensures var run := PressureRun(bus, h, cal, mode);
            var e := PressureEvents(mode);
            && (FailsAt(bus, h, e, 0) ==> run == Failed(TransportError, h + e[..1]))
            && (!FailsAt(bus, h, e, 0) && FailsAt(bus, h, e, 2) ==> run == Failed(TransportError, h + e[..3]))
            && (!FailsAt(bus, h, e, 0) && !FailsAt(bus, h, e, 2) && FailsAt(bus, h, e, 3) ==>
                  run == Failed(TransportError, h + e[..4]))
            && (!FailsAt(bus, h, e, 0) && !FailsAt(bus, h, e, 2) && !FailsAt(bus, h, e, 3) && FailsAt(bus, h, e, 5) ==>
                  run == Failed(TransportError, h + e))
            && (run.Failed? && run.error == TransportError <==>
                  FailsAt(bus, h, e, 0) || FailsAt(bus, h, e, 2) || FailsAt(bus, h, e, 3) || FailsAt(bus, h, e, 5))
  {
    var e := PressureEvents(mode);
    PressureEventsAt(mode);
    WholeSlices(h, e);
    RawTempSteps(bus, h, e, 0);
    var temperature := RawTempRun(bus, h);
    if temperature.Done? {
      RawPressureSteps(bus, h, e, 3, mode);
    }
  }

  /** A bus that never fails a write or a read. */
  ghost predicate Reliable(bus: I2CBus)
  {
    && (forall g, d, r, v :: !bus.writeFails(g, d, r, v))
    && (forall g, d, r, n :: !bus.readFails(g, d, r, n))
  }

  /** On a bus that never fails, opening always succeeds. */
  lemma ReliableBusCalibrates(bus: I2CBus, h: seq<Event>)
    requires Reliable(bus)
    ensures CalibrationRun(bus, h).Done?
  {
    CalibrationProtocol(bus, h);
  }

  /** On a bus that never fails, a temperature reading makes all of its
      events and can fail only by a division by zero. */
  lemma ReliableBusTemperature(bus: I2CBus, h: seq<Event>, cal: Calibration)
    requires Reliable(bus)
    ensures TemperatureRun(bus, h, cal).trace == h + TemperatureEvents()
    ensures TemperatureRun(bus, h, cal).Failed? ==> TemperatureRun(bus, h, cal).error == ZeroDivisionError
  {
    TemperatureProtocol(bus, h, cal);
  }

  /** On a bus that never fails, a pressure reading makes all of its events
      and can fail only by a division by zero. */
  lemma ReliableBusPressure(bus: I2CBus, h: seq<Event>, cal: Calibration, mode: Mode)
    requires Reliable(bus)
    ensures PressureRun(bus, h, cal, mode).trace == h + PressureEvents(mode)
    ensures PressureRun(bus, h, cal, mode).Failed? ==>
              PressureRun(bus, h, cal, mode).error == ZeroDivisionError
  {
    PressureProtocol(bus, h, cal, mode);
  }

  // ---------------------------------------------------------------------
  // The driver

  class BMP180 {
    const bus: I2CBus
    const calibration: Calibration
    var mode: Mode

    /** The calibration holds what the decoders can produce. */
    ghost predicate Valid()
      reads this
    {
      calibration.InRange()
    }

    constructor (bus: I2CBus, calibration: Calibration, mode: Mode)
      requires calibration.InRange()
      ensures this.bus == bus && this.calibration == calibration && this.mode == mode
      ensures Valid()
    {
      this.bus := bus;
      this.calibration := calibration;
      this.mode := mode;
    }

    /** __init__: read the calibration from the bus, then keep the mode. No
        driver exists if a calibration read fails. */
    static method Open(bus: I2CBus, mode: Mode) returns (r: Result<BMP180>)
      modifies bus
      ensures var run := CalibrationRun(bus, old(bus.trace));
              && bus.trace == run.trace
              && (r.Ok? <==> run.Done?)
              && (r.Err? ==> r.error == run.error)
              && (r.Ok? ==> && fresh(r.value) && r.value.Valid()
                            && r.value.bus == bus
                            && r.value.calibration == run.value
                            && r.value.mode == mode)
    {
      CalibrationProtocol(bus, bus.trace);
      var calibration :- ReadCalibration(bus);
      var sensor := new BMP180(bus, calibration, mode);
      r := Ok(sensor);
    }

    /** setMode: only the mode changes. */
    method SetMode(mode: Mode)
      modifies this`mode
      ensures this.mode == mode
      ensures bus.trace == old(bus.trace)
    {
      this.mode := mode;
    }

    /** readTemperature, in tenths of a degree Celsius. */
    method ReadTemperature() returns (r: Result<int>)
      modifies bus
      ensures var run := TemperatureRun(bus, old(bus.trace), calibration);
              bus.trace == run.trace && r == run.Outcome()
    {
      var ut :- ReadRawTemp();
      if !TemperatureDefined(calibration, ut) {
        return Err(ZeroDivisionError);
      }
      r := Ok(TemperatureTenths(calibration, ut));
    }

    /** readPressure, in pascal. Both samples are taken before the formulas
        run, so a division by zero is only found after the bus traffic. */
    method ReadPressure() returns (r: Result<int>)
      modifies bus
      ensures var run := PressureRun(bus, old(bus.trace), calibration, mode);
              bus.trace == run.trace && r == run.Outcome()
    {
      ghost var h0 := bus.trace;
      var ut :- ReadRawTemp();
      ghost var temperatureRun := RawTempRun(bus, h0);
      assert temperatureRun.Done? && temperatureRun.value == ut && temperatureRun.trace == bus.trace;
      var up :- ReadRawPressure();
      ghost var pressureRun := RawPressureRun(bus, temperatureRun.trace, mode);
      assert pressureRun.Done? && pressureRun.value == up && pressureRun.trace == bus.trace;
      if !PressureDefined(calibration, ut) {
        return Err(ZeroDivisionError);
      }
      r := Ok(CompensatePressure(calibration, ut, up, mode));
    }

    /** _readRawTemp */
    method ReadRawTemp() returns (r: Result<int>)
      modifies bus
      ensures var run := RawTempRun(bus, old(bus.trace));
              bus.trace == run.trace && r == run.Outcome()
    {
      var written :- WriteReg(bus, Control, Command.ReadTemperature.Value(), TemperatureDelayMs);
      r := ReadU16(bus, Data);
    }

    /** _readRawPressure: the delay is in milliseconds. */
    method ReadRawPressure() returns (r: Result<int>)
      modifies bus
      ensures var run := RawPressureRun(bus, old(bus.trace), mode);
              bus.trace == run.trace && r == run.Outcome()
    {
      ghost var h0 := bus.trace;
      var delay: nat := 5;
      if mode == HighResolution || mode == UltraHighResolution {
        delay := 2 + Shl(3, mode.Value());
      }
      var command := Or(Command.ReadPressure.Value(), Shl(mode.Value(), 6));
      PressureCommandIsOr(mode);
      assert delay == PressureDelayMs(mode);
      var written :- WriteReg(bus, Control, command, delay);
      ghost var w := WriteRegRun(bus, h0, Control, PressureCommand(mode), PressureDelayMs(mode));
      assert w.Done? && w.trace == bus.trace;
      var raw :- ReadReg(bus, Data, 3);
      ghost var rd := ReadRegRun(bus, w.trace, Data, 3);
      assert rd.Done? && rd.value == raw && rd.trace == bus.trace;
      var up := ShiftOrRawPressure(raw[0], raw[1], raw[2], mode);
      r := Ok(up);
    }

    /** _readCalibration */
    static method ReadCalibration(bus: I2CBus) returns (r: Result<Calibration>)
      modifies bus
      ensures var run := CalibrationRun(bus, old(bus.trace));
              bus.trace == run.trace && r == run.Outcome()
    {
      var ac1 :- ReadS16(bus, AC1);
      var ac2 :- ReadS16(bus, AC2);
      var ac3 :- ReadS16(bus, AC3);
      var ac4 :- ReadU16(bus, AC4);
      var ac5 :- ReadU16(bus, AC5);
      var ac6 :- ReadU16(bus, AC6);
      var b1 :- ReadS16(bus, B1);
      var b2 :- ReadS16(bus, B2);
      var mb :- ReadS16(bus, MB);
      var mc :- ReadS16(bus, MC);
      var md :- ReadS16(bus, MD);
      r := Ok(Calibration(ac1, ac2, ac3, ac4, ac5, ac6, b1, b2, mb, mc, md));
    }

    /** _writeReg */
    static method WriteReg(bus: I2CBus, register: Register, value: int, waitMs: nat) returns (r: Result<()>)
      modifies bus
      ensures var run := WriteRegRun(bus, old(bus.trace), register, value, waitMs);
              bus.trace == run.trace && r == run.Outcome()
    {
      var ok := bus.WriteByteData(DeviceAddress, register.Address(), value);
      if !ok {
        return Err(TransportError);
      }
      if waitMs > 0 {
        bus.Sleep(waitMs);
      }
      r := Ok(());
    }

    /** _readU16BitInt */
    static method ReadU16(bus: I2CBus, register: Register) returns (r: Result<int>)
      modifies bus
      ensures var run := ReadU16Run(bus, old(bus.trace), register);
              bus.trace == run.trace && r == run.Outcome()
    {
      var data :- ReadReg(bus, register, 2);
      ShiftOrDecodes(data[0], data[1]);
      r := Ok(Or(Shl(data[0], 8), data[1]));
    }

    /** _read16BitInt: the list the bus returned is changed in place. */
    static method ReadS16(bus: I2CBus, register: Register) returns (r: Result<int>)
      modifies bus
      ensures var run := ReadS16Run(bus, old(bus.trace), register);
              bus.trace == run.trace && r == run.Outcome()
    {
      var bytes :- ReadReg(bus, register, 2);
      var data := new int[2];
      data[0], data[1] := bytes[0], bytes[1];
      if data[0] > 127 {
        data[0] := data[0] - 256;
      }
      ShiftOrDecodes(bytes[0], bytes[1]);
      r := Ok(Or(Shl(data[0], 8), data[1]));
    }

    /** _readReg */
    static method ReadReg(bus: I2CBus, register: Register, count: nat) returns (r: Result<seq<Byte>>)
      modifies bus
      ensures var run := ReadRegRun(bus, old(bus.trace), register, count);
              bus.trace == run.trace && r == run.Outcome()
      ensures r.Ok? ==> |r.value| == count
    {
      var data := bus.ReadI2CBlockData(DeviceAddress, register.Address(), count);
      r := if data.None? then Err(TransportError) else Ok(data.value);
    }
  }
}
