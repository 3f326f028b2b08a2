/** The sensor's fixed constants (bus address, register map, command values,
    resolution modes) and the pure register-level encodings: the big-endian
    16-bit decoders, the 19-bit raw pressure assembly, the pressure command
    byte and the conversion delays. */
module Registers {
  import opened PyInt

  /** One byte as the bus delivers it. */
  type Byte = x: int | 0 <= x < 256

  const DeviceAddress: int := 0x77

  datatype Register =
    | AC1 | AC2 | AC3 | AC4 | AC5 | AC6 | B1 | B2 | MB | MC | MD
    | Control | Data
  {
    function Address(): (a: Byte)
    {
      match this
      case AC1 => 0xAA
      case AC2 => 0xAC
      case AC3 => 0xAE
      case AC4 => 0xB0
      case AC5 => 0xB2
      case AC6 => 0xB4
      case B1 => 0xB6
      case B2 => 0xB8
      case MB => 0xBA
      case MC => 0xBC
      case MD => 0xBE
      case Control => 0xF4
      case Data => 0xF6
    }
  }

  /** The resolution modes; the value of each is its oversampling exponent. */
  datatype Mode = UltraLowPower | Standard | HighResolution | UltraHighResolution
  {
    function Value(): (oss: nat)
      ensures oss <= 3
    {
      match this
      case UltraLowPower => 0
      case Standard => 1
      case HighResolution => 2
      case UltraHighResolution => 3
    }
  }

  datatype Command = ReadTemperature | ReadPressure
  {
    function Value(): Byte
    {
      match this
      case ReadTemperature => 0x2E
      case ReadPressure => 0x34
    }
  }

  lemma RegisterAddressesDistinct(r1: Register, r2: Register)
    ensures r1.Address() == r2.Address() <==> r1 == r2
  {
  }

  lemma ModeValueInjective(m1: Mode, m2: Mode)
    ensures m1.Value() == m2.Value() <==> m1 == m2
  {
  }

  // ---------------------------------------------------------------------
  // Big-endian 16-bit words

  /** The unsigned big-endian value of a register pair. */
  function DecodeU16(hi: Byte, lo: Byte): (v: int)
    ensures 0 <= v <= 0xFFFF
  {
    hi * 0x100 + lo
  }

  /** The signed value of a register pair: a high byte above 127 stands for
      itself minus 256. */
  function DecodeS16(hi: Byte, lo: Byte): (v: int)
    ensures -0x8000 <= v <= 0x7FFF
    ensures v < 0 <==> hi > 127
  {
    var high := if hi > 127 then hi - 0x100 else hi;
    high * 0x100 + lo
  }

  /** `data[0] << 8 | data[1]` is the unsigned word, and the same after
      `data[0] -= 256` on a high byte above 127 is the signed one. */
  lemma ShiftOrDecodes(hi: Byte, lo: Byte)
    ensures Or(Shl(hi, 8), lo) == DecodeU16(hi, lo)
    ensures Or(Shl(if hi > 127 then hi - 256 else hi, 8), lo) == DecodeS16(hi, lo)
  {
    Pow2Bytes();
    OrDisjoint(hi, 8, lo);
    OrDisjoint(hi - 256, 8, lo);
  }

  /** The standard two's-complement reading of a 16-bit unsigned value. */
  function ToSigned16(u: int): int
    requires 0 <= u <= 0xFFFF
  {
    if u >= 0x8000 then u - 0x10000 else u
  }

  lemma DecodeS16IsTwosComplement(hi: Byte, lo: Byte)
    ensures DecodeS16(hi, lo) == ToSigned16(DecodeU16(hi, lo))
  {
  }

  /** The register pair that holds a 16-bit word, whatever its signedness. */
  function EncodeWord(v: int): (bytes: (Byte, Byte))
    requires -0x8000 <= v <= 0xFFFF
  {
    var u := v % 0x10000;
    (u / 256, u % 256)
  }

  lemma UnsignedRoundTrip(v: int)
    requires 0 <= v <= 0xFFFF
    ensures DecodeU16(EncodeWord(v).0, EncodeWord(v).1) == v
  {
  }

  lemma SignedRoundTrip(v: int)
    requires -0x8000 <= v <= 0x7FFF
    ensures DecodeS16(EncodeWord(v).0, EncodeWord(v).1) == v
  {
  }

  lemma DecodeRoundTrip(hi: Byte, lo: Byte)
    ensures EncodeWord(DecodeU16(hi, lo)) == (hi, lo)
    ensures EncodeWord(DecodeS16(hi, lo)) == (hi, lo)
  {
    var u := DecodeU16(hi, lo);
    BytesOfWord(hi, lo);
    assert u % 0x10000 == u;
    if hi > 127 {
      assert DecodeS16(hi, lo) == u - 0x10000;
      assert (u - 0x10000) % 0x10000 == u;
    }
  }

  lemma BytesOfWord(hi: Byte, lo: Byte)
    ensures DecodeU16(hi, lo) / 256 == hi && DecodeU16(hi, lo) % 256 == lo
  {
  }

  // ---------------------------------------------------------------------
  // Pressure sample and command

  /** The raw pressure sample: the three DATA bytes as one big-endian
      24-bit value, of which the top 16 + oss bits are kept. */
  function RawPressure(b0: Byte, b1: Byte, b2: Byte, mode: Mode): (up: int)
    ensures 0 <= up < Pow2(16 + mode.Value())
  {
    var raw := b0 * 0x10000 + b1 * 0x100 + b2;
    Pow2Bytes();
    ShrBelow(raw, 8 - mode.Value(), 16 + mode.Value());
    Shr(raw, 8 - mode.Value())
  }

  /** `(raw[0] << 16 | raw[1] << 8 | raw[2]) >> (8 - oss)`, as the driver
      computes it, is that sample. */
  function ShiftOrRawPressure(b0: Byte, b1: Byte, b2: Byte, mode: Mode): (up: int)
    ensures up == RawPressure(b0, b1, b2, mode)
  {
    Word24(b0, b1, b2);
    Shr(Or(Or(Shl(b0, 16), Shl(b1, 8)), b2), 8 - mode.Value())
  }

  /** The three pressure bytes, or-ed together, are their big-endian value. */
  lemma Word24(b0: Byte, b1: Byte, b2: Byte)
    ensures Or(Or(Shl(b0, 16), Shl(b1, 8)), b2) == b0 * 0x10000 + b1 * 0x100 + b2
  {
    assert Pow2(8) == 256;
    Pow2Add(8, 8);
    assert Shl(b0, 16) == (b0 * 256) * Pow2(8);
    OrShifted(b0 * 256, b1, 8);
    OrDisjoint(b0, 8, b1);
    assert Or(Shl(b0, 16), Shl(b1, 8)) == (b0 * 256 + b1) * Pow2(8);
    OrDisjoint(b0 * 256 + b1, 8, b2);
  }

  /** The byte written to CONTROL to start a pressure conversion: the
      pressure command with the oversampling exponent in bits 6 and 7. */
  function PressureCommand(mode: Mode): (c: Byte)
    ensures c / 64 == mode.Value() && c % 64 == ReadPressure.Value()
  {
    ReadPressure.Value() + 64 * mode.Value()
  }

  /** `READ_PRESSURE | (oss << 6)`, as the driver computes it, is that byte. */
  lemma PressureCommandIsOr(mode: Mode)
    ensures Or(ReadPressure.Value(), Shl(mode.Value(), 6)) == PressureCommand(mode)
  {
    OrCommutative(ReadPressure.Value(), Shl(mode.Value(), 6));
    OrDisjoint(mode.Value(), 6, ReadPressure.Value());
  }

  lemma PressureCommandDeterminesMode(m1: Mode, m2: Mode)
    ensures PressureCommand(m1) == PressureCommand(m2) <==> m1 == m2
  {
  }

  // ---------------------------------------------------------------------
  // Conversion delays, in milliseconds

  const TemperatureDelayMs: nat := 5

  /** 5 ms, or 2 + (3 << oss) ms in the two highest modes. */
  function PressureDelayMs(mode: Mode): nat
  {
    if mode == HighResolution || mode == UltraHighResolution then
      2 + Shl(3, mode.Value())
    else
      5
  }

  lemma PressureDelayTable()
    ensures PressureDelayMs(UltraLowPower) == 5
    ensures PressureDelayMs(Standard) == 5
    ensures PressureDelayMs(HighResolution) == 14
    ensures PressureDelayMs(UltraHighResolution) == 26
  {
  }

  /** The delay never shrinks as the oversampling grows; in Standard mode it
      is shorter than the 2 + 3 * 2^oss used for the two highest modes. */
  lemma PressureDelayMonotone(m1: Mode, m2: Mode)
    requires m1.Value() <= m2.Value()
    ensures PressureDelayMs(m1) <= PressureDelayMs(m2)
    ensures m1 != Standard ==> PressureDelayMs(m1) >= 2 + 3 * Pow2(m1.Value())
    ensures PressureDelayMs(Standard) < 2 + 3 * Pow2(Standard.Value())
  {
  }
}
