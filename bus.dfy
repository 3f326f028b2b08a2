/** The I2C bus the driver talks to, as an oracle with a log. The device's
    behaviour is given by three functions of the transactions that came
    before: whether a write fails, whether a block read fails, and the bytes a
    block read returns. Every transaction, failed or not, and every delay the
    driver requests, is appended to the log in the order it happens. */
module Bus {
  import opened Registers

  datatype Event =
    | Write(device: int, register: int, value: int)
    | Sleep(ms: nat)
    | Read(device: int, register: int, count: nat)

  class I2CBus {
    const writeFails: (seq<Event>, int, int, int) -> bool
    const readFails: (seq<Event>, int, int, nat) -> bool
    const replyByte: (seq<Event>, int, int, nat, nat) -> Byte

    /** Everything that has happened on this bus so far. */
    var trace: seq<Event>

    constructor (writeFails: (seq<Event>, int, int, int) -> bool,
                 readFails: (seq<Event>, int, int, nat) -> bool,
                 replyByte: (seq<Event>, int, int, nat, nat) -> Byte)
      ensures this.writeFails == writeFails && this.readFails == readFails
      ensures this.replyByte == replyByte
      ensures trace == []
    {
      this.writeFails := writeFails;
      this.readFails := readFails;
      this.replyByte := replyByte;
      trace := [];
    }

    /** The count bytes the device answers to a block read issued after h. */
    function Reply(h: seq<Event>, device: int, register: int, count: nat): (data: seq<Byte>)
      ensures |data| == count
    {
      seq(count, i requires 0 <= i < count => replyByte(h, device, register, count, i))
    }

    /** write_byte_data: a one-byte register write; false if the bus fails. */
    method WriteByteData(device: int, register: int, value: int) returns (ok: bool)
      modifies this
      ensures trace == old(trace) + [Write(device, register, value)]
      ensures ok == !writeFails(old(trace), device, register, value)
    {
      ok := !writeFails(trace, device, register, value);
      trace := trace + [Write(device, register, value)];
    }

    /** read_i2c_block_data: count bytes from consecutive registers, or None
        if the bus fails. */
    method ReadI2CBlockData(device: int, register: int, count: nat) returns (data: Option<seq<Byte>>)
      modifies this
      ensures trace == old(trace) + [Read(device, register, count)]
      ensures data == if readFails(old(trace), device, register, count) then None
                      else Some(Reply(old(trace), device, register, count))
    {
      data := if readFails(trace, device, register, count) then None
              else Some(Reply(trace, device, register, count));
      trace := trace + [Read(device, register, count)];
    }

    /** time.sleep, recorded in the same log so that its place among the bus
        transactions is visible. */
    method Sleep(ms: nat)
      modifies this
      ensures trace == old(trace) + [Event.Sleep(ms)]
    {
      trace := trace + [Event.Sleep(ms)];
    }
  }

  datatype Option<T> = None | Some(value: T)
}
