/** The MLX90614 infrared thermometer driver (GY-906 board): 16-bit register
    words over I2C, the ID check, and the byte order of register writes. The
    bus is reduced to what one transaction returns. */
module Gy906 {

  const Address: bv8 := 0x5A
  const RegAmbient: bv8 := 0x06
  const RegObject1: bv8 := 0x07
  const RegId1: bv8 := 0x3C
  const RegId2: bv8 := 0x3D

  /** One register read on the bus: what `endTransmission(false)` reported,
      and the bytes that `requestFrom(address, 3)` made available, in order. */
  datatype Reply = Reply(status: int, bytes: seq<bv8>)

  /** `read16`: 0 when the register address is not acknowledged or fewer than
      three bytes arrive; otherwise the first byte is the low byte and the
      second the high byte, and the third (the packet error code) is ignored. */
  function Read16(r: Reply): (w: bv16)
    ensures r.status != 0 || |r.bytes| < 3 ==> w == 0
    ensures r.status == 0 && |r.bytes| >= 3 ==> w & 0xFF == r.bytes[0] as bv16 && w >> 8 == r.bytes[1] as bv16
  {
    if r.status != 0 then 0
    else if |r.bytes| >= 3 then ((r.bytes[1] as bv16) << 8) | (r.bytes[0] as bv16)
    else 0
  }

  /** `write16`: the bytes put on the bus, register first, then the low and
      the high byte of the word. */
  function Write16(reg: bv8, data: bv16): (bytes: seq<bv8>)
    ensures |bytes| == 3 && bytes[0] == reg
    ensures bytes[1] as bv16 == data & 0xFF && bytes[2] as bv16 == data >> 8
  {
    [reg, (data & 0xFF) as bv8, ((data >> 8) & 0xFF) as bv8]
  }

  /** The sensor answers in the order `write16` sends: reading back the data
      bytes of a write, with any error code after them, gives the word. */
  lemma Write16Read16(reg: bv8, data: bv16, pec: bv8)
    ensures Read16(Reply(0, Write16(reg, data)[1..] + [pec])) == data
  {
    var bytes := Write16(reg, data)[1..] + [pec];
    var w := Read16(Reply(0, bytes));
    assert w & 0xFF == data & 0xFF && w >> 8 == data >> 8;
    WordFromBytes(w, data);
  }

  /** A 16-bit word is determined by its two bytes. */
  lemma WordFromBytes(a: bv16, b: bv16)
    requires a & 0xFF == b & 0xFF && a >> 8 == b >> 8
    ensures a == b
  {
    assert a == ((a >> 8) << 8) | (a & 0xFF);
    assert b == ((b >> 8) << 8) | (b & 0xFF);
  }

  /** `readID`: the second word shifted up a byte, OR-ed with the first, kept
      to 16 bits. Only the low byte of the second word survives, and the high
      byte of the first word is OR-ed into the high byte. */
  function ReadId(id1: bv16, id2: bv16): (r: bv16)
    ensures r & 0xFF == id1 & 0xFF
    ensures r >> 8 == (id2 & 0xFF) | (id1 >> 8)
  {
    (id2 << 8) | id1
  }

  /** The ID as `begin` reads it: words from ID1 and then ID2. */
  function DeviceId(first: Reply, second: Reply): bv16
  {
    ReadId(Read16(first), Read16(second))
  }

  /** `begin`: the sensor is taken to be present unless the ID reads as all
      zeros or all ones. */
  function Begin(first: Reply, second: Reply): (ok: bool)
    ensures ok <==> DeviceId(first, second) != 0 && DeviceId(first, second) != 0xFFFF
  {
    var id := DeviceId(first, second);
    !(id == 0x0000 || id == 0xFFFF)
  }

  /** With nothing acknowledging on the bus, both words read 0 and `begin`
      fails. */
  lemma NoDeviceFails(first: Reply, second: Reply)
    requires first.status != 0 && second.status != 0
    ensures !Begin(first, second)
  {
    assert Read16(first) == 0 && Read16(second) == 0;
  }

  /** A bus whose data line floats high reads every byte as 0xFF, so the ID
      is 0xFFFF and `begin` fails. */
  lemma FloatingBusFails(first: Reply, second: Reply)
    requires first.status == 0 && second.status == 0
    requires |first.bytes| >= 3 && first.bytes[0] == 0xFF && first.bytes[1] == 0xFF
    requires |second.bytes| >= 3 && second.bytes[0] == 0xFF && second.bytes[1] == 0xFF
    ensures DeviceId(first, second) == 0xFFFF
    ensures !Begin(first, second)
  {
    assert Read16(first) == 0xFFFF && Read16(second) == 0xFFFF;
  }

  /** A device whose ID words are both short reads (fewer than three bytes)
      also reads as ID 0 and fails `begin`. */
  lemma ShortReadsFail(first: Reply, second: Reply)
    requires |first.bytes| < 3 && |second.bytes| < 3
    ensures !Begin(first, second)
  {
    assert Read16(first) == 0 && Read16(second) == 0;
  }
}
