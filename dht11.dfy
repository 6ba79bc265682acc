/** The DHT11 humidity and temperature sensor driver: the start handshake,
    forty bits read MSB-first into five bytes, and the checksum. Timing is
    abstracted: what the sensor does on the data pin is a script of pulses,
    one per bit, each saying whether the driver's waits finished within
    their 100 microsecond timeouts and what level it sampled. */
module Dht11 {
  /** `uint8_t` outside the bit packing. */
  type byte = x: int | 0 <= x < 256

  /** One bit on the data pin as `readByte` sees it: whether the pin rose
      before the timeout, whether it was still high 30 microseconds later,
      and (when it was) whether it fell again before the timeout. */
  datatype Pulse = Pulse(rose: bool, high: bool, fell: bool)

  /** A line the sensor does not drive stays high through the pull-up: the
      wait for high ends at once and the wait for low times out. */
  const Undriven := Pulse(true, true, false)

  /** The bit was read without a timeout. */
  predicate Complete(p: Pulse)
  {
    p.rose && (!p.high || p.fell)
  }

  /** The pulse for bit `j` of what is left of the line. */
  function PulseAt(line: seq<Pulse>, j: nat): Pulse
  {
    if j < |line| then line[j] else Undriven
  }

  function Drop(line: seq<Pulse>, n: nat): seq<Pulse>
  {
    if n <= |line| then line[n..] else []
  }

  /** The bit `1 << (7 - i)`. */
  function Mask(i: nat): bv8
    requires i < 8
  {
    if i == 0 then 0x80 else if i == 1 then 0x40 else if i == 2 then 0x20 else if i == 3 then 0x10
    else if i == 4 then 0x08 else if i == 5 then 0x04 else if i == 6 then 0x02 else 0x01
  }

  /** Eight bits, the first one most significant. */
  function Pack(bits: seq<bool>): bv8
    requires |bits| == 8
  {
    (if bits[0] then 0x80 else 0) | (if bits[1] then 0x40 else 0)
    | (if bits[2] then 0x20 else 0) | (if bits[3] then 0x10 else 0)
    | (if bits[4] then 0x08 else 0) | (if bits[5] then 0x04 else 0)
    | (if bits[6] then 0x02 else 0) | (if bits[7] then 0x01 else 0)
  }

  /** The bits of a byte, most significant first. */
  function Unpack(b: bv8): (bits: seq<bool>)
    ensures |bits| == 8
  {
    [b & 0x80 != 0, b & 0x40 != 0, b & 0x20 != 0, b & 0x10 != 0,
     b & 0x08 != 0, b & 0x04 != 0, b & 0x02 != 0, b & 0x01 != 0]
  }

  /** Bit `j` of the unpacked byte is the bit under `Mask(j)`. */
  lemma UnpackAt(b: bv8, j: nat)
    requires j < 8
    ensures Unpack(b)[j] == (b & Mask(j) != 0)
  {
  }

  /** The `j`-th bit packed is bit `7 - j` of the byte. */
  lemma PackBit(bits: seq<bool>, j: nat)
    requires |bits| == 8 && j < 8
    ensures (Pack(bits) & Mask(j) != 0) == bits[j]
  {
  }

  /** Packing is MSB-first: unpacking gives back the bits in the order read. */
  lemma PackUnpack(bits: seq<bool>)
    requires |bits| == 8
    ensures Unpack(Pack(bits)) == bits
  {
    forall j | 0 <= j < 8
      ensures Unpack(Pack(bits))[j] == bits[j]
    {
      PackBit(bits, j);
      UnpackAt(Pack(bits), j);
    }
  }

  /** Unpacking and packing again gives back the byte. */
  lemma UnpackPack(b: bv8)
    ensures Pack(Unpack(b)) == b
  {
    assert b == (b & 0x80) | (b & 0x40) | (b & 0x20) | (b & 0x10)
              | (b & 0x08) | (b & 0x04) | (b & 0x02) | (b & 0x01);
  }

  /** Setting one more bit ORs its mask in. */
  lemma PackSet(bits: seq<bool>, i: nat)
    requires |bits| == 8 && i < 8
    ensures Pack(bits[i := true]) == Pack(bits) | Mask(i)
  {
  }

  /** The high samples of the first `i` bits, the rest read as 0. */
  function Sampled(line: seq<Pulse>, i: nat): (bits: seq<bool>)
    ensures |bits| == 8
  {
    seq(8, j requires 0 <= j < 8 => j < i && PulseAt(line, j).high)
  }

  /** The first of bits `j..7` whose read times out, or 8. */
  function FirstTimeout(line: seq<Pulse>, j: nat): (k: nat)
    requires j <= 8
    ensures j <= k <= 8
    ensures forall m :: j <= m < k ==> Complete(PulseAt(line, m))
    ensures k < 8 ==> !Complete(PulseAt(line, k))
    decreases 8 - j
  {
    if j == 8 then 8
    else if !Complete(PulseAt(line, j)) then j
    else FirstTimeout(line, j + 1)
  }

  /** `readByte` on a line: the byte and what is left of the line. A timeout
      in any bit gives 0, whatever was read before it, and leaves the line
      just after that bit. */
  function ByteRead(line: seq<Pulse>): (r: (bv8, seq<Pulse>))
    ensures r.0 != 0 ==> forall j :: 0 <= j < 8 ==> Complete(PulseAt(line, j))
    ensures FirstTimeout(line, 0) < 8 ==> r.0 == 0
  {
    var k := FirstTimeout(line, 0);
    if k < 8 then (0, Drop(line, k + 1))
    else (Pack(Sampled(line, 8)), Drop(line, 8))
  }

  /** What `readByte` promises: a byte whose bits, most significant first,
      are the levels sampled, or 0 and the line just past the first timeout. */
  lemma ByteReadMeaning(line: seq<Pulse>)
    ensures var r := ByteRead(line);
      && (r.0 != 0 ==> forall j :: 0 <= j < 8 ==> Complete(PulseAt(line, j)))
      && (FirstTimeout(line, 0) < 8 ==> r.0 == 0 && r.1 == Drop(line, FirstTimeout(line, 0) + 1))
      && (FirstTimeout(line, 0) == 8 ==> Unpack(r.0) == Sampled(line, 8) && r.1 == Drop(line, 8))
  {
    if FirstTimeout(line, 0) == 8 {
      PackUnpack(Sampled(line, 8));
    }
  }

  /** The pulses a sensor sends for a byte when no wait times out. */
  function EncodeByte(b: bv8): (line: seq<Pulse>)
    ensures |line| == 8
  {
    seq(8, j requires 0 <= j < 8 => Pulse(true, Unpack(b)[j], true))
  }

  /** A cleanly sent byte is read back, and the read stops right after it. */
  lemma ByteRoundTrip(b: bv8, rest: seq<Pulse>)
    ensures ByteRead(EncodeByte(b) + rest) == (b, rest)
  {
    var line := EncodeByte(b) + rest;
    assert forall m :: 0 <= m < 8 ==> PulseAt(line, m) == EncodeByte(b)[m];
    assert FirstTimeout(line, 0) == 8;
    assert Sampled(line, 8) == Unpack(b);
    UnpackPack(b);
    assert Drop(line, 8) == rest;
  }

  /** `readData`'s `n` bytes in order, each read where the previous one
      stopped, and what is left of the line. */
  function Bytes(line: seq<Pulse>, n: nat): (r: (seq<byte>, seq<Pulse>))
    ensures |r.0| == n
  {
    if n == 0 then ([], line)
    else
      var before := Bytes(line, n - 1);
      var next := ByteRead(before.1);
      (before.0 + [next.0 as int], next.1)
  }

  /** One more byte read from where the first `n` left the line. */
  lemma BytesNext(line: seq<Pulse>, n: nat, b: bv8, before: seq<Pulse>, after: seq<Pulse>)
    requires before == Bytes(line, n).1 && (b, after) == ByteRead(before)
    ensures Bytes(line, n + 1) == (Bytes(line, n).0 + [b as int], after)
  {
  }

  /** The pulses of a sequence of cleanly sent bytes. */
  function EncodeBytes(bs: seq<bv8>): seq<Pulse>
  {
    if bs == [] then [] else EncodeBytes(bs[..|bs| - 1]) + EncodeByte(bs[|bs| - 1])
  }

  /** The bytes as the `uint8_t` values `readData` stores. */
  function Values(bs: seq<bv8>): (r: seq<byte>)
    ensures |r| == |bs| && forall i :: 0 <= i < |bs| ==> r[i] == bs[i] as int
  {
    seq(|bs|, i requires 0 <= i < |bs| => bs[i] as int)
  }

  /** Cleanly sent bytes are read back in order. */
  lemma {:induction false} BytesRoundTrip(bs: seq<bv8>, rest: seq<Pulse>)
    ensures Bytes(EncodeBytes(bs) + rest, |bs|) == (Values(bs), rest)
    decreases |bs|
  {
    if bs == [] {
      assert EncodeBytes(bs) == [];
      assert EncodeBytes(bs) + rest == rest;
    } else {
      var init, last := bs[..|bs| - 1], bs[|bs| - 1];
      var pulses := EncodeByte(last);
      assert EncodeBytes(bs) == EncodeBytes(init) + pulses;
      assert EncodeBytes(bs) + rest == EncodeBytes(init) + (pulses + rest);
      BytesRoundTrip(init, pulses + rest);
      NextByte(EncodeBytes(bs) + rest, Values(init), last, rest);
      assert Values(init) + [last as int] == Values(bs);
    }
  }

  /** After bytes `init`, a cleanly sent `last` is the next byte read. */
  lemma NextByte(line: seq<Pulse>, init: seq<byte>, last: bv8, rest: seq<Pulse>)
    requires Bytes(line, |init|) == (init, EncodeByte(last) + rest)
    ensures Bytes(line, |init| + 1) == (init + [last as int], rest)
  {
    ByteRoundTrip(last, rest);
    BytesStep(line, |init|);
  }

  /** One more byte read. */
  lemma BytesStep(line: seq<Pulse>, n: nat)
    ensures Bytes(line, n + 1).0 == Bytes(line, n).0 + [ByteRead(Bytes(line, n).1).0 as int]
    ensures Bytes(line, n + 1).1 == ByteRead(Bytes(line, n).1).1
  {
  }

  /** How the sensor answered the start signal: it pulled the pin low, let
      it rise, and pulled it low again, each within the 100 microsecond
      timeout. */
  datatype Response = Response(pulledLow: bool, released: bool, ready: bool)
  {
    predicate Answered()
    {
      pulledLow && released && ready
    }
  }

  /** The sum of the first four bytes, kept to eight bits as the `uint8_t`
      sum is. */
  function Checksum(frame: seq<byte>): byte
    requires |frame| == 5
  {
    (frame[0] as int + frame[1] + frame[2] + frame[3]) % 256
  }

  predicate ChecksumOk(frame: seq<byte>)
    requires |frame| == 5
  {
    Checksum(frame) == frame[4]
  }

  /** The checksum catches any single corrupted byte. */
  lemma ChecksumDetectsOneError(frame: seq<byte>, i: nat, v: byte)
    requires |frame| == 5 && ChecksumOk(frame)
    requires i < 5 && v != frame[i]
    ensures !ChecksumOk(frame[i := v])
  {
  }

  /** The reading `whole + tenths / 10` that `read` stores. */
  function Reading(whole: byte, tenths: byte): real
  {
    whole as real + tenths as real / 10.0
  }

  /** `read`: what it returns and what the two outputs then hold, given the
      values they held before. Both are left alone unless it succeeds. */
  function ReadResult(response: Response, line: seq<Pulse>, humidity: real, temperature: real): (r: (bool, real, real))
    ensures !response.Answered() ==> r == (false, humidity, temperature)
    ensures r.0 <==> response.Answered() && ChecksumOk(Bytes(line, 5).0)
    ensures r.0 ==> var f := Bytes(line, 5).0; r.1 == Reading(f[0], f[1]) && r.2 == Reading(f[2], f[3])
    ensures !r.0 ==> r.1 == humidity && r.2 == temperature
  {
    if !response.Answered() then (false, humidity, temperature)
    else
      var f := Bytes(line, 5).0;
      if !ChecksumOk(f) then (false, humidity, temperature)
      else (true, Reading(f[0], f[1]), Reading(f[2], f[3]))
  }

  /** A frame with a good checksum, cleanly sent after a good handshake, is
      read as its humidity and temperature. */
  lemma ReadRoundTrip(frame: seq<bv8>, rest: seq<Pulse>, humidity: real, temperature: real)
    requires |frame| == 5 && ChecksumOk(Values(frame))
    ensures ReadResult(Response(true, true, true), EncodeBytes(frame) + rest, humidity, temperature)
        == (true, Reading(frame[0] as int, frame[1] as int), Reading(frame[2] as int, frame[3] as int))
  {
    BytesRoundTrip(frame, rest);
  }

  /** A timeout while the first byte is sent makes that byte 0; unless the
      sensor reports humidity 0 with a matching checksum, `read` fails. */
  lemma FirstByteTimeout(line: seq<Pulse>)
    requires FirstTimeout(line, 0) < 8
    ensures Bytes(line, 5).0[0] == 0
  {
    var b := ByteRead(line);
    assert Bytes(line, 0) == ([], line);
    BytesNext(line, 0, b.0, line, b.1);
    BytesPrefix(line, 1, 5);
  }

  /** Reading more bytes keeps the earlier ones. */
  lemma {:induction false} BytesPrefix(line: seq<Pulse>, m: nat, n: nat)
    requires m <= n
    ensures Bytes(line, n).0[..m] == Bytes(line, m).0
    decreases n - m
  {
    if m < n {
      BytesPrefix(line, m, n - 1);
      var before := Bytes(line, n - 1).0;
      assert Bytes(line, n).0 == before + [ByteRead(Bytes(line, n - 1).1).0 as int];
      assert (before + [ByteRead(Bytes(line, n - 1).1).0 as int])[..m] == before[..m];
    }
  }

  /** The pulse at the head of the line after `i` bits, and the line after it. */
  lemma DropNext(start: seq<Pulse>, i: nat)
    ensures (if Drop(start, i) == [] then Undriven else Drop(start, i)[0]) == PulseAt(start, i)
    ensures (if Drop(start, i) == [] then [] else Drop(start, i)[1..]) == Drop(start, i + 1)
  {
  }

  /** `ByteRead` when bit `i` is the first to time out. */
  lemma ByteReadTimeout(start: seq<Pulse>, i: nat)
    requires i < 8 && !Complete(PulseAt(start, i))
    requires forall j :: 0 <= j < i ==> Complete(PulseAt(start, j))
    ensures ByteRead(start) == (0, Drop(start, i + 1))
  {
    var k := FirstTimeout(start, 0);
    assert k == i;
  }

  /** `ByteRead` when no bit times out. */
  lemma ByteReadClean(start: seq<Pulse>)
    requires forall j :: 0 <= j < 8 ==> Complete(PulseAt(start, j))
    ensures ByteRead(start) == (Pack(Sampled(start, 8)), Drop(start, 8))
  {
    assert FirstTimeout(start, 0) == 8;
  }

  /** One more bit sampled. */
  lemma SampledStep(start: seq<Pulse>, i: nat)
    requires i < 8
    ensures Sampled(start, i + 1) == Sampled(start, i)[i := PulseAt(start, i).high]
    ensures !PulseAt(start, i).high ==> Pack(Sampled(start, i + 1)) == Pack(Sampled(start, i))
    ensures PulseAt(start, i).high ==> Pack(Sampled(start, i + 1)) == Pack(Sampled(start, i)) | Mask(i)
  {
    assert Sampled(start, i + 1) == Sampled(start, i)[i := PulseAt(start, i).high];
    if PulseAt(start, i).high {
      PackSet(Sampled(start, i), i);
    } else {
      assert Sampled(start, i + 1) == Sampled(start, i);
    }
  }

  class Sensor {
    /** `_pin` */
    const pin: bv8
    /** What the sensor will do on the data pin, from now on. */
    var line: seq<Pulse>

    constructor(pin: bv8, line: seq<Pulse>)
      ensures this.pin == pin && this.line == line
    {
      this.pin := pin;
      this.line := line;
    }

    /** `readByte` */
    method ReadByte() returns (b: bv8)
      modifies this
      ensures (b, line) == ByteRead(old(line))
    {
      ghost var start := line;
      b := 0;
      var i := 0;
      while i < 8
        invariant 0 <= i <= 8
        invariant forall j :: 0 <= j < i ==> Complete(PulseAt(start, j))
        invariant line == Drop(start, i)
        invariant b == Pack(Sampled(start, i))
      {
        DropNext(start, i);
        var p := if line == [] then Undriven else line[0];
        line := if line == [] then [] else line[1..];
        if !p.rose {
          ByteReadTimeout(start, i);
          return 0;
        }
        SampledStep(start, i);
        if p.high {
          b := b | Mask(i);
          if !p.fell {
            ByteReadTimeout(start, i);
            return 0;
          }
        }
        i := i + 1;
      }
      ByteReadClean(start);
    }

    /** `readData`: nothing is read unless the handshake succeeds; then five
        bytes are read in order, even when one of them timed out. */
    method ReadData(response: Response, data: array<byte>) returns (ok: bool)
      requires data.Length == 5
      modifies this, data
      ensures ok == response.Answered()
      ensures !ok ==> line == old(line) && data[..] == old(data[..])
      ensures ok ==> (data[..], line) == Bytes(old(line), 5)
    {
      if !response.pulledLow || !response.released || !response.ready {
        return false;
      }
      ghost var start := line;
      var i := 0;
      while i < 5
        invariant 0 <= i <= 5
        invariant data[..i] == Bytes(start, i).0 && line == Bytes(start, i).1
      {
        ghost var before := line;
        var b := ReadByte();
        data[i] := b as int;
        BytesNext(start, i, b, before, line);
        assert data[..i + 1] == data[..i] + [data[i]];
        i := i + 1;
      }
      assert data[..] == data[..5];
      return true;
    }

    /** `read`: `humidity` and `temperature` are what the two pointers held
        before the call, `h` and `t` what they hold after it. */
    method Read(response: Response, humidity: real, temperature: real) returns (ok: bool, h: real, t: real)
      modifies this
      ensures (ok, h, t) == ReadResult(response, old(line), humidity, temperature)
      ensures line == if response.Answered() then Bytes(old(line), 5).1 else old(line)
    {
      h, t := humidity, temperature;
      var data := new byte[5](_ => 0);
      ok := ReadData(response, data);
      if !ok {
        return;
      }
      ghost var f := Bytes(old(line), 5).0;
      assert data[..] == f;
      assert data[0] == f[0] && data[1] == f[1] && data[2] == f[2] && data[3] == f[3] && data[4] == f[4];
      var checksum := (data[0] as int + data[1] + data[2] + data[3]) % 256;
      if checksum != data[4] {
        ok := false;
        return;
      }
      h := Reading(data[0], data[1]);
      t := Reading(data[2], data[3]);
    }

    /** `readHumidity`: 0 when the read fails. */
    method ReadHumidity(response: Response) returns (h: real)
      modifies this
      ensures var r := ReadResult(response, old(line), 0.0, 0.0); h == if r.0 then r.1 else 0.0
    {
      var ok, humidity, temperature := Read(response, 0.0, 0.0);
      h := if ok then humidity else 0.0;
    }

    /** `readTemperature`: 0 when the read fails. */
    method ReadTemperature(response: Response) returns (t: real)
      modifies this
      ensures var r := ReadResult(response, old(line), 0.0, 0.0); t == if r.0 then r.2 else 0.0
    {
      var ok, humidity, temperature := Read(response, 0.0, 0.0);
      t := if ok then temperature else 0.0;
    }
  }
}
