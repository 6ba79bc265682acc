/** The MAX30102 pulse oximeter driver: the register encodings written by
    `setup`, the 18-bit FIFO words, power control, the integer beat detector
    and the input checks of the SpO2 estimate. The I2C bus is reduced to a
    register file that reads and writes go to, and to the bytes a FIFO read
    returns. */
module Max30102 {
  import Values

  const RegFifoWrPtr := 0x04
  const RegOvfCounter := 0x05
  const RegFifoRdPtr := 0x06
  const RegFifoConfig := 0x08
  const RegModeConfig := 0x09
  const RegSpo2Config := 0x0A
  const RegLed1Pa := 0x0C
  const RegLed2Pa := 0x0D
  const RegPartId := 0xFF
  /** The PART_ID of a MAX30102. */
  const PartId: bv8 := 0x15

  // ---------------------------------------------------------------------
  // Register encodings

  /** The FIFO configuration `setup` writes: the sample-average argument in
      bits 5-7 (only its low three bits fit), and 0x0F below it. */
  function FifoConfig(sampleAverage: bv8): (c: bv8)
    ensures c >> 5 == sampleAverage & 0x07
    ensures c & 0x1F == 0x0F
  {
    (sampleAverage << 5) | 0x0F
  }

  /** The sample rates with a code, in code order (code = index, bits 2-4). */
  const SampleRates: seq<int> := [50, 100, 200, 400, 800, 1000, 1600, 3200]
  /** The LED pulse widths with a code, in code order (bits 0-1). */
  const PulseWidths: seq<int> := [69, 118, 215, 411]
  /** The ADC ranges with a code, in code order (bits 5-6). */
  const AdcRanges: seq<int> := [2048, 4096, 8192, 16384]

  function SampleRateBits(sampleRate: int): bv8
  {
    if sampleRate == 50 then 0x00 else if sampleRate == 100 then 0x04
    else if sampleRate == 200 then 0x08 else if sampleRate == 400 then 0x0C
    else if sampleRate == 800 then 0x10 else if sampleRate == 1000 then 0x14
    else if sampleRate == 1600 then 0x18 else if sampleRate == 3200 then 0x1C
    else 0x00
  }

  function PulseWidthBits(pulseWidth: int): bv8
  {
    if pulseWidth == 69 then 0x00 else if pulseWidth == 118 then 0x01
    else if pulseWidth == 215 then 0x02 else if pulseWidth == 411 then 0x03
    else 0x00
  }

  function AdcRangeBits(adcRange: int): bv8
  {
    if adcRange == 2048 then 0x00 else if adcRange == 4096 then 0x20
    else if adcRange == 8192 then 0x40 else if adcRange == 16384 then 0x60
    else 0x00
  }

  /** The SpO2 configuration `setup` writes. */
  function Spo2Config(sampleRate: int, pulseWidth: int, adcRange: int): bv8
  {
    SampleRateBits(sampleRate) | PulseWidthBits(pulseWidth) | AdcRangeBits(adcRange)
  }

  /** The sample rate a configuration byte selects. */
  function SampleRateOf(c: bv8): int
  {
    var code := (c >> 2) & 0x07;
    if code == 0 then 50 else if code == 1 then 100 else if code == 2 then 200 else if code == 3 then 400
    else if code == 4 then 800 else if code == 5 then 1000 else if code == 6 then 1600 else 3200
  }

  /** The pulse width a configuration byte selects. */
  function PulseWidthOf(c: bv8): int
  {
    var code := c & 0x03;
    if code == 0 then 69 else if code == 1 then 118 else if code == 2 then 215 else 411
  }

  /** The ADC range a configuration byte selects. */
  function AdcRangeOf(c: bv8): int
  {
    var code := (c >> 5) & 0x03;
    if code == 0 then 2048 else if code == 1 then 4096 else if code == 2 then 8192 else 16384
  }

  /** Each of the three settings lands in its own bit field, bit 7 stays
      clear, and a value without a code reads back as the first entry of its
      table (code 0). */
  lemma Spo2ConfigFields(sampleRate: int, pulseWidth: int, adcRange: int)
    ensures var c := Spo2Config(sampleRate, pulseWidth, adcRange);
      && c & 0x80 == 0
      && SampleRateOf(c) == (if sampleRate in SampleRates then sampleRate else 50)
      && PulseWidthOf(c) == (if pulseWidth in PulseWidths then pulseWidth else 69)
      && AdcRangeOf(c) == (if adcRange in AdcRanges then adcRange else 2048)
  {
    var s, p, a := SampleRateBits(sampleRate), PulseWidthBits(pulseWidth), AdcRangeBits(adcRange);
    assert s & 0xE3 == 0 && p & 0xFC == 0 && a & 0x9F == 0;
    FieldsOf(s, p, a);
  }

  /** The three fields of an OR of disjoint parts. */
  lemma FieldsOf(s: bv8, p: bv8, a: bv8)
    requires s & 0xE3 == 0 && p & 0xFC == 0 && a & 0x9F == 0
    ensures var c := s | p | a;
      && (c >> 2) & 0x07 == s >> 2 && c & 0x03 == p && (c >> 5) & 0x03 == a >> 5 && c & 0x80 == 0
  {
  }

  /** What `shutdown` writes back to MODE_CONFIG. */
  function ShutdownMode(mode: bv8): (m: bv8)
    ensures m & 0x80 == 0x80 && m & 0x7F == mode & 0x7F
  {
    mode | 0x80
  }

  /** What `wakeUp` writes back to MODE_CONFIG. */
  function WakeUpMode(mode: bv8): (m: bv8)
    ensures m & 0x80 == 0 && m & 0x7F == mode & 0x7F
  {
    mode & 0x7F
  }

  /** Waking up after a shutdown restores a mode whose shutdown bit was
      clear, and shutting down again after a wake-up gives the same byte. */
  lemma ShutdownWakeUp(mode: bv8)
    ensures mode & 0x80 == 0 ==> WakeUpMode(ShutdownMode(mode)) == mode
    ensures ShutdownMode(WakeUpMode(ShutdownMode(mode))) == ShutdownMode(mode)
  {
  }

  // ---------------------------------------------------------------------
  // FIFO words

  /** One 18-bit FIFO sample from three bytes, most significant first, as
      `readFIFO` assembles it in `tempLong`; the six high bits of the first
      byte are dropped. */
  function Word18(b0: bv8, b1: bv8, b2: bv8): (w: bv32)
    ensures w < 0x40000
    ensures w & 0xFF == b2 as bv32
  {
    (((b0 as bv32) << 16) | ((b1 as bv32) << 8) | (b2 as bv32)) & 0x3FFFF
  }

  /** The sample is below 2^18, its low bytes are the last two bytes sent,
      and its top two bits are the low bits of the first. */
  lemma Word18Fields(b0: bv8, b1: bv8, b2: bv8)
    ensures var w := Word18(b0, b1, b2);
      && w < 0x40000
      && w & 0xFF == b2 as bv32 && (w >> 8) & 0xFF == b1 as bv32 && w >> 16 == (b0 & 0x03) as bv32
  {
  }

  /** The three bytes the sensor sends for an 18-bit sample. */
  function SampleBytes(w: bv32): seq<bv8>
  {
    [((w >> 16) & 0xFF) as bv8, ((w >> 8) & 0xFF) as bv8, (w & 0xFF) as bv8]
  }

  /** Every 18-bit sample is read back from the bytes the sensor sends. */
  lemma Word18RoundTrip(w: bv32)
    requires w < 0x40000
    ensures var b := SampleBytes(w); Word18(b[0], b[1], b[2]) == w
  {
    Word18OfFields(w);
  }

  lemma Word18OfFields(w: bv32)
    requires w < 0x40000
    ensures Word18(((w >> 16) & 0xFF) as bv8, ((w >> 8) & 0xFF) as bv8, (w & 0xFF) as bv8) == w
  {
  }

  /** The byte `Wire.read()` gives for position `i` of a FIFO read: a byte
      that did not arrive reads as -1, that is 0xFF. */
  function BusByte(bus: seq<bv8>, i: nat): bv8
  {
    if i < |bus| then bus[i] else 0xFF
  }

  // ---------------------------------------------------------------------
  // The sensor object

  /** A register write on the bus. */
  datatype Write = Write(register: int, value: bv8)

  /** The writes of `setup`, in order. */
  function SetupWrites(powerLevel: bv8, sampleAverage: bv8, ledMode: bv8, sampleRate: int, pulseWidth: int, adcRange: int): seq<Write>
  {
    [Write(RegModeConfig, 0x40),
     Write(RegFifoConfig, FifoConfig(sampleAverage)),
     Write(RegModeConfig, ledMode),
     Write(RegSpo2Config, Spo2Config(sampleRate, pulseWidth, adcRange)),
     Write(RegLed1Pa, powerLevel),
     Write(RegLed2Pa, powerLevel),
     Write(RegFifoWrPtr, 0x00),
     Write(RegOvfCounter, 0x00),
     Write(RegFifoRdPtr, 0x00)]
  }

  /** The register file after `setup`'s writes, in order. */
  function SetupRegisters(regs: map<int, bv8>, powerLevel: bv8, sampleAverage: bv8, ledMode: bv8, sampleRate: int, pulseWidth: int, adcRange: int): map<int, bv8>
  {
    regs[RegModeConfig := 0x40][RegFifoConfig := FifoConfig(sampleAverage)][RegModeConfig := ledMode]
        [RegSpo2Config := Spo2Config(sampleRate, pulseWidth, adcRange)]
        [RegLed1Pa := powerLevel][RegLed2Pa := powerLevel]
        [RegFifoWrPtr := 0x00][RegOvfCounter := 0x00][RegFifoRdPtr := 0x00]
  }

  /** After `setup` the mode is the LED mode (the reset written first is
      overwritten), both LEDs get the power level, the FIFO pointers are 0,
      and every other register keeps its value. */
  lemma SetupResult(regs: map<int, bv8>, powerLevel: bv8, sampleAverage: bv8, ledMode: bv8, sampleRate: int, pulseWidth: int, adcRange: int)
    ensures var r := SetupRegisters(regs, powerLevel, sampleAverage, ledMode, sampleRate, pulseWidth, adcRange);
      && r[RegModeConfig] == ledMode && r[RegFifoConfig] == FifoConfig(sampleAverage)
      && r[RegSpo2Config] == Spo2Config(sampleRate, pulseWidth, adcRange)
      && r[RegLed1Pa] == powerLevel && r[RegLed2Pa] == powerLevel
      && r[RegFifoWrPtr] == 0 && r[RegOvfCounter] == 0 && r[RegFifoRdPtr] == 0
      && r.Keys == regs.Keys + {RegModeConfig, RegFifoConfig, RegSpo2Config, RegLed1Pa, RegLed2Pa, RegFifoWrPtr, RegOvfCounter, RegFifoRdPtr}
      && forall k :: k in regs && k !in {RegModeConfig, RegFifoConfig, RegSpo2Config, RegLed1Pa, RegLed2Pa, RegFifoWrPtr, RegOvfCounter, RegFifoRdPtr} ==> r[k] == regs[k]
  {
  }

  /** The SpO2 configuration byte as `setup` builds it, one table at a
      time. */
  method ComputeSpo2Config(sampleRate: int, pulseWidth: int, adcRange: int) returns (spo2Config: bv8)
    ensures spo2Config == Spo2Config(sampleRate, pulseWidth, adcRange)
  {
    spo2Config := 0;
    if sampleRate == 50 { spo2Config := spo2Config | 0x00; }
    else if sampleRate == 100 { spo2Config := spo2Config | 0x04; }
    else if sampleRate == 200 { spo2Config := spo2Config | 0x08; }
    else if sampleRate == 400 { spo2Config := spo2Config | 0x0C; }
    else if sampleRate == 800 { spo2Config := spo2Config | 0x10; }
    else if sampleRate == 1000 { spo2Config := spo2Config | 0x14; }
    else if sampleRate == 1600 { spo2Config := spo2Config | 0x18; }
    else if sampleRate == 3200 { spo2Config := spo2Config | 0x1C; }
    assert spo2Config == SampleRateBits(sampleRate);

    if pulseWidth == 69 { spo2Config := spo2Config | 0x00; }
    else if pulseWidth == 118 { spo2Config := spo2Config | 0x01; }
    else if pulseWidth == 215 { spo2Config := spo2Config | 0x02; }
    else if pulseWidth == 411 { spo2Config := spo2Config | 0x03; }
    assert spo2Config == SampleRateBits(sampleRate) | PulseWidthBits(pulseWidth);

    if adcRange == 2048 { spo2Config := spo2Config | 0x00; }
    else if adcRange == 4096 { spo2Config := spo2Config | 0x20; }
    else if adcRange == 8192 { spo2Config := spo2Config | 0x40; }
    else if adcRange == 16384 { spo2Config := spo2Config | 0x60; }
  }

  /** The MAX30105 object, driving a MAX30102. */
  class Max30105 {
    /** The sensor's registers; a register missing from the map does not
        answer, and reads as 0xFF. */
    var regs: map<int, bv8>
    /** Every register write made, in order. */
    var writes: seq<Write>
    var red: bv32
    var ir: bv32

    constructor(device: map<int, bv8>)
      ensures regs == device && writes == [] && red == 0 && ir == 0
    {
      regs := device;
      writes := [];
      red := 0;
      ir := 0;
    }

    /** What `readRegister` gives for register `a`. */
    function Reg(a: int): bv8
      reads this
    {
      if a in regs then regs[a] else 0xFF
    }

    method ReadRegister(a: int) returns (v: bv8)
      ensures v == Reg(a)
    {
      v := if a in regs then regs[a] else 0xFF;
    }

    method WriteRegister(a: int, v: bv8)
      modifies this
      ensures writes == old(writes) + [Write(a, v)]
      ensures regs == old(regs)[a := v] && red == old(red) && ir == old(ir)
    {
      writes := writes + [Write(a, v)];
      regs := regs[a := v];
    }

    /** `begin`: the sensor is there when PART_ID reads 0x15. */
    method Begin() returns (ok: bool)
      ensures ok <==> Reg(RegPartId) == PartId
    {
      var partId := ReadRegister(RegPartId);
      if partId != 0x15 {
        return false;
      }
      return true;
    }

    /** `setup` */
    method Setup(powerLevel: bv8, sampleAverage: bv8, ledMode: bv8, sampleRate: int, pulseWidth: int, adcRange: int)
      modifies this
      ensures writes == old(writes) + SetupWrites(powerLevel, sampleAverage, ledMode, sampleRate, pulseWidth, adcRange)
      ensures regs == SetupRegisters(old(regs), powerLevel, sampleAverage, ledMode, sampleRate, pulseWidth, adcRange)
      ensures red == old(red) && ir == old(ir)
    {
      ghost var writes0 := writes;
      SoftReset();
      var fifoConfig := (sampleAverage << 5) | 0x0F;
      WriteRegister(RegFifoConfig, fifoConfig);
      WriteRegister(RegModeConfig, ledMode);
      var spo2Config := ComputeSpo2Config(sampleRate, pulseWidth, adcRange);
      WriteRegister(RegSpo2Config, spo2Config);
      ghost var writes4 := writes;
      WriteRegister(RegLed1Pa, powerLevel);
      WriteRegister(RegLed2Pa, powerLevel);
      WriteRegister(RegFifoWrPtr, 0x00);
      WriteRegister(RegOvfCounter, 0x00);
      WriteRegister(RegFifoRdPtr, 0x00);
      ghost var ws := SetupWrites(powerLevel, sampleAverage, ledMode, sampleRate, pulseWidth, adcRange);
      Values.Append4(writes0, ws[0], ws[1], ws[2], ws[3]);
      Values.Append5(writes4, ws[4], ws[5], ws[6], ws[7], ws[8]);
      assert ws == ws[..4] + ws[4..];
      Values.AppendAssoc(writes0, ws[..4], ws[4..]);
    }

    /** `softReset` */
    method SoftReset()
      modifies this
      ensures writes == old(writes) + [Write(RegModeConfig, 0x40)]
      ensures regs == old(regs)[RegModeConfig := 0x40] && red == old(red) && ir == old(ir)
    {
      WriteRegister(RegModeConfig, 0x40);
    }

    /** `shutdown`: MODE_CONFIG is read and written back with bit 7 set. */
    method Shutdown()
      modifies this
      ensures writes == old(writes) + [Write(RegModeConfig, ShutdownMode(old(Reg(RegModeConfig))))]
      ensures regs == old(regs)[RegModeConfig := ShutdownMode(old(Reg(RegModeConfig)))]
      ensures red == old(red) && ir == old(ir)
    {
      var mode := ReadRegister(RegModeConfig);
      WriteRegister(RegModeConfig, mode | 0x80);
    }

    /** `wakeUp`: MODE_CONFIG is read and written back with bit 7 clear. */
    method WakeUp()
      modifies this
      ensures writes == old(writes) + [Write(RegModeConfig, WakeUpMode(old(Reg(RegModeConfig))))]
      ensures regs == old(regs)[RegModeConfig := WakeUpMode(old(Reg(RegModeConfig)))]
      ensures red == old(red) && ir == old(ir)
    {
      var mode := ReadRegister(RegModeConfig);
      WriteRegister(RegModeConfig, mode & 0x7F);
    }

    /** `readFIFO`: six bytes from the FIFO data register, red first. */
    method ReadFifo(bus: seq<bv8>)
      modifies this
      ensures red == Word18(BusByte(bus, 0), BusByte(bus, 1), BusByte(bus, 2))
      ensures ir == Word18(BusByte(bus, 3), BusByte(bus, 4), BusByte(bus, 5))
      ensures regs == old(regs) && writes == old(writes)
    {
      var temp := new bv8[6];
      var i := 0;
      while i < 6
        modifies temp
        invariant 0 <= i <= 6
        invariant forall j :: 0 <= j < i ==> temp[j] == BusByte(bus, j)
      {
        temp[i] := if i < |bus| then bus[i] else 0xFF;
        i := i + 1;
      }
      red := Word18(temp[0], temp[1], temp[2]);
      ir := Word18(temp[3], temp[4], temp[5]);
    }

    /** `getIR` */
    method GetIr(bus: seq<bv8>) returns (v: bv32)
      modifies this
      ensures v == ir == Word18(BusByte(bus, 3), BusByte(bus, 4), BusByte(bus, 5))
      ensures red == Word18(BusByte(bus, 0), BusByte(bus, 1), BusByte(bus, 2))
      ensures regs == old(regs) && writes == old(writes)
    {
      ReadFifo(bus);
      v := ir;
    }

    /** `getRed` */
    method GetRed(bus: seq<bv8>) returns (v: bv32)
      modifies this
      ensures v == red == Word18(BusByte(bus, 0), BusByte(bus, 1), BusByte(bus, 2))
      ensures ir == Word18(BusByte(bus, 3), BusByte(bus, 4), BusByte(bus, 5))
      ensures regs == old(regs) && writes == old(writes)
    {
      ReadFifo(bus);
      v := red;
    }
  }

  /** A sensor that answers with two clean 18-bit samples is read as those
      samples. */
  lemma FifoRoundTrip(redSample: bv32, irSample: bv32)
    requires redSample < 0x40000 && irSample < 0x40000
    ensures var bus := SampleBytes(redSample) + SampleBytes(irSample);
      && Word18(BusByte(bus, 0), BusByte(bus, 1), BusByte(bus, 2)) == redSample
      && Word18(BusByte(bus, 3), BusByte(bus, 4), BusByte(bus, 5)) == irSample
  {
    Word18RoundTrip(redSample);
    Word18RoundTrip(irSample);
  }

  // ---------------------------------------------------------------------
  // Signed 32-bit arithmetic

  type int32 = x: int | -0x8000_0000 <= x < 0x8000_0000

  /** Two's complement wrap-around of a 32-bit signed result. */
  function Wrap32(x: int): (r: int32)
    ensures -0x8000_0000 <= x < 0x8000_0000 ==> r == x
    ensures (r - x) % 0x1_0000_0000 == 0
  {
    (x + 0x8000_0000) % 0x1_0000_0000 - 0x8000_0000
  }

  /** C division of a signed value by a positive one: towards zero. */
  function CDiv(a: int32, b: int): (q: int32)
    requires b > 0
    ensures a >= 0 ==> q == a / b
    ensures a < 0 ==> q == -((-(a as int)) / b)
  {
    if a >= 0 then a / b else -((-(a as int)) / b)
  }

  // ---------------------------------------------------------------------
  // Beat detection

  /** The file-level statics `checkForBeat` uses. */
  datatype Detector = Detector(
    threshold: int32,
    peak: int32,
    trough: int32,
    amp: int32,
    rising: bool,
    lastSample: int32,
    sampleCount: int32)

  /** The statics at power-up. */
  const Start := Detector(0, 0, 0, 0, false, 0, 0)

  /** One warm-up call: the sample is added to the running sum kept in
      `threshold`, which becomes the mean at the tenth sample. */
  function WarmUp(d: Detector, sample: int32): (r: (Detector, bool))
    requires d.sampleCount < 10
  {
    var sum := Wrap32(d.threshold + sample);
    var count := d.sampleCount + 1;
    (d.(threshold := if count == 10 then CDiv(sum, 10) else sum, sampleCount := count, lastSample := sample), false)
  }

  /** An upward crossing of the threshold starts a rise: the peak is the
      sample and the trough the sample before it. */
  function Rise(d: Detector, sample: int32): Detector
  {
    if sample > d.threshold && d.lastSample <= d.threshold && !d.rising
    then d.(rising := true, peak := sample, trough := d.lastSample)
    else d
  }

  /** A downward crossing while rising ends the rise; it is a beat when the
      amplitude exceeds 1000, and the threshold then moves to the middle of
      the peak and the trough. */
  function Fall(d: Detector, sample: int32): (Detector, bool)
  {
    if sample < d.threshold && d.lastSample >= d.threshold && d.rising then
      var amp := Wrap32(d.peak - d.trough);
      if amp > 1000 then (d.(rising := false, amp := amp, threshold := CDiv(Wrap32(d.peak + d.trough), 2)), true)
      else (d.(rising := false, amp := amp), false)
    else (d, false)
  }

  /** The peak follows the samples up while rising, the trough follows them
      down otherwise (or takes the sample while it is 0). */
  function Track(d: Detector, sample: int32): Detector
  {
    var d1 := if d.rising && sample > d.peak then d.(peak := sample) else d;
    var d2 := if !d1.rising && (sample < d1.trough || d1.trough == 0) then d1.(trough := sample) else d1;
    d2.(lastSample := sample)
  }

  /** One call after the warm-up. A threshold still 0 is replaced by the
      sample. */
  function Detect(d: Detector, sample: int32): (Detector, bool)
  {
    var d0 := if d.threshold == 0 then d.(threshold := sample) else d;
    var fall := Fall(Rise(d0, sample), sample);
    (Track(fall.0, sample), fall.1)
  }

  /** `checkForBeat` as written: the warm-up runs only while the running sum
      is 0, so it ends at the first non-zero sample. */
  function BeatStepAsWritten(d: Detector, sample: int32): (r: (Detector, bool))
    ensures d.threshold == 0 && d.sampleCount < 10 ==> !r.1 && r.0.sampleCount == d.sampleCount + 1
    ensures !(d.threshold == 0 && d.sampleCount < 10) ==> r.0.sampleCount == d.sampleCount && r.0.lastSample == sample
  {
    if d.threshold == 0 && d.sampleCount < 10 then WarmUp(d, sample) else Detect(d, sample)
  }

  /** `checkForBeat` with the warm-up its comment describes: the first ten
      samples are averaged into the threshold. */
  function BeatStep(d: Detector, sample: int32): (Detector, bool)
  {
    if d.sampleCount < 10 then WarmUp(d, sample) else Detect(d, sample)
  }

  /** As written, a first non-zero sample becomes the threshold, and the
      second sample is already run through edge detection: the count stays
      at 1 and the threshold is not the mean of anything. The intended
      warm-up keeps counting and summing. */
  lemma WarmUpEndsEarly(first: int32, second: int32)
    requires first != 0 && -0x4000_0000 <= first < 0x4000_0000 && -0x4000_0000 <= second < 0x4000_0000
    ensures var d := BeatStepAsWritten(Start, first).0;
      && d.threshold == first && d.sampleCount == 1
      && var d' := BeatStepAsWritten(d, second);
      && !d'.1 && d'.0.sampleCount == 1 && d'.0.threshold == first
    ensures var d := BeatStep(BeatStep(Start, first).0, second);
      && !d.1 && d.0.sampleCount == 2 && d.0.threshold == first + second
  {
  }

  /** As written, a call with the threshold still 0 and fewer than ten
      samples seen reports no beat, counts the sample and adds it to the
      threshold, which is divided by ten at the tenth sample. */
  lemma AsWrittenWarmUp(d: Detector, sample: int32)
    requires d.threshold == 0 && d.sampleCount < 10
    ensures var r := BeatStepAsWritten(d, sample);
      && !r.1 && r.0.sampleCount == d.sampleCount + 1 && r.0.lastSample == sample
      && r.0.threshold == if d.sampleCount == 9 then CDiv(sample, 10) else sample
  {
    assert Wrap32(d.threshold + sample) == sample;
  }

  /** The detector after a run of samples, and what each call returned. */
  function Run(d: Detector, samples: seq<int32>): (r: (Detector, seq<bool>))
    ensures |r.1| == |samples|
  {
    if samples == [] then (d, [])
    else
      var before := Run(d, samples[..|samples| - 1]);
      var next := BeatStep(before.0, samples[|samples| - 1]);
      (next.0, before.1 + [next.1])
  }

  function Sum(xs: seq<int>): int
  {
    if xs == [] then 0 else Sum(xs[..|xs| - 1]) + xs[|xs| - 1]
  }

  /** An 18-bit reading, as the FIFO delivers. */
  predicate Reading(x: int)
  {
    0 <= x < 0x40000
  }

  /** During the warm-up no beat is reported, the count is the number of
      samples, and the running sum is the threshold. */
  lemma {:induction false} WarmUpPrefix(samples: seq<int32>)
    requires |samples| < 10
    requires forall i :: 0 <= i < |samples| ==> Reading(samples[i])
    ensures var r := Run(Start, samples);
      && r.0.sampleCount == |samples| && r.0.threshold == Sum(samples)
      && (samples != [] ==> r.0.lastSample == samples[|samples| - 1])
      && forall i :: 0 <= i < |r.1| ==> !r.1[i]
    decreases |samples|
  {
    if samples != [] {
      var init := samples[..|samples| - 1];
      WarmUpPrefix(init);
      SumBound(init);
    }
  }

  /** The sum of readings is below the count times 2^18. */
  lemma {:induction false} SumBound(xs: seq<int>)
    requires forall i :: 0 <= i < |xs| ==> Reading(xs[i])
    ensures 0 <= Sum(xs) <= |xs| * 0x3FFFF
    decreases |xs|
  {
    if xs != [] {
      SumBound(xs[..|xs| - 1]);
    }
  }

  /** The first ten readings report no beat and leave their mean as the
      threshold. */
  lemma WarmUpAverages(samples: seq<int32>)
    requires |samples| == 10
    requires forall i :: 0 <= i < |samples| ==> Reading(samples[i])
    ensures var r := Run(Start, samples);
      && r.0.threshold == Sum(samples) / 10 && r.0.sampleCount == 10
      && r.0.lastSample == samples[9]
      && forall i :: 0 <= i < 10 ==> !r.1[i]
  {
    var init := samples[..9];
    WarmUpPrefix(init);
    SumBound(samples);
    assert samples == init + [samples[9]];
  }

  /** Once edge detection runs a beat is reported exactly on a downward
      crossing of the threshold while rising with an amplitude over 1000;
      the threshold then moves to the middle of the peak and the trough, and
      the detector is no longer rising. Edge detection runs after the
      ten-sample warm-up in the corrected detector, and in the detector as
      written as soon as the running sum is non-zero. */
  lemma BeatCondition(d: Detector, sample: int32)
    ensures var threshold := if d.threshold == 0 then sample else d.threshold;
      var r := Detect(d, sample);
      && (r.1 <==> d.rising && sample < threshold && d.lastSample >= threshold && Wrap32(d.peak - d.trough) > 1000)
      && (r.1 ==> r.0.threshold == CDiv(Wrap32(d.peak + d.trough), 2) && !r.0.rising && r.0.amp == Wrap32(d.peak - d.trough))
    ensures d.sampleCount >= 10 ==> BeatStep(d, sample) == Detect(d, sample)
    ensures !(d.threshold == 0 && d.sampleCount < 10) ==> BeatStepAsWritten(d, sample) == Detect(d, sample)
  {
  }

  /** No beat is reported during the warm-up. */
  lemma NoBeatInWarmUp(d: Detector, sample: int32)
    requires d.sampleCount < 10
    ensures !BeatStep(d, sample).1 && BeatStep(d, sample).0.sampleCount == d.sampleCount + 1
  {
  }

  /** `Detect` one phase at a time. */
  lemma DetectSteps(d: Detector, sample: int32, d0: Detector, d1: Detector, d2: Detector, beat: bool)
    requires d.sampleCount >= 10
    requires d0 == if d.threshold == 0 then d.(threshold := sample) else d
    requires d1 == Rise(d0, sample) && (d2, beat) == Fall(d1, sample)
    ensures BeatStep(d, sample) == (Track(d2, sample), beat)
  {
  }

  /** `checkForBeat`'s statics, as an object. */
  class BeatDetector {
    var threshold: int32
    var peak: int32
    var trough: int32
    var amp: int32
    var rising: bool
    var lastSample: int32
    var sampleCount: int32

    function State(): Detector
      reads this
    {
      Detector(threshold, peak, trough, amp, rising, lastSample, sampleCount)
    }

    constructor()
      ensures State() == Start
    {
      threshold, peak, trough, amp := 0, 0, 0, 0;
      rising, lastSample, sampleCount := false, 0, 0;
    }

    /** `checkForBeat`, with the ten-sample warm-up. */
    method CheckForBeat(sample: int32) returns (beatDetected: bool)
      modifies this
      ensures (State(), beatDetected) == BeatStep(old(State()), sample)
    {
      beatDetected := false;
      if sampleCount < 10 {
        threshold := Wrap32(threshold + sample);
        sampleCount := sampleCount + 1;
        if sampleCount == 10 {
          threshold := CDiv(threshold, 10);
        }
        lastSample := sample;
        return false;
      }
      if threshold == 0 {
        threshold := sample;
      }
      ghost var d0 := State();
      RiseStep(sample);
      ghost var d1 := State();
      beatDetected := FallStep(sample);
      ghost var d2 := State();
      TrackStep(sample);
      DetectSteps(old(State()), sample, d0, d1, d2, beatDetected);
    }

    /** An upward crossing starts a rise. */
    method RiseStep(sample: int32)
      modifies this
      ensures State() == Rise(old(State()), sample)
    {
      if sample > threshold && lastSample <= threshold && !rising {
        rising := true;
        peak := sample;
        trough := lastSample;
      }
    }

    /** A downward crossing while rising ends the rise, and may be a beat. */
    method FallStep(sample: int32) returns (beatDetected: bool)
      modifies this
      ensures (State(), beatDetected) == Fall(old(State()), sample)
    {
      beatDetected := false;
      if sample < threshold && lastSample >= threshold && rising {
        rising := false;
        amp := Wrap32(peak - trough);
        if amp > 1000 {
          threshold := CDiv(Wrap32(peak + trough), 2);
          beatDetected := true;
        }
      }
    }

    /** The peak and the trough follow the sample, which becomes the last
        one. */
    method TrackStep(sample: int32)
      modifies this
      ensures State() == Track(old(State()), sample)
    {
      if rising && sample > peak {
        peak := sample;
      }
      if !rising && (sample < trough || trough == 0) {
        trough := sample;
      }
      lastSample := sample;
    }
  }

  // ---------------------------------------------------------------------
  // SpO2 estimate: input checks

  /** The mean `maxim_heart_rate_and_oxygen_saturation` computes: a sum kept
      to 32 unsigned bits, divided by the length. */
  function Mean(xs: seq<int>): int
    requires |xs| > 0
  {
    (Sum(xs) % 0x1_0000_0000) / |xs|
  }

  /** The outputs of the estimate. */
  datatype Estimate = Estimate(spo2: int, spo2Valid: int, heartRate: int, heartRateValid: int)

  /** The estimate goes past its input checks only with at least 25 samples
      and non-zero means. */
  predicate Proceeds(irBuffer: seq<int>, redBuffer: seq<int>, n: int)
    requires n >= 25 ==> |irBuffer| >= n && |redBuffer| >= n
  {
    n >= 25 && Mean(irBuffer[..n]) != 0 && Mean(redBuffer[..n]) != 0
  }

  /** A buffer of readings without a zero has a non-zero mean, as long as the
      sum fits in 32 bits. */
  lemma NonZeroMean(xs: seq<int>)
    requires 0 < |xs| <= 0x4000
    requires forall i :: 0 <= i < |xs| ==> Reading(xs[i]) && xs[i] > 0
    ensures Mean(xs) > 0
  {
    SumBound(xs);
    SumAtLeastCount(xs);
    DivAtLeastOne(Sum(xs), |xs|);
  }

  lemma DivAtLeastOne(a: int, n: int)
    requires 0 < n <= a
    ensures a / n >= 1
  {
  }

  lemma {:induction false} SumAtLeastCount(xs: seq<int>)
    requires forall i :: 0 <= i < |xs| ==> xs[i] > 0
    ensures Sum(xs) >= |xs|
    decreases |xs|
  {
    if xs != [] {
      SumAtLeastCount(xs[..|xs| - 1]);
    }
  }

  /** An all-zero buffer stops the estimate. */
  lemma ZeroBufferStops(irBuffer: seq<int>, redBuffer: seq<int>, n: int)
    requires n >= 25 && |irBuffer| >= n && |redBuffer| >= n
    requires forall i :: 0 <= i < n ==> irBuffer[i] == 0
    ensures !Proceeds(irBuffer, redBuffer, n)
  {
    SumZero(irBuffer[..n]);
  }

  lemma {:induction false} SumZero(xs: seq<int>)
    requires forall i :: 0 <= i < |xs| ==> xs[i] == 0
    ensures Sum(xs) == 0
    decreases |xs|
  {
    if xs != [] {
      SumZero(xs[..|xs| - 1]);
    }
  }

  /** One more element of the 32-bit running sum. */
  lemma SumStep(xs: seq<int>, i: nat)
    requires i < |xs|
    ensures (Sum(xs[..i]) % 0x1_0000_0000 + xs[i]) % 0x1_0000_0000 == Sum(xs[..i + 1]) % 0x1_0000_0000
  {
    assert xs[..i + 1][..i] == xs[..i];
    Wrap32Add(Sum(xs[..i]), xs[i]);
  }

  /** Reducing to 32 bits before an addition changes nothing modulo 2^32. */
  lemma Wrap32Add(a: int, b: int)
    ensures (a % 0x1_0000_0000 + b) % 0x1_0000_0000 == (a + b) % 0x1_0000_0000
  {
  }

  /** The opening of `maxim_heart_rate_and_oxygen_saturation`: all four
      outputs are cleared, and the estimate stops there with fewer than 25
      samples or a zero mean. `proceeds` says whether it goes on to the
      ratio and rate computations. */
  method EstimateInputs(irBuffer: array<int>, n: int32, redBuffer: array<int>)
      returns (outputs: Estimate, proceeds: bool, irMean: int, redMean: int)
    requires n >= 25 ==> irBuffer.Length >= n && redBuffer.Length >= n
    requires forall i :: 0 <= i < irBuffer.Length ==> 0 <= irBuffer[i] < 0x1_0000_0000
    requires forall i :: 0 <= i < redBuffer.Length ==> 0 <= redBuffer[i] < 0x1_0000_0000
    ensures outputs == Estimate(0, 0, 0, 0)
    ensures proceeds == Proceeds(irBuffer[..], redBuffer[..], n)
    ensures proceeds ==> irMean == Mean(irBuffer[..n]) && redMean == Mean(redBuffer[..n])
  {
    outputs := Estimate(0, 0, 0, 0);
    irMean, redMean := 0, 0;
    if n < 25 {
      return outputs, false, irMean, redMean;
    }
    var i := 0;
    while i < n
      invariant 0 <= i <= n
      invariant irMean == Sum(irBuffer[..i]) % 0x1_0000_0000
      invariant redMean == Sum(redBuffer[..i]) % 0x1_0000_0000
    {
      SumStep(irBuffer[..], i);
      SumStep(redBuffer[..], i);
      irMean := (irMean + irBuffer[i]) % 0x1_0000_0000;
      redMean := (redMean + redBuffer[i]) % 0x1_0000_0000;
      i := i + 1;
    }
    irMean := irMean / n;
    redMean := redMean / n;
    assert irBuffer[..][..n] == irBuffer[..n] && redBuffer[..][..n] == redBuffer[..n];
    proceeds := !(irMean == 0 || redMean == 0);
  }
}
