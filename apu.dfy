/** The audio unit of src/apu.c: the duty table and the four channel
    samples, and the integer state `apu_clock` advances: the channel
    period counters, the noise LFSR, the frame sequencer's length,
    sweep and envelope steps, and the NR52 power switch. The float mixing
    into the sample buffer is not modelled; the integer samples land in
    the PCM12/PCM34 registers as in the source. */
module Apu {
  import opened Bytes

  /** Offsets in the I/O register file. */
  const NR10: nat := 0x10
  const NR11: nat := 0x11
  const NR14: nat := 0x14
  const NR21: nat := 0x16
  const NR24: nat := 0x19
  const NR32: nat := 0x1C
  const NR34: nat := 0x1E
  const NR43: nat := 0x22
  const NR44: nat := 0x23
  const NR52: nat := 0x26
  const WAVERAM: nat := 0x30
  const KEY1: nat := 0x4D
  const PCM12: nat := 0x76
  const PCM34: nat := 0x77
  const IO_SIZE: nat := 0x80

  const NRX4_LEN_ENABLE: bv8 := 0x40
  /** `(1 << 22) / 44100`: machine steps between two output samples. */
  const SAMPLE_RATE: nat := 95
  const SAMPLE_BUF_LEN: nat := 1024
  const APU_DIV_RATE: nat := 8192

  // ------------------------------------------------------------ samples

  /** `duty_cycles`: one 8-step waveform per duty setting. */
  const DUTY_CYCLES: seq<bv8> := [0xFE, 0x7E, 0x78, 0x81]

  /** Whether step `index` (taken modulo 8) of waveform `duty` is high. */
  predicate DutyHigh(duty: bv8, index: bv8)
    requires duty < 4
  {
    DUTY_CYCLES[duty] & (1 << (index & 7)) != 0
  }

  /** The shapes of the four waveforms: high on 7, 6, 4 and 2 of the 8
      steps, and periodic with period 8. */
  lemma DutyShapes(index: bv8)
    ensures DutyHigh(0, index) <==> index & 7 != 0
    ensures DutyHigh(1, index) <==> index & 7 != 0 && index & 7 != 7
    ensures DutyHigh(2, index) <==> 3 <= index & 7 <= 6
    ensures DutyHigh(3, index) <==> index & 7 == 0 || index & 7 == 7
    ensures forall d: bv8 | d < 4 :: DutyHigh(d, index) == DutyHigh(d, index + 8)
  {
    var s := index & 7;
    assert (index + 8) & 7 == s;
    assert s < 8;
    if s == 0 { } else if s == 1 { } else if s == 2 { } else if s == 3 { }
    else if s == 4 { } else if s == 5 { } else if s == 6 { } else { }
  }

  /** `get_sample_ch1`/`get_sample_ch2`: the volume while the waveform
      selected by bits 6-7 of NRx1 is high, else 0. */
  function PulseSample(nrx1: bv8, index: bv8, volume: bv8): (r: bv8)
    ensures r == volume || r == 0
    ensures r == volume <== DutyHigh(nrx1 >> 6, index)
    ensures volume != 0 ==> (r == volume <==> DutyHigh(nrx1 >> 6, index))
  {
    if DUTY_CYCLES[(nrx1 & 0xC0) >> 6] & (1 << (index & 7)) != 0 then volume else 0
  }

  /** `get_sample_ch3`: nibble `index` of the 16-byte wave RAM (the high
      nibble first), shifted right by the output level minus one; level 0
      mutes. */
  function WaveSample(wave: seq<bv8>, index: bv8, nr32: bv8): (r: bv8)
    requires |wave| == 16
    ensures r < 16
    ensures var level := (nr32 & 0x60) >> 5;
            var nibble := if index & 1 != 0 then wave[(index & 0x1E) >> 1] & 0x0F
                          else wave[(index & 0x1E) >> 1] >> 4;
            r == if level == 0 then 0 else nibble >> (level - 1)
  {
    var sample := wave[(index & 0x1E) >> 1];
    var nibble := if index & 1 != 0 then sample & 0x0F else (sample & 0xF0) >> 4;
    var level := (nr32 & 0x60) >> 5;
    if level != 0 then nibble >> (level - 1) else 0
  }

  /** The wave channel plays the 32 nibbles in order and repeats. */
  lemma WaveRepeats(wave: seq<bv8>, index: bv8, nr32: bv8)
    requires |wave| == 16
    ensures WaveSample(wave, index + 32, nr32) == WaveSample(wave, index, nr32)
  {
    assert (index + 32) & 0x1E == index & 0x1E;
    assert (index + 32) & 1 == index & 1;
  }

  /** `get_sample_ch4`: the volume while bit 0 of the LFSR is set. */
  function NoiseSample(lfsr: nat, volume: bv8): (r: bv8)
    ensures r == (if lfsr % 2 == 1 then volume else 0)
  {
    if BitAnd(lfsr, 1) != 0 then (AndLowMask(lfsr, 1); volume) else 0
  }

  // ----------------------------------------------------- period counters

  /** A channel's period counter (a `u16`), its reload value, and the
      waveform position the counter advances. */
  datatype Period = Period(counter: nat, wavelen: nat, index: bv8)

  /** One period-counter step: the counter climbs, and on reaching 2048 it
      reloads from the wavelength and the waveform moves one step. */
  function PeriodTick(p: Period): (r: Period)
    ensures r.wavelen == p.wavelen
    ensures r.index == p.index || r.index == p.index + 1
    ensures p.counter < 2048 && p.wavelen < 2048 ==> r.counter < 2048
  {
    var c := (p.counter + 1) % 0x10000;
    if c == 2048 then p.(counter := p.wavelen, index := p.index + 1) else p.(counter := c)
  }

  function PeriodTicks(p: Period, k: nat): Period {
    if k == 0 then p else PeriodTick(PeriodTicks(p, k - 1))
  }

  /** From counter `c`, the waveform stays put for `2047 - c` steps and
      moves on the `2048 - c`-th, when the counter reloads: a channel whose
      counter starts at its wavelength `w` steps every `2048 - w` ticks. */
  lemma {:induction false} PeriodSteps(p: Period, k: nat)
    requires p.counter < 2048 && k <= 2048 - p.counter
    ensures k < 2048 - p.counter ==> PeriodTicks(p, k) == p.(counter := p.counter + k)
    ensures k == 2048 - p.counter ==> PeriodTicks(p, k) == p.(counter := p.wavelen, index := p.index + 1)
  {
    if k > 0 {
      PeriodSteps(p, k - 1);
    }
  }

  // --------------------------------------------------------------- noise

  /** The noise channel's clock divider in steps: `2 << shift`, times the
      divisor code when it is not 0. */
  function NoiseRate(nr43: bv8): (r: nat)
    ensures r >= 2
  {
    var base := 2 * Pow2(((nr43 & 0xF0) >> 4) as nat);
    if nr43 & 0x07 != 0 then base * (nr43 & 0x07) as nat else base
  }

  /** The bit an LFSR shift feeds back: the XNOR of bits 0 and 1. */
  function Feedback(lfsr: nat): (b: nat)
    ensures b < 2
  {
    if lfsr % 2 == (lfsr / 2) % 2 then 1 else 0
  }

  /** One LFSR shift: the feedback bit goes into bit 15 (and bit 7 in 7-bit
      mode), then everything moves down one place. Clearing and setting a
      bit is written as arithmetic on the bit's value. */
  function LfsrStep(lfsr: nat, short: bool): (r: nat)
    requires lfsr < 0x10000
    ensures r < 0x8000
    ensures r / 0x4000 == Feedback(lfsr)
    ensures short ==> (r / 64) % 2 == Feedback(lfsr)
    ensures !short ==> r % 0x4000 == (lfsr / 2) % 0x4000
    ensures r % 64 == (lfsr / 2) % 64
  {
    var bit := Feedback(lfsr);
    var l1 := lfsr % 0x8000 + bit * 0x8000;
    LfsrShift(lfsr, bit);
    if short then (l1 - ((l1 / 128) % 2) * 128 + bit * 128) / 2 else l1 / 2
  }

  /** The bit positions of one shift, taken apart into fields. */
  lemma LfsrShift(lfsr: nat, bit: nat)
    requires lfsr < 0x10000 && bit < 2
    ensures var l1 := lfsr % 0x8000 + bit * 0x8000;
            var l2 := l1 - ((l1 / 128) % 2) * 128 + bit * 128;
            l1 / 2 < 0x8000 && (l1 / 2) / 0x4000 == bit && (l1 / 2) % 0x4000 == (lfsr / 2) % 0x4000 &&
            (l1 / 2) % 64 == (lfsr / 2) % 64 &&
            l2 / 2 < 0x8000 && (l2 / 2) / 0x4000 == bit && ((l2 / 2) / 64) % 2 == bit &&
            (l2 / 2) % 64 == (lfsr / 2) % 64
  {
    LfsrFields(lfsr);
    LfsrLong(lfsr, bit);
    LfsrShortMode(lfsr, bit);
  }

  /** The fields of a 16-bit LFSR value: `top`, bits 8-14, bit 7, bits 0-6. */
  lemma LfsrFields(lfsr: nat)
    requires lfsr < 0x10000
    ensures lfsr / 0x8000 < 2
    ensures lfsr == 0x8000 * (lfsr / 0x8000) + 256 * ((lfsr / 256) % 128) + 128 * ((lfsr / 128) % 2) + lfsr % 128
    ensures lfsr % 0x8000 == 256 * ((lfsr / 256) % 128) + 128 * ((lfsr / 128) % 2) + lfsr % 128
    ensures (lfsr / 2) % 0x4000 == 128 * ((lfsr / 256) % 128) + 64 * ((lfsr / 128) % 2) + (lfsr % 128) / 2
    ensures (lfsr / 2) % 64 == (lfsr % 128) / 2
  {
    var lo, b7, mid, top := lfsr % 128, (lfsr / 128) % 2, (lfsr / 256) % 128, lfsr / 0x8000;
    var h := lfsr / 128;
    DivModUnique(h, 2, h / 2, b7);
    DivModUnique(h / 2, 128, top, mid);
    DivModUnique(lfsr, 0x8000, top, 256 * mid + 128 * b7 + lo);
    var half := 128 * mid + 64 * b7 + lo / 2;
    DivModUnique(lfsr, 2, 0x4000 * top + half, lo % 2);
    DivModUnique(lfsr / 2, 0x4000, top, half);
    DivModUnique(lfsr / 2, 64, 256 * top + 2 * mid + b7, lo / 2);
  }

  /** The long (15-bit) shift: with the feedback in bit 15, the shifted
      register has the feedback in bit 14, bits 0-13 those of the old
      register shifted right, and bit 7 of the intermediate value untouched. */
  lemma LfsrLong(lfsr: nat, bit: nat)
    requires lfsr < 0x10000 && bit < 2
    requires lfsr % 0x8000 == 256 * ((lfsr / 256) % 128) + 128 * ((lfsr / 128) % 2) + lfsr % 128
    ensures var l1 := lfsr % 0x8000 + bit * 0x8000;
            (l1 / 2) / 0x4000 == bit &&
            (l1 / 2) % 0x4000 == 128 * ((lfsr / 256) % 128) + 64 * ((lfsr / 128) % 2) + (lfsr % 128) / 2 &&
            (l1 / 2) % 64 == (lfsr % 128) / 2 && (l1 / 128) % 2 == (lfsr / 128) % 2
  {
    var lo, b7, mid := lfsr % 128, (lfsr / 128) % 2, (lfsr / 256) % 128;
    var half := 128 * mid + 64 * b7 + lo / 2;
    var l1 := lfsr % 0x8000 + bit * 0x8000;
    DivModUnique(l1, 2, 0x4000 * bit + half, lo % 2);
    DivModUnique(l1 / 2, 0x4000, bit, half);
    DivModUnique(l1 / 2, 64, 256 * bit + 2 * mid + b7, lo / 2);
    DivModUnique(l1, 128, 256 * bit + 2 * mid + b7, lo);
    DivModUnique(l1 / 128, 2, 128 * bit + mid, b7);
  }

  /** The short (7-bit) shift: with the feedback also copied into bit 7,
      the shifted register has the feedback in bits 14 and 6, bits 0-5 those
      of the old register shifted right, and stays below 0x8000. */
  lemma LfsrShortMode(lfsr: nat, bit: nat)
    requires lfsr < 0x10000 && bit < 2
    requires lfsr % 0x8000 == 256 * ((lfsr / 256) % 128) + 128 * ((lfsr / 128) % 2) + lfsr % 128
    ensures var l1 := lfsr % 0x8000 + bit * 0x8000;
            var l2 := l1 - ((lfsr / 128) % 2) * 128 + bit * 128;
            l2 / 2 < 0x8000 && (l2 / 2) / 0x4000 == bit && ((l2 / 2) / 64) % 2 == bit &&
            (l2 / 2) % 64 == (lfsr % 128) / 2
  {
    var lo, mid := lfsr % 128, (lfsr / 256) % 128;
    var l2 := 0x8000 * bit + 256 * mid + 128 * bit + lo;
    var half2 := 128 * mid + 64 * bit + lo / 2;
    DivModUnique(l2, 2, 0x4000 * bit + half2, lo % 2);
    DivModUnique(l2 / 2, 0x4000, bit, half2);
    DivModUnique(l2 / 2, 64, 256 * bit + 2 * mid + bit, lo / 2);
    DivModUnique(l2 / 2 / 64, 2, 128 * bit + mid, bit);
  }

  /** The noise channel's divider and shift register. */
  datatype Noise = Noise(counter: nat, lfsr: nat)

  /** One noise step: the divider counts up and, on reaching the rate,
      restarts and shifts the LFSR once. */
  function NoiseTick(n: Noise, nr43: bv8): (r: Noise)
    requires n.lfsr < 0x10000
    ensures r.lfsr < 0x10000
    ensures r.counter < NoiseRate(nr43)
    ensures r.lfsr != n.lfsr ==> n.counter + 1 >= NoiseRate(nr43)
    ensures n.counter + 1 >= NoiseRate(nr43) ==> r.counter == 0 && r.lfsr == LfsrStep(n.lfsr, nr43 & 0x08 != 0)
    ensures n.counter + 1 < NoiseRate(nr43) ==> r.counter == n.counter + 1 && r.lfsr == n.lfsr
  {
    var c := n.counter + 1;
    if c >= NoiseRate(nr43) then Noise(0, LfsrStep(n.lfsr, nr43 & 0x08 != 0)) else n.(counter := c)
  }

  // ------------------------------------------------------ frame sequencer

  /** A volume envelope: its step counter, pace (0 = off), direction, and
      the channel volume; the numbers are `u8`s. */
  datatype Envelope = Envelope(counter: nat, pace: nat, up: bool, volume: nat)

  /** One envelope step: every `pace` steps the volume moves one unit in
      its direction, held within 0..15. */
  function EnvelopeTick(e: Envelope): (r: Envelope)
    requires e.counter < 256 && e.volume < 256
    ensures r.counter < 256 && r.volume < 256
    ensures e.volume <= 15 ==> r.volume <= 15
    ensures r.pace == e.pace && r.up == e.up
    ensures e.volume <= 15 && r.volume != e.volume ==>
              if e.up then r.volume == e.volume + 1 else r.volume == e.volume - 1
    ensures r.volume != e.volume ==> e.pace != 0 && (e.counter + 1) % 256 == e.pace && r.counter == 0
    ensures e.pace != 0 && (e.counter + 1) % 256 == e.pace && e.volume <= 15 ==>
              r.counter == 0 &&
              r.volume == if e.up then (if e.volume == 15 then 15 else e.volume + 1)
                          else (if e.volume == 0 then 0 else e.volume - 1)
    ensures !(e.pace != 0 && (e.counter + 1) % 256 == e.pace) ==>
              r.counter == (e.counter + 1) % 256 && r.volume == e.volume
  {
    var c := (e.counter + 1) % 256;
    if e.pace != 0 && c == e.pace then
      var v := if e.up then (if e.volume + 1 == 0x10 then 0x0F else (e.volume + 1) % 256)
               else (if e.volume == 0 then 0x00 else e.volume - 1);
      e.(counter := 0, volume := v)
    else e.(counter := c)
  }

  /** A volume at a limit stays there. */
  lemma EnvelopeSaturates(e: Envelope)
    requires e.counter < 256 && ((e.up && e.volume == 15) || (!e.up && e.volume == 0))
    ensures EnvelopeTick(e).volume == e.volume
  {
  }

  /** A length step of channels 1, 2 and 4: while enabled by bit 6 of NRx4,
      the (`u8`) counter climbs and at 64 restarts and switches the channel
      off. */
  function LengthTick(counter: nat, on: bool, nrx4: bv8): (r: (nat, bool))
    requires counter < 256
    ensures r.0 < 256
    ensures counter < 64 ==> r.0 < 64
    ensures r.1 ==> on
    ensures r.1 != on <==> on && nrx4 & NRX4_LEN_ENABLE != 0 && counter == 63
  {
    if nrx4 & NRX4_LEN_ENABLE != 0 then
      var c := (counter + 1) % 256;
      if c == 64 then (0, false) else (c, on)
    else (counter, on)
  }

  /** The wave channel's length step: its `u8` counter runs through 256
      values before wrapping to 0, which switches the channel off. */
  function WaveLengthTick(counter: nat, on: bool, nr34: bv8): (r: (nat, bool))
    requires counter < 256
    ensures r.0 < 256
    ensures r.1 ==> on
    ensures r.1 != on <==> on && nr34 & NRX4_LEN_ENABLE != 0 && counter == 0xFF
  {
    if nr34 & NRX4_LEN_ENABLE != 0 then
      var c := (counter + 1) % 256;
      if c == 0 then (c, false) else (c, on)
    else (counter, on)
  }

  /** Channel 1's sweep counter and pace (`u8`s). */
  datatype Sweep = Sweep(counter: nat, pace: nat)

  /** The sweep's new wavelength: the old one plus or minus itself shifted
      right by the slope, in 16-bit arithmetic. */
  function SweptWavelen(wavelen: nat, nr10: bv8): (r: nat)
    requires wavelen < 0x10000
    ensures r < 0x10000
    ensures nr10 & 0x08 != 0 ==> r <= wavelen
    ensures nr10 & 0x07 == 0 ==> r == if nr10 & 0x08 != 0 then 0 else (2 * wavelen) % 0x10000
  {
    var del := Shifted(wavelen, (nr10 & 0x07) as nat);
    if nr10 & 0x08 != 0 then wavelen - del else (wavelen + del) % 0x10000
  }

  /** `x >> k`. */
  function Shifted(x: nat, k: nat): (r: nat)
    ensures r <= x
    ensures k == 0 ==> r == x
  {
    var p := Pow2(k);
    DivAtMost(x, p);
    DivByOne(x, p);
    x / p
  }

  lemma DivByOne(x: nat, p: nat)
    ensures p == 1 ==> x / p == x
  {
    if p == 1 {
      DivModUnique(x, 1, x, 0);
    }
  }

  lemma DivAtMost(x: nat, d: nat)
    requires d >= 1
    ensures 0 <= x / d <= x
  {
    var q := x / d;
    assert x == d * q + x % d;
    MulAtLeast(d, q);
  }

  /** One sweep step over (sweep, wavelength, channel on): every `pace`
      steps the pace is reloaded from NR10, an upward sweep past 2047
      switches the channel off, and a non-zero slope stores the new
      wavelength. */
  function SweepTick(s: Sweep, wavelen: nat, on: bool, nr10: bv8): (r: (Sweep, nat, bool))
    requires wavelen < 0x10000 && s.counter < 256
    ensures r.1 < 0x10000 && r.0.counter < 256
    ensures r.2 ==> on
    ensures r.1 != wavelen ==> nr10 & 0x07 != 0
    ensures nr10 & 0x08 != 0 ==> r.1 <= wavelen && r.2 == on
    ensures r.2 != on ==> nr10 & 0x08 == 0 && SweptWavelen(wavelen, nr10) > 2047
    ensures s.pace != 0 && (s.counter + 1) % 256 == s.pace ==>
              r.0 == Sweep(0, ((nr10 & 0x70) >> 4) as nat) &&
              (nr10 & 0x07 != 0 ==> r.1 == SweptWavelen(wavelen, nr10)) &&
              (r.2 <==> on && !(nr10 & 0x08 == 0 && SweptWavelen(wavelen, nr10) > 2047))
    ensures !(s.pace != 0 && (s.counter + 1) % 256 == s.pace) ==>
              r.0 == s.(counter := (s.counter + 1) % 256) && r.1 == wavelen && r.2 == on
  {
    var c := (s.counter + 1) % 256;
    if s.pace != 0 && c == s.pace then
      var nw := SweptWavelen(wavelen, nr10);
      var on' := if nr10 & 0x08 == 0 && nw > 2047 then false else on;
      (Sweep(0, ((nr10 & 0x70) >> 4) as nat), if nr10 & 0x07 != 0 then nw else wavelen, on')
    else (s.(counter := c), wavelen, on)
  }

  /** NR52 while the unit is on: bit 7 and one status bit per channel. */
  function Nr52(on1: bool, on2: bool, on3: bool, on4: bool): (r: bv8)
    ensures r & 0x80 != 0
    ensures (r & 0x01 != 0) == on1 && (r & 0x02 != 0) == on2
    ensures (r & 0x04 != 0) == on3 && (r & 0x08 != 0) == on4
    ensures r & 0x70 == 0
  {
    0x80 | (if on1 then 0x01 else 0) | (if on2 then 0x02 else 0) |
    (if on3 then 0x04 else 0) | (if on4 then 0x08 else 0)
  }

  /** The length counters of the four channels and whether each channel
      is on (the status bits of NR52). */
  datatype Status = Status(len1: nat, len2: nat, len3: nat, len4: nat, on1: bool, on2: bool, on3: bool, on4: bool)
  {
    predicate Valid() {
      len1 < 256 && len2 < 256 && len3 < 256 && len4 < 256
    }
  }

  /** The length step of the four channels. */
  function LengthsTick(s: Status, nr14: bv8, nr24: bv8, nr34: bv8, nr44: bv8): (r: Status)
    requires s.Valid()
    ensures r.Valid()
    ensures (r.on1 ==> s.on1) && (r.on2 ==> s.on2) && (r.on3 ==> s.on3) && (r.on4 ==> s.on4)
    ensures (r.len1, r.on1) == LengthTick(s.len1, s.on1, nr14) && (r.len2, r.on2) == LengthTick(s.len2, s.on2, nr24)
    ensures (r.len3, r.on3) == WaveLengthTick(s.len3, s.on3, nr34) && (r.len4, r.on4) == LengthTick(s.len4, s.on4, nr44)
  {
    var l1 := LengthTick(s.len1, s.on1, nr14);
    var l2 := LengthTick(s.len2, s.on2, nr24);
    var l3 := WaveLengthTick(s.len3, s.on3, nr34);
    var l4 := LengthTick(s.len4, s.on4, nr44);
    Status(l1.0, l2.0, l3.0, l4.0, l1.1, l2.1, l3.1, l4.1)
  }

  function LengthTicks(counter: nat, on: bool, nrx4: bv8, k: nat): (r: (nat, bool))
    requires counter < 256
    ensures r.0 < 256
  {
    if k == 0 then (counter, on) else
      var r := LengthTicks(counter, on, nrx4, k - 1);
      LengthTick(r.0, r.1, nrx4)
  }

  /** An enabled length counter started at `n` keeps its channel on for
      `63 - n` steps and switches it off on step `64 - n`. */
  lemma {:induction false} LengthRunsOut(n: nat, nrx4: bv8, k: nat)
    requires n < 64 && nrx4 & NRX4_LEN_ENABLE != 0 && k <= 64 - n
    ensures k < 64 - n ==> LengthTicks(n, true, nrx4, k) == (n + k, true)
    ensures k == 64 - n ==> LengthTicks(n, true, nrx4, k) == (0, false)
  {
    if k > 0 {
      LengthRunsOut(n, nrx4, k - 1);
    }
  }

  /** The envelopes of channels 1, 2 and 4. */
  datatype Envelopes = Envelopes(ch1: Envelope, ch2: Envelope, ch4: Envelope)
  {
    predicate Bounded() {
      ch1.volume <= 15 && ch2.volume <= 15 && ch4.volume <= 15 &&
      ch1.counter < 256 && ch2.counter < 256 && ch4.counter < 256
    }
  }

  /** The four channels' period state. */
  datatype Channels = Channels(ch1: Period, ch2: Period, ch3: Period, ch4: Noise)
  {
    /** The counters, wavelengths and LFSR are `u16`s. */
    predicate Valid() {
      ch1.counter < 0x10000 && ch1.wavelen < 0x10000 && ch2.counter < 0x10000 && ch2.wavelen < 0x10000 &&
      ch3.counter < 0x10000 && ch3.wavelen < 0x10000 && ch4.lfsr < 0x10000
    }
  }

  /** The period step on counted step number `n`: the wave channel every 2
      steps, the pulse channels every 4, the noise channel every 8. */
  function ChannelsTick(n: nat, c: Channels, nr43: bv8): (r: Channels)
    requires c.Valid()
    ensures r.Valid()
    ensures r.ch3 != c.ch3 ==> n % 2 == 0
    ensures r.ch1 != c.ch1 || r.ch2 != c.ch2 ==> n % 4 == 0
    ensures r.ch4 != c.ch4 ==> n % 8 == 0
    ensures r.ch1.wavelen == c.ch1.wavelen && r.ch2.wavelen == c.ch2.wavelen && r.ch3.wavelen == c.ch3.wavelen
    ensures n % 2 == 0 ==> r.ch3 == PeriodTick(c.ch3)
    ensures n % 4 == 0 ==> r.ch1 == PeriodTick(c.ch1) && r.ch2 == PeriodTick(c.ch2)
    ensures n % 8 == 0 ==> r.ch4 == NoiseTick(c.ch4, nr43)
  {
    Channels(if n % 4 == 0 then PeriodTick(c.ch1) else c.ch1,
             if n % 4 == 0 then PeriodTick(c.ch2) else c.ch2,
             if n % 2 == 0 then PeriodTick(c.ch3) else c.ch3,
             if n % 8 == 0 then NoiseTick(c.ch4, nr43) else c.ch4)
  }

  /** What the frame sequencer advances: its divider, the channel status,
      the sweep, channel 1's wavelength and the envelopes. */
  datatype Sequencer = Sequencer(div: nat, status: Status, sweep: Sweep, wavelen: nat, envs: Envelopes)

  /** One frame-sequencer step: the divider counts, and every 2 of its
      values the lengths, every 4 the sweep, every 8 the envelopes
      advance. A channel is only ever switched off here. */
  function SequencerTick(q: Sequencer, io: seq<bv8>): (r: Sequencer)
    requires |io| == IO_SIZE && q.wavelen < 0x10000 && q.status.Valid() && q.sweep.counter < 256
    requires q.envs.Bounded()
    ensures r.div == (q.div + 1) % 0x10000 && r.wavelen < 0x10000
    ensures r.status.Valid() && r.sweep.counter < 256 && r.envs.Bounded()
    ensures (r.status.on1 ==> q.status.on1) && (r.status.on2 ==> q.status.on2)
    ensures (r.status.on3 ==> q.status.on3) && (r.status.on4 ==> q.status.on4)
    ensures r.envs != q.envs ==> r.div % 8 == 0
    ensures r.sweep != q.sweep || r.wavelen != q.wavelen ==> r.div % 4 == 0
    ensures (r.status.len1 != q.status.len1 || r.status.len2 != q.status.len2 ||
             r.status.len3 != q.status.len3 || r.status.len4 != q.status.len4) ==> r.div % 2 == 0
    ensures r.div % 2 != 0 ==> r.status == q.status && r.sweep == q.sweep && r.wavelen == q.wavelen && r.envs == q.envs
    ensures r.div % 2 == 0 ==>
              var l := LengthsTick(q.status, io[NR14], io[NR24], io[NR34], io[NR44]);
              r.status.(on1 := l.on1) == l &&
              if r.div % 4 == 0 then
                var sw := SweepTick(q.sweep, q.wavelen, l.on1, io[NR10]);
                r.sweep == sw.0 && r.wavelen == sw.1 && r.status.on1 == sw.2
              else
                r.status == l && r.sweep == q.sweep && r.wavelen == q.wavelen
    ensures r.div % 8 == 0 ==>
              r.envs == Envelopes(EnvelopeTick(q.envs.ch1), EnvelopeTick(q.envs.ch2), EnvelopeTick(q.envs.ch4))
    ensures r.div % 8 != 0 ==> r.envs == q.envs
  {
    var d := (q.div + 1) % 0x10000;
    EveryFourIsEven(d);
    var st := LengthStep(q.status, d, io);
    var sw := SweepStep(q.sweep, q.wavelen, st.on1, d, io[NR10]);
    Sequencer(d, st.(on1 := sw.2), sw.0, sw.1, EnvelopeStep(q.envs, d))
  }

  /** The sweep's and the envelopes' values of the divider are even. */
  lemma EveryFourIsEven(d: nat)
    ensures d % 4 == 0 ==> d % 2 == 0
    ensures d % 8 == 0 ==> d % 2 == 0
  {
    DivMod2(d, 2);
    DivMod2(d, 4);
  }

  /** The lengths advance on the even values of the divider. */
  function LengthStep(s: Status, d: nat, io: seq<bv8>): (r: Status)
    requires |io| == IO_SIZE && s.Valid()
    ensures r.Valid()
    ensures (r.on1 ==> s.on1) && (r.on2 ==> s.on2) && (r.on3 ==> s.on3) && (r.on4 ==> s.on4)
    ensures (r.len1 != s.len1 || r.len2 != s.len2 || r.len3 != s.len3 || r.len4 != s.len4) ==> d % 2 == 0
    ensures d % 2 == 0 ==> r == LengthsTick(s, io[NR14], io[NR24], io[NR34], io[NR44])
    ensures d % 2 != 0 ==> r == s
  {
    if d % 2 == 0 then LengthsTick(s, io[NR14], io[NR24], io[NR34], io[NR44]) else s
  }

  /** The sweep advances on the values of the divider divisible by 4. */
  function SweepStep(s: Sweep, wavelen: nat, on: bool, d: nat, nr10: bv8): (r: (Sweep, nat, bool))
    requires wavelen < 0x10000 && s.counter < 256
    ensures r.1 < 0x10000 && r.0.counter < 256 && (r.2 ==> on)
    ensures r.0 != s || r.1 != wavelen || r.2 != on ==> d % 4 == 0
    ensures d % 4 == 0 ==> r == SweepTick(s, wavelen, on, nr10)
  {
    if d % 4 == 0 then SweepTick(s, wavelen, on, nr10) else (s, wavelen, on)
  }

  /** The envelopes advance on the values of the divider divisible by 8. */
  function EnvelopeStep(e: Envelopes, d: nat): (r: Envelopes)
    requires e.Bounded()
    ensures r.Bounded()
    ensures r != e ==> d % 8 == 0
    ensures d % 8 == 0 ==> r == Envelopes(EnvelopeTick(e.ch1), EnvelopeTick(e.ch2), EnvelopeTick(e.ch4))
  {
    if d % 8 == 0 then Envelopes(EnvelopeTick(e.ch1), EnvelopeTick(e.ch2), EnvelopeTick(e.ch4)) else e
  }

  /** The state of `struct gb_apu` that `apu_clock` advances. The register
      file `io` is the one the bus owns. */
  class Unit {
    const io: array<bv8>
    var apuDiv: nat
    var globalCounter: nat
    var sampleInd: nat
    var samplesFull: bool
    var chans: Channels
    var status: Status
    var sweep: Sweep
    var envs: Envelopes

    ghost predicate Valid()
      reads this
    {
      io.Length == IO_SIZE && apuDiv < 0x10000 && sampleInd < SAMPLE_BUF_LEN && sampleInd % 2 == 0 &&
      chans.Valid() && envs.Bounded() && status.Valid() && sweep.counter < 256
    }

    /** A unit over `io` with every counter at zero and every channel off. */
    constructor (io: array<bv8>)
      requires io.Length == IO_SIZE
      ensures Valid() && this.io == io
      ensures apuDiv == 0 && globalCounter == 0 && sampleInd == 0 && !samplesFull
      ensures chans == Channels(Period(0, 0, 0), Period(0, 0, 0), Period(0, 0, 0), Noise(0, 0))
      ensures status == Status(0, 0, 0, 0, false, false, false, false)
    {
      this.io := io;
      apuDiv, globalCounter, sampleInd, samplesFull := 0, 0, 0, false;
      chans := Channels(Period(0, 0, 0), Period(0, 0, 0), Period(0, 0, 0), Noise(0, 0));
      status := Status(0, 0, 0, 0, false, false, false, false);
      sweep := Sweep(0, 0);
      envs := Envelopes(Envelope(0, 0, false, 0), Envelope(0, 0, false, 0), Envelope(0, 0, false, 0));
    }

    /** The sixteen bytes of wave RAM. */
    function WaveRam(): (w: seq<bv8>)
      requires Valid()
      reads this, io
      ensures |w| == 16
    {
      io[WAVERAM..WAVERAM + 16]
    }

    /** The frame-sequencer state. */
    function Seq(): Sequencer
      reads this
    {
      Sequencer(apuDiv, status, sweep, chans.ch1.wavelen, envs)
    }

    /** `apu_clock`: with bit 7 of NR52 clear the unit is reset and stays
        off; otherwise NR52 shows the channel status, `step` (the machine
        step that falls on the emulation speed) advances the channels, and
        every APU_DIV_RATE (doubled in double-speed mode) values of the
        divider `div` advance the frame sequencer. */
    method Clock(step: bool, div: nat)
      requires Valid()
      modifies this, io
      ensures Valid()
      ensures old(io[NR52]) & 0x80 == 0 ==>
                io[..] == old(io[..])[NR52 := 0] && apuDiv == 0 && sampleInd == 0 && globalCounter == 0 &&
                chans == old(chans) && status == old(status) && sweep == old(sweep) && envs == old(envs) &&
                samplesFull == old(samplesFull)
      ensures old(io[NR52]) & 0x80 != 0 ==>
                io[NR52] == Nr52(old(status.on1), old(status.on2), old(status.on3), old(status.on4))
      ensures old(io[NR52]) & 0x80 != 0 ==>
                var counted := if step then ChannelsTick(old(globalCounter) + 1, old(chans), old(io[NR43])) else old(chans);
                globalCounter == (if step then old(globalCounter) + 1 else old(globalCounter)) &&
                if div % SequencerRate(old(io[KEY1])) == 0 then
                  Seq() == SequencerTick(old(Seq()), io[..]) &&
                  chans == counted.(ch1 := counted.ch1.(wavelen := chans.ch1.wavelen))
                else
                  Seq() == old(Seq()) && chans == counted
      ensures old(io[NR52]) & 0x80 != 0 && (!step || (old(globalCounter) + 1) % SAMPLE_RATE != 0) ==>
                io[..] == old(io[..])[NR52 := io[NR52]] && sampleInd == old(sampleInd) &&
                samplesFull == old(samplesFull)
      ensures old(io[NR52]) & 0x80 != 0 && step && (old(globalCounter) + 1) % SAMPLE_RATE == 0 ==>
                sampleInd == (old(sampleInd) + 2) % SAMPLE_BUF_LEN &&
                samplesFull == (old(samplesFull) || old(sampleInd) + 2 == SAMPLE_BUF_LEN)
      ensures forall i | 0 <= i < IO_SIZE && i != NR52 && i != PCM12 && i != PCM34 :: io[i] == old(io[i])
    {
      if io[NR52] & 0x80 == 0 {
        io[NR52] := 0;
        apuDiv, sampleInd, globalCounter := 0, 0, 0;
        return;
      }
      io[NR52] := Nr52(status.on1, status.on2, status.on3, status.on4);
      Run(step, div);
    }

    /** The part of `apu_clock` after NR52 is refreshed: the counted step,
        then the frame-sequencer step when `div` falls on the rate. */
    method Run(step: bool, div: nat)
      requires Valid()
      modifies this, io
      ensures Valid()
      ensures var counted := if step then ChannelsTick(old(globalCounter) + 1, old(chans), old(io[NR43])) else old(chans);
              globalCounter == (if step then old(globalCounter) + 1 else old(globalCounter)) &&
              if div % SequencerRate(old(io[KEY1])) == 0 then
                Seq() == SequencerTick(old(Seq()), io[..]) &&
                chans == counted.(ch1 := counted.ch1.(wavelen := chans.ch1.wavelen))
              else
                Seq() == old(Seq()) && chans == counted
      ensures !step || (old(globalCounter) + 1) % SAMPLE_RATE != 0 ==>
                io[..] == old(io[..]) && sampleInd == old(sampleInd) && samplesFull == old(samplesFull)
      ensures step && (old(globalCounter) + 1) % SAMPLE_RATE == 0 ==>
                sampleInd == (old(sampleInd) + 2) % SAMPLE_BUF_LEN &&
                samplesFull == (old(samplesFull) || old(sampleInd) + 2 == SAMPLE_BUF_LEN)
      ensures forall i | 0 <= i < IO_SIZE && i != PCM12 && i != PCM34 :: io[i] == old(io[i])
    {
      if step {
        Count();
      }
      assert Seq() == old(Seq());
      if div % SequencerRate(io[KEY1]) == 0 {
        Sequence();
      }
    }

    /** The part of `apu_clock` run on each counted step: the period
        counters, then every SAMPLE_RATE steps one output sample. */
    method Count()
      requires Valid()
      modifies this`globalCounter, this`chans, this`sampleInd, this`samplesFull, io
      ensures Valid()
      ensures globalCounter == old(globalCounter) + 1
      ensures chans == ChannelsTick(globalCounter, old(chans), io[NR43])
      ensures forall i | 0 <= i < IO_SIZE && i != PCM12 && i != PCM34 :: io[i] == old(io[i])
      ensures globalCounter % SAMPLE_RATE != 0 ==>
                io[..] == old(io[..]) && sampleInd == old(sampleInd) && samplesFull == old(samplesFull)
      ensures globalCounter % SAMPLE_RATE == 0 ==>
                sampleInd == (old(sampleInd) + 2) % SAMPLE_BUF_LEN &&
                samplesFull == (old(samplesFull) || old(sampleInd) + 2 == SAMPLE_BUF_LEN)
    {
      globalCounter := globalCounter + 1;
      chans := ChannelsTick(globalCounter, chans, io[NR43]);
      if globalCounter % SAMPLE_RATE == 0 {
        Sample();
      }
    }

    /** The four channel samples, each 0 while its channel is off. */
    function Samples(): (s: (bv8, bv8, bv8, bv8))
      requires Valid()
      reads this, io
      ensures s.0 < 16 && s.1 < 16 && s.2 < 16 && s.3 < 16
    {
      (if status.on1 then PulseSample(io[NR11], chans.ch1.index, envs.ch1.volume as bv8) else 0,
       if status.on2 then PulseSample(io[NR21], chans.ch2.index, envs.ch2.volume as bv8) else 0,
       if status.on3 then WaveSample(WaveRam(), chans.ch3.index, io[NR32]) else 0,
       if status.on4 then NoiseSample(chans.ch4.lfsr, envs.ch4.volume as bv8) else 0)
    }

    /** One output sample: the channel samples go into PCM12/PCM34 and the
        buffer index moves two slots, wrapping at the end of the buffer
        and marking it full. */
    method Sample()
      requires Valid()
      modifies this`sampleInd, this`samplesFull, io
      ensures Valid()
      ensures var s := old(Samples());
              io[..] == old(io[..])[PCM12 := Mix(s.0, s.1)][PCM34 := Mix(s.2, s.3)]
      ensures sampleInd == (old(sampleInd) + 2) % SAMPLE_BUF_LEN
      ensures samplesFull == (old(samplesFull) || old(sampleInd) + 2 == SAMPLE_BUF_LEN)
    {
      var s := Samples();
      io[PCM12] := Mix(s.0, s.1);
      io[PCM34] := Mix(s.2, s.3);
      sampleInd := sampleInd + 2;
      if sampleInd == SAMPLE_BUF_LEN {
        samplesFull := true;
        sampleInd := 0;
      }
    }

    /** The frame-sequencer part of `apu_clock`. */
    method Sequence()
      requires Valid()
      modifies this`apuDiv, this`status, this`sweep, this`chans, this`envs
      ensures Valid()
      ensures Seq() == SequencerTick(old(Seq()), io[..])
      ensures chans == old(chans).(ch1 := old(chans.ch1).(wavelen := chans.ch1.wavelen))
    {
      var q := SequencerTick(Seq(), io[..]);
      apuDiv, status, sweep, envs := q.div, q.status, q.sweep, q.envs;
      chans := chans.(ch1 := chans.ch1.(wavelen := q.wavelen));
    }
  }

  /** The number of divider values between frame-sequencer steps:
      APU_DIV_RATE, doubled when bit 7 of KEY1 selects double speed. */
  function SequencerRate(key1: bv8): (r: nat)
    ensures r > 0
    ensures key1 & 0x80 != 0 <==> r == 2 * APU_DIV_RATE
    ensures r == APU_DIV_RATE || r == 2 * APU_DIV_RATE
  {
    if key1 & 0x80 != 0 then 2 * APU_DIV_RATE else APU_DIV_RATE
  }

  /** Two 4-bit samples in one register byte, the second in the high
      nibble. */
  function Mix(low: bv8, high: bv8): (r: bv8)
    ensures low < 16 && high < 16 ==> r & 0x0F == low && r >> 4 == high
  {
    low | (high << 4)
  }
}
