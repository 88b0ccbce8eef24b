/** The system bus of src/gb.c: the address map that `read8`/`write8`
    decode, the register write masks, the divider and timer, the STAT
    interrupt line, the joypad register, OAM DMA and the per-dot order in
    which `tick_gb` clocks the components. The cartridge, picture unit and
    sound unit are the models of their own modules; the picture and sound
    units share the bus's I/O register file. */
module GbBus {
  import opened Bytes
  import opened Cartridge
  import Ppu
  import Apu

  const VRAM_BANK_SIZE: nat := 0x2000
  const WRAM_BANK_SIZE: nat := 0x1000
  const OAM_SIZE: nat := 0xA0
  const IO_SIZE: nat := 0x80
  const HRAM_SIZE: nat := 0x7F

  /** Offsets in the I/O register file. */
  const JOYP: nat := 0x00
  const DIV: nat := 0x04
  const TIMA: nat := 0x05
  const TMA: nat := 0x06
  const TAC: nat := 0x07
  const IF: nat := 0x0F
  const NR13: nat := 0x13
  const NR14: nat := 0x14
  const LCDC: nat := 0x40
  const STAT: nat := 0x41
  const SCY: nat := 0x42
  const SCX: nat := 0x43
  const LY: nat := 0x44
  const LYC: nat := 0x45
  const DMA: nat := 0x46
  const BGP: nat := 0x47
  const OBP0: nat := 0x48
  const OBP1: nat := 0x49
  const WY: nat := 0x4A
  const WX: nat := 0x4B

  /** Registers a write stores unchanged. */
  const PLAIN_REGS: set<nat> := {TIMA, TMA, LCDC, SCY, SCX, LYC, DMA, BGP, OBP0, OBP1, WY, WX}

  const I_STAT: bv8 := 0x02
  const I_TIMER: bv8 := 0x04
  const I_JOYPAD: bv8 := 0x10
  const JP_DIR: bv8 := 0x10
  const JP_ACT: bv8 := 0x20

  const LCDC_ENABLE: bv8 := 0x80
  const STAT_MODE: bv8 := 0x03
  const STAT_LYCEQ: bv8 := 0x04
  const STAT_I_HBLANK: bv8 := 0x08
  const STAT_I_VBLANK: bv8 := 0x10
  const STAT_I_OAM: bv8 := 0x20
  const STAT_I_LYCEQ: bv8 := 0x40

  const NRX4_WVLEN_HI: bv8 := 0x07
  const NRX4_TRIGGER: bv8 := 0x80
  const NRX4_LEN_ENABLE: bv8 := 0x40

  // ------------------------------------------------------- register writes

  /** The value I/O register `reg` holds after a CPU write of `data`, given
      its value `cur` before: JOYP takes only the select bits 4-5, TAC three
      bits, IF five bits, STAT bits 3-6 (bit 7 reads back 0), NR14 only its
      length-enable bit; the registers of PLAIN_REGS are stored as written;
      every other register (DIV, LY, the sound registers but NR14, the
      colour-model registers) keeps its value. */
  function IoWrite(reg: nat, data: bv8, cur: bv8): (r: bv8)
    ensures reg == JOYP ==> r & 0x30 == data & 0x30 && r & 0xCF == cur & 0xCF
    ensures reg == TAC ==> r < 8 && r & 0x07 == data & 0x07
    ensures reg == IF ==> r < 0x20 && r & 0x1F == data & 0x1F
    ensures reg == STAT ==> r & 0x07 == cur & 0x07 && r & 0xF8 == data & 0x78
    ensures reg == NR14 ==> r == data & NRX4_LEN_ENABLE
    ensures reg in PLAIN_REGS ==> r == data
    ensures reg !in PLAIN_REGS && reg !in {JOYP, TAC, IF, STAT, NR14} ==> r == cur
  {
    if reg == JOYP then (cur & 0xCF) | (data & 0x30)
    else if reg == TAC then data & 0x07
    else if reg == IF then data & 0x1F
    else if reg == NR14 then data & NRX4_LEN_ENABLE
    else if reg == STAT then (cur & 0x07) | (data & 0x78)
    else if reg in PLAIN_REGS then data
    else cur
  }

  /** The effect of a write to NR13 or NR14 on channel 1's period counter:
      NR13 replaces the low byte of the 11-bit wavelength, NR14 its top three
      bits, and an NR14 write with the trigger bit reloads the counter from
      the wavelength and restarts the waveform. */
  function Ch1Write(reg: nat, data: bv8, p: Apu.Period): (r: Apu.Period)
    requires p.wavelen < 0x10000
    ensures r.wavelen < 0x10000 && (r.counter == p.counter || r.counter == r.wavelen)
    ensures reg == NR13 ==> r.wavelen % 256 == data as nat && r.wavelen / 256 == p.wavelen / 256
    ensures reg == NR14 ==> r.wavelen % 256 == p.wavelen % 256 && r.wavelen / 256 == (data & NRX4_WVLEN_HI) as nat
    ensures reg == NR14 && data & NRX4_TRIGGER != 0 ==> r.counter == r.wavelen && r.index == 0
    ensures reg != NR13 && reg != NR14 ==> r == p
  {
    if reg == NR13 then Nr13Write(data, p)
    else if reg == NR14 then Nr14Write(data, p)
    else p
  }

  /** NR13: `(wavelen & 0xff00) | data`. */
  function Nr13Write(data: bv8, p: Apu.Period): (r: Apu.Period)
    requires p.wavelen < 0x10000
    ensures r.wavelen < 0x10000 && r.counter == p.counter && r.index == p.index
    ensures r.wavelen % 256 == data as nat && r.wavelen / 256 == p.wavelen / 256
  {
    var w := (p.wavelen / 256) * 256 + data as nat;
    DivModUnique(w, 256, p.wavelen / 256, data as nat);
    p.(wavelen := w)
  }

  /** NR14: `(wavelen & 0x00ff) | ((data & 7) << 8)`, and the trigger. */
  function Nr14Write(data: bv8, p: Apu.Period): (r: Apu.Period)
    ensures r.wavelen < 0x10000 && (r.counter == p.counter || r.counter == r.wavelen)
    ensures r.wavelen % 256 == p.wavelen % 256 && r.wavelen / 256 == (data & NRX4_WVLEN_HI) as nat
    ensures data & NRX4_TRIGGER != 0 ==> r.counter == r.wavelen && r.index == 0
  {
    var w := p.wavelen % 256 + (data & NRX4_WVLEN_HI) as nat * 256;
    DivModUnique(w, 256, (data & NRX4_WVLEN_HI) as nat, p.wavelen % 256);
    if data & NRX4_TRIGGER != 0 then Apu.Period(w, w, 0) else p.(wavelen := w)
  }

  /** Writing the low byte to NR13 and then the high bits to NR14 sets the
      wavelength to the 11-bit value they form, whatever it was before. */
  lemma Ch1WavelengthWrites(p: Apu.Period, lo: bv8, hi: bv8)
    requires p.wavelen < 0x10000
    ensures Ch1Write(NR14, hi, Ch1Write(NR13, lo, p)).wavelen == (hi & NRX4_WVLEN_HI) as nat * 256 + lo as nat
  {
    var q := Ch1Write(NR13, lo, p);
    var r := Ch1Write(NR14, hi, q);
    DivModUnique(r.wavelen, 256, r.wavelen / 256, r.wavelen % 256);
  }

  /** The two bytes `write16` stores make up the word again. */
  lemma WordOfBytes(data: nat, lo: bv8, hi: bv8)
    requires data < 0x10000 && lo == (data % 256) as bv8 && hi == (data / 256) as bv8
    ensures lo as nat + 256 * hi as nat == data
  {
    IntToByte(data % 256);
    IntToByte(data / 256);
  }

  // ------------------------------------------------------------ the timer

  /** `freq[]`: dots per TIMA increment for each TAC clock select. */
  const FREQ: seq<nat> := [1024, 16, 64, 256]

  /** The divider bit whose falling edge clocks TIMA, per clock select. */
  const FREQ_BIT: seq<nat> := [9, 3, 5, 7]

  lemma FreqBit(sel: nat)
    requires sel < 4
    ensures FREQ[sel] / 2 == Pow2(FREQ_BIT[sel]) && FREQ[sel] == 2 * Pow2(FREQ_BIT[sel])
  {
  }

  /** The timer's input: enabled by TAC bit 2 and the divider bit that the
      clock select picks. */
  predicate TimerInput(div: nat, tac: bv8) {
    tac & 0x04 != 0 && BitAnd(div, FREQ[(tac & 0x03) as int] / 2) != 0
  }

  /** The state `clock_timers` works on. */
  datatype Timer = Timer(div: nat, tima: bv8, tma: bv8, tac: bv8, iflag: bv8, prevInc: bool, overflow: bool)

  /** One dot of `clock_timers`: the divider counts up as a `u16`; an
      overflow left by the previous dot requests the timer interrupt and
      reloads TIMA from TMA; a falling edge of the timer input increments
      TIMA, and wrapping it to 0 leaves an overflow for the next dot. */
  function TimerTick(t: Timer): (r: Timer)
    ensures r.div < 0x10000 && r.tma == t.tma && r.tac == t.tac
  {
    var div := (t.div + 1) % 0x10000;
    var iflag := if t.overflow then t.iflag | I_TIMER else t.iflag;
    var tima := if t.overflow then t.tma else t.tima;
    var inc := TimerInput(div, t.tac);
    var tima' := if !inc && t.prevInc then tima + 1 else tima;
    Timer(div, tima', t.tma, t.tac, iflag, inc, !inc && t.prevInc && tima' == 0)
  }

  /** TimerTick assembled from the values `clock_timers` computes one after
      the other. */
  lemma TimerTickIs(t: Timer, iflag: bv8, tima: bv8, inc: bool, tima': bv8, overflow: bool)
    requires iflag == (if t.overflow then t.iflag | I_TIMER else t.iflag)
    requires tima == (if t.overflow then t.tma else t.tima)
    requires inc == TimerInput((t.div + 1) % 0x10000, t.tac)
    requires tima' == (if !inc && t.prevInc then tima + 1 else tima)
    requires overflow == (!inc && t.prevInc && tima' == 0)
    ensures var r := TimerTick(t);
            r.div == (t.div + 1) % 0x10000 && r.tima == tima' && r.iflag == iflag && r.prevInc == inc &&
            r.overflow == overflow
  {
  }

  /** Bit `h` of a remainder modulo `2h` is bit `h` of the number. */
  lemma BitOfRemainder(x: nat, h: nat)
    requires h >= 1
    ensures (x / h) % 2 == (x % (2 * h)) / h
    ensures (x % (2 * h)) / h < 2
  {
    var m := 2 * h;
    var q, r := x / m, x % m;
    if r < h {
      DivModUnique(r, h, 0, r);
    } else {
      DivModUnique(r, h, 1, r - h);
    }
    var b, s := r / h, r % h;
    assert x == m * q + r;
    assert x == h * (2 * q + b) + s;
    DivModUnique(x, h, 2 * q + b, s);
    DivModUnique(2 * q + b, 2, q, b);
  }

  /** Bit `h` of the divider falls on a dot exactly when the incremented
      divider is a multiple of `2h`. */
  lemma FallingEdge(x: nat, h: nat)
    requires x < 0x10000 && h >= 1 && 0x10000 % (2 * h) == 0
    ensures ((x / h) % 2 == 1 && (((x + 1) % 0x10000) / h) % 2 == 0) <==> ((x + 1) % 0x10000) % (2 * h) == 0
  {
    var m := 2 * h;
    var y := (x + 1) % 0x10000;
    BitOfRemainder(x, h);
    BitOfRemainder(y, h);
    NextRemainder(x, m);
    EdgeOfRemainder(x % m, y % m, h);
  }

  /** One step of the 16-bit divider moves its remainder modulo a divisor
      of 0x10000 up by one, wrapping to 0 after `m - 1`. */
  lemma NextRemainder(x: nat, m: nat)
    requires x < 0x10000 && m >= 1 && 0x10000 % m == 0
    ensures var r, s := x % m, ((x + 1) % 0x10000) % m;
            s == r + 1 || (r == m - 1 && s == 0)
  {
    var y := (x + 1) % 0x10000;
    var q, r := x / m, x % m;
    if x == 0xFFFF {
      assert y == 0;
      WrapRemainder(m);
      DivModUnique(y, m, 0, 0);
    } else {
      assert y == x + 1 && x == m * q + r;
      if r == m - 1 {
        DivModUnique(y, m, q + 1, 0);
      } else {
        DivModUnique(y, m, q, r + 1);
      }
    }
  }

  /** The last 16-bit value sits just below a multiple of any divisor of 0x10000. */
  lemma WrapRemainder(m: nat)
    requires m >= 1 && 0x10000 % m == 0
    ensures 0xFFFF % m == m - 1
  {
    var n := 0x10000 / m;
    assert 0xFFFF == m * (n - 1) + (m - 1);
    DivModUnique(0xFFFF, m, n - 1, m - 1);
  }

  /** The step from remainder `r` to `s` modulo `2h` clears bit `h` exactly
      when it wraps to 0. */
  lemma EdgeOfRemainder(r: nat, s: nat, h: nat)
    requires h >= 1 && r < 2 * h && s < 2 * h
    requires s == r + 1 || (r == 2 * h - 1 && s == 0)
    ensures (r / h == 1 && s / h == 0) <==> s == 0
  {
    if s == 0 {
      DivModUnique(r, h, 1, h - 1);
      DivModUnique(s, h, 0, 0);
    } else if r >= h {
      DivModUnique(s, h, 1, s - h);
    } else {
      DivModUnique(r, h, 0, r);
    }
  }

  /** TIMA counts once every FREQ dots of the selected clock: while the
      stored input is the input of the current divider, TIMA moves on this
      dot exactly when the timer is enabled and the new divider is a multiple
      of the selected period. */
  lemma TimerPeriod(t: Timer)
    requires t.div < 0x10000 && t.prevInc == TimerInput(t.div, t.tac)
    ensures var base := if t.overflow then t.tma else t.tima;
            TimerTick(t).tima != base <==>
              t.tac & 0x04 != 0 && TimerTick(t).div % FREQ[(t.tac & 0x03) as int] == 0
  {
    var sel := (t.tac & 0x03) as int;
    var k := FREQ_BIT[sel];
    FreqBit(sel);
    var y := (t.div + 1) % 0x10000;
    AndSingleBit(t.div, k);
    AndSingleBit(y, k);
    FallingEdge(t.div, Pow2(k));
  }

  /** An overflow shows as TIMA == 0 for one dot; on the next dot the timer
      interrupt is requested and TIMA is reloaded from TMA (and counted once
      more if that dot is itself a falling edge). */
  lemma OverflowReloads(t: Timer)
    requires TimerTick(t).overflow
    ensures TimerTick(t).tima == 0
    ensures var u := TimerTick(TimerTick(t));
            u.iflag & I_TIMER != 0 && (u.tima == t.tma || u.tima == t.tma + 1)
  {
  }

  // ------------------------------------------------------ the STAT line

  /** The level of the STAT interrupt line: a source whose condition holds
      and whose enable bit is set. */
  predicate StatLine(stat: bv8) {
    (stat & STAT_LYCEQ != 0 && stat & STAT_I_LYCEQ != 0) ||
    (stat & STAT_MODE == 0 && stat & STAT_I_HBLANK != 0) ||
    (stat & STAT_MODE == 1 && stat & STAT_I_VBLANK != 0) ||
    (stat & STAT_MODE == 2 && stat & STAT_I_OAM != 0)
  }

  /** `check_stat_irq` on LY, LYC, STAT, IF and the previous line level:
      the coincidence flag is recomputed, and the STAT interrupt is
      requested only on a rising edge of the line. The result is the new
      STAT, the new IF and the new line level. */
  function StatCheck(ly: bv8, lyc: bv8, stat: bv8, iflag: bv8, prev: bool): (r: (bv8, bv8, bool))
    ensures r.0 & STAT_LYCEQ != 0 <==> lyc == ly
    ensures r.0 & !STAT_LYCEQ == stat & !STAT_LYCEQ
    ensures r.2 == StatLine(r.0)
    ensures r.1 != iflag ==> r.2 && !prev && r.1 == iflag | I_STAT
    ensures r.2 && !prev ==> r.1 & I_STAT != 0
  {
    var stat' := if lyc == ly then stat | STAT_LYCEQ else stat & !STAT_LYCEQ;
    var line := StatLine(stat');
    (stat', if line && !prev then iflag | I_STAT else iflag, line)
  }

  /** A line that stays high requests nothing more: a second check right
      after the first changes nothing. */
  lemma StatCheckSettles(ly: bv8, lyc: bv8, stat: bv8, iflag: bv8, prev: bool)
    ensures var r := StatCheck(ly, lyc, stat, iflag, prev); StatCheck(ly, lyc, r.0, r.1, r.2) == r
  {
  }

  // ----------------------------------------------------------- the joypad

  /** The low nibble of JOYP: a button reads 0 while it is pressed and its
      group (directions with bit 4 clear, actions with bit 5 clear) is
      selected. */
  function JoypNibble(joyp: bv8, dir: bv8, act: bv8): bv8 {
    var buttons := 0xF0 | (if joyp & JP_DIR == 0 then dir else 0) | (if joyp & JP_ACT == 0 then act else 0);
    !buttons
  }

  /** `update_joyp` on JOYP and IF: JOYP's low nibble is recomputed, and
      the joypad interrupt is requested when it drops in value. The result
      is the new JOYP and the new IF. */
  function JoypUpdate(joyp: bv8, iflag: bv8, dir: bv8, act: bv8): (r: (bv8, bv8))
    ensures r.0 & 0xF0 == joyp & 0xF0
    ensures r.0 & 0x0F == JoypNibble(joyp, dir, act)
    ensures r.1 != iflag ==> r.1 == iflag | I_JOYPAD && r.0 & 0x0F < joyp & 0x0F
    ensures r.0 & 0x0F < joyp & 0x0F ==> r.1 & I_JOYPAD != 0
  {
    var buttons := JoypNibble(joyp, dir, act);
    ((joyp & 0xF0) | buttons, if buttons < joyp & 0x0F then iflag | I_JOYPAD else iflag)
  }

  /** Button `i` of the selected groups reads 0 exactly when it is pressed
      in a selected group; the upper nibble of the computed value is 0. */
  lemma JoypadButtons(joyp: bv8, dir: bv8, act: bv8, i: bv8)
    requires i < 4
    ensures JoypNibble(joyp, dir, act) & 0xF0 == 0
    ensures JoypNibble(joyp, dir, act) & (1 << i) == 0 <==>
              (joyp & JP_DIR == 0 && dir & (1 << i) != 0) || (joyp & JP_ACT == 0 && act & (1 << i) != 0)
  {
  }

  // --------------------------------------------------------------- OAM DMA

  /** The transfer state: whether it runs, the next OAM index and the dots
      left until the next byte. */
  datatype Dma = Dma(active: bool, index: nat, cycles: nat)
  {
    predicate Valid() {
      index <= OAM_SIZE && cycles < 4
    }
  }

  /** `run_dma`'s bookkeeping on one dot of an active transfer: with no dots
      left it either ends (after the last byte) or copies a byte and waits
      four dots; otherwise it counts a dot down. */
  function DmaTick(d: Dma): (r: Dma)
    requires d.Valid()
    ensures r.Valid()
  {
    if !d.active then d
    else if d.cycles == 0 then
      if d.index == OAM_SIZE then d.(active := false) else Dma(true, d.index + 1, 3)
    else d.(cycles := d.cycles - 1)
  }

  function DmaTicks(d: Dma, n: nat): (r: Dma)
    requires d.Valid()
    ensures r.Valid()
  {
    if n == 0 then d else DmaTick(DmaTicks(d, n - 1))
  }

  lemma {:induction false} DmaTicksSplit(d: Dma, m: nat, n: nat)
    requires d.Valid()
    ensures DmaTicks(d, m + n) == DmaTicks(DmaTicks(d, m), n)
  {
    if n > 0 {
      DmaTicksSplit(d, m, n - 1);
    }
  }

  /** A transfer started with index 0 copies one byte every four dots: after
      `4k` dots (k <= 160) it has copied k bytes, and it stops on dot 641. */
  lemma {:induction false} DmaCopiesEveryFourDots(k: nat)
    requires k <= OAM_SIZE
    ensures DmaTicks(Dma(true, 0, 0), 4 * k) == Dma(true, k, 0)
  {
    if k > 0 {
      DmaCopiesEveryFourDots(k - 1);
      DmaTicksSplit(Dma(true, 0, 0), 4 * (k - 1), 4);
      DmaFourTicks(k - 1);
    }
  }

  /** Four dots of a transfer at a byte boundary copy one byte. */
  lemma DmaFourTicks(i: nat)
    requires i < OAM_SIZE
    ensures DmaTicks(Dma(true, i, 0), 4) == Dma(true, i + 1, 0)
  {
    var d := Dma(true, i, 0);
    assert DmaTicks(d, 1) == Dma(true, i + 1, 3);
    assert DmaTicks(d, 2) == Dma(true, i + 1, 2);
    assert DmaTicks(d, 3) == Dma(true, i + 1, 1);
  }

  lemma DmaEnds()
    ensures DmaTicks(Dma(true, 0, 0), 4 * OAM_SIZE) == Dma(true, OAM_SIZE, 0)
    ensures DmaTicks(Dma(true, 0, 0), 4 * OAM_SIZE + 1) == Dma(false, OAM_SIZE, 0)
  {
    DmaCopiesEveryFourDots(OAM_SIZE);
  }

  // -------------------------------------------------------------- the bus

  /** The cartridge window an address below 0x8000 or in 0xA000-0xBFFF
      decodes to, and the offset inside it (the masks `& 0x3fff` and
      `& 0x1fff` written as remainders). */
  function CartRegion(addr: nat): Region {
    if addr < 0x4000 then Rom0 else if addr < 0x8000 then Rom1 else Ram
  }

  function CartOffset(addr: nat): nat {
    if addr < 0x4000 then addr else if addr < 0x8000 then addr % 0x4000 else addr % 0x2000
  }

  /** The processor's cycle counter, which every bus access advances by one
      m-cycle (four dots). */
  class CpuClock {
    var cycles: int

    constructor ()
      ensures cycles == 0
    {
      cycles := 0;
    }
  }

  /** The Game Boy: its memories, I/O registers, timer, joypad and DMA
      state, the cartridge (none when the slot is empty) and the picture
      and sound units, which share the I/O register file. */
  class GameBoy {
    const vram: array<bv8>
    const wram0: array<bv8>
    const wram1: array<bv8>
    const oam: array<bv8>
    const io: array<bv8>
    const hram: array<bv8>
    const cart: Cart?
    const ppu: Ppu.Unit
    const apu: Apu.Unit
    var ie: bv8
    var div: nat
    var prevTimerInc: bool
    var timerOverflow: bool
    var prevStatInt: bool
    var jpDir: bv8
    var jpAction: bv8
    var dmaActive: bool
    var dmaIndex: nat
    var dmaCycles: nat
    const cpu: CpuClock

    ghost function CartRepr(): set<object>
      reads this, cart
    {
      if cart == null then {} else {cart, cart.ram}
    }

    ghost function Repr(): set<object>
      reads this, cart
    {
      {this, vram, wram0, wram1, oam, io, hram, ppu, apu} + CartRepr()
    }

    ghost predicate Valid()
      reads this, cart, ppu, apu, io
    {
      vram.Length == VRAM_BANK_SIZE && wram0.Length == WRAM_BANK_SIZE && wram1.Length == WRAM_BANK_SIZE &&
      oam.Length == OAM_SIZE && io.Length == IO_SIZE && hram.Length == HRAM_SIZE && wram0 != wram1 &&
      {vram, wram0, wram1} !! {oam, io, hram} && oam != io && oam != hram && io != hram &&
      ppu.io == io && apu.io == io && ppu.Valid() && apu.Valid() &&
      (cart != null ==> cart.Valid() && cart.ram !in {vram, wram0, wram1, oam, io, hram}) &&
      div < 0x10000 && Dma(dmaActive, dmaIndex, dmaCycles).Valid()
    }

    /** A powered-on machine: zeroed memories and registers, the picture
        unit at the start of a frame and the sound unit reset. */
    constructor (cart: Cart?)
      requires cart != null ==> cart.Valid()
      ensures Valid() && this.cart == cart && cpu.cycles == 0 && !dmaActive
      ensures fresh(vram) && fresh(wram0) && fresh(wram1) && fresh(oam) && fresh(io) && fresh(hram)
    {
      var io := new bv8[IO_SIZE](_ => 0);
      this.vram := new bv8[VRAM_BANK_SIZE](_ => 0);
      this.wram0 := new bv8[WRAM_BANK_SIZE](_ => 0);
      this.wram1 := new bv8[WRAM_BANK_SIZE](_ => 0);
      this.oam := new bv8[OAM_SIZE](_ => 0);
      this.hram := new bv8[HRAM_SIZE](_ => 0);
      this.io := io;
      this.cart := cart;
      this.ppu := new Ppu.Unit(io);
      this.apu := new Apu.Unit(io);
      ie, div, prevTimerInc, timerOverflow, prevStatInt := 0, 0, false, false, false;
      jpDir, jpAction, dmaActive, dmaIndex, dmaCycles := 0, 0, false, 0, 0;
      this.cpu := new CpuClock();
    }

    /** VRAM is open to the CPU unless the LCD is on in mode 3. */
    predicate VramOpen()
      requires io.Length == IO_SIZE
      reads this, io
    {
      io[LCDC] & LCDC_ENABLE == 0 || io[STAT] & STAT_MODE != 3
    }

    /** OAM is open to the CPU unless the LCD is on in mode 2 or 3. */
    predicate OamOpen()
      requires io.Length == IO_SIZE
      reads this, io
    {
      io[LCDC] & LCDC_ENABLE == 0 || io[STAT] & STAT_MODE < 2
    }

    /** The byte the CPU reads at `addr`. The masks `& 0x3fff`, `& 0x1fff`
        and `& 0x0fff` of the address decoding are written as remainders
        (Bytes.AndLowMask shows they agree). */
    function Peek(addr: nat): bv8
      requires Valid() && addr < 0x10000
      reads this, cart, vram, wram0, wram1, oam, io, hram, ppu, apu, if cart == null then {} else {cart.ram}
    {
      if dmaActive && addr < 0xFF00 then 0xFF
      else if addr < 0x4000 then ReadCart(cart, addr, Rom0)
      else if addr < 0x8000 then ReadCart(cart, addr % 0x4000, Rom1)
      else if addr < 0xA000 then (if VramOpen() then vram[addr % 0x2000] else 0xFF)
      else if addr < 0xC000 then ReadCart(cart, addr % 0x2000, Ram)
      else if addr < 0xD000 then wram0[addr % 0x1000]
      else if addr < 0xE000 then wram1[addr % 0x1000]
      else if addr < 0xFE00 then wram0[addr % 0x1000]
      else if addr < 0xFEA0 then (if OamOpen() then oam[addr - 0xFE00] else 0xFF)
      else if addr < 0xFF00 then 0xFF
      else if addr < 0xFF4D then (if addr % 0x100 == DIV then (div / 256) as bv8 else io[addr % 0x100])
      else if addr < 0xFF80 then 0xFF
      else if addr < 0xFFFF then hram[addr - 0xFF80]
      else ie
    }

    /** The word at `addr`, low byte first, the high byte at `addr + 1`
        wrapping as a `u16`. */
    function PeekWord(addr: nat): nat
      requires Valid() && addr < 0x10000
      reads this, cart, vram, wram0, wram1, oam, io, hram, ppu, apu, if cart == null then {} else {cart.ram}
    {
      Peek(addr) as nat + 256 * Peek((addr + 1) % 0x10000) as nat
    }

    /** `read8`: one m-cycle and the decoded byte. */
    method Read8(addr: nat) returns (r: bv8)
      requires Valid() && addr < 0x10000
      modifies cpu`cycles
      ensures cpu.cycles == old(cpu.cycles) + 4
      ensures r == Peek(addr)
    {
      cpu.cycles := cpu.cycles + 4;
      if dmaActive && addr < 0xFF00 {
        return 0xFF;
      }
      if addr < 0x4000 {
        r := ReadCart(cart, addr, Rom0);
      } else if addr < 0x8000 {
        r := ReadCart(cart, addr % 0x4000, Rom1);
      } else if addr < 0xA000 {
        r := if VramOpen() then vram[addr % 0x2000] else 0xFF;
      } else if addr < 0xC000 {
        r := ReadCart(cart, addr % 0x2000, Ram);
      } else if addr < 0xD000 {
        r := wram0[addr % 0x1000];
      } else if addr < 0xE000 {
        r := wram1[addr % 0x1000];
      } else if addr < 0xFE00 {
        r := wram0[addr % 0x1000];
      } else if addr < 0xFEA0 {
        r := if OamOpen() then oam[addr - 0xFE00] else 0xFF;
      } else if addr < 0xFF00 {
        r := 0xFF;
      } else if addr < 0xFF4D {
        r := if addr % 0x100 == DIV then (div / 256) as bv8 else io[addr % 0x100];
      } else if addr < 0xFF80 {
        r := 0xFF;
      } else if addr < 0xFFFF {
        r := hram[addr - 0xFF80];
      } else {
        r := ie;
      }
    }

    /** `read16`: two reads, low byte first. */
    method Read16(addr: nat) returns (r: nat)
      requires Valid() && addr < 0x10000
      modifies cpu`cycles
      ensures cpu.cycles == old(cpu.cycles) + 8
      ensures r == PeekWord(addr)
    {
      var lo := Read8(addr);
      var hi := Read8((addr + 1) % 0x10000);
      assert lo == Peek(addr);
      r := lo as nat + 256 * hi as nat;
    }

    /** `write8`: one m-cycle; a write during DMA below 0xFF00 is dropped;
        otherwise the region the address decodes to takes the byte. */
    method Write8(addr: nat, data: bv8)
      requires Valid() && addr < 0x10000
      modifies cpu`cycles, this`ie, this`div, this`dmaActive, this`dmaIndex
      modifies vram, wram0, wram1, oam, io, hram, apu`chans, cart, CartRepr()
      ensures Valid()
      ensures cpu.cycles == old(cpu.cycles) + 4
      ensures old(dmaActive) && addr < 0xFF00 ==>
                unchanged(vram, wram0, wram1, oam, io, hram) && unchanged(CartRepr()) &&
                div == old(div) && dmaActive && dmaIndex == old(dmaIndex) && apu.chans == old(apu.chans)
      ensures addr != 0xFFFF ==> ie == old(ie)
      ensures !(0x8000 <= addr < 0xA000) ==> unchanged(vram)
      ensures !(0xC000 <= addr < 0xFE00) ==> unchanged(wram0, wram1)
      ensures !(0xFE00 <= addr < 0xFEA0) ==> unchanged(oam)
      ensures !(0xFF00 <= addr < 0xFF80) ==>
                unchanged(io) && div == old(div) && dmaActive == old(dmaActive) && dmaIndex == old(dmaIndex) &&
                apu.chans == old(apu.chans)
      ensures !(0xFF80 <= addr < 0xFFFF) ==> unchanged(hram)
      ensures !(addr < 0x8000 || 0xA000 <= addr < 0xC000) ==> unchanged(CartRepr())
      ensures !old(dmaActive) && 0x8000 <= addr < 0xA000 ==>
                vram[..] == if old(VramOpen()) then old(vram[..])[addr % 0x2000 := data] else old(vram[..])
      ensures !old(dmaActive) && 0xFE00 <= addr < 0xFEA0 ==>
                oam[..] == if old(OamOpen()) then old(oam[..])[addr - 0xFE00 := data] else old(oam[..])
      ensures !old(dmaActive) && cart != null && (addr < 0x8000 || 0xA000 <= addr < 0xC000) ==>
                cart.Registers() == MappersWrite(cart.mapper, old(cart.Registers()), CartOffset(addr), CartRegion(addr), data)
      ensures !old(dmaActive) && cart != null && 0xA000 <= addr < 0xC000 ==>
                cart.ram[..] == if old(cart.RamSlot(addr % 0x2000)).Some? then
                                  old(cart.ram[..])[old(cart.RamSlot(addr % 0x2000)).value := data]
                                else old(cart.ram[..])
      ensures !old(dmaActive) && 0xC000 <= addr < 0xFE00 ==>
                if 0xD000 <= addr < 0xE000 then
                  wram1[..] == old(wram1[..])[addr % 0x1000 := data] && wram0[..] == old(wram0[..])
                else
                  wram0[..] == old(wram0[..])[addr % 0x1000 := data] && wram1[..] == old(wram1[..])
      ensures 0xFF80 <= addr < 0xFFFF ==> hram[..] == old(hram[..])[addr - 0xFF80 := data]
      ensures !old(dmaActive) && (0xC000 <= addr < 0xFE00 || 0xFF80 <= addr < 0xFFFF) ==> Peek(addr) == data
      ensures !old(dmaActive) && 0x8000 <= addr < 0xA000 && old(VramOpen()) ==> Peek(addr) == data
      ensures !old(dmaActive) && 0xFE00 <= addr < 0xFEA0 && old(OamOpen()) ==> Peek(addr) == data
      ensures !old(dmaActive) && 0xA000 <= addr < 0xC000 && cart != null ==>
                Peek(addr) == if old(cart.RamSlot(addr % 0x2000)).Some? then data else 0xFF
      ensures addr < 0x8000 && cart != null ==> cart.ram[..] == old(cart.ram[..])
      ensures 0xFF00 <= addr < 0xFF80 ==>
                io[addr - 0xFF00] == IoWrite(addr - 0xFF00, data, old(io[addr - 0xFF00])) &&
                (forall i | 0 <= i < IO_SIZE && i != addr - 0xFF00 :: io[i] == old(io[i])) &&
                div == (if addr == 0xFF00 + DIV then 0 else old(div)) &&
                dmaActive == (old(dmaActive) || addr == 0xFF00 + DMA) &&
                dmaIndex == (if addr == 0xFF00 + DMA then 0 else old(dmaIndex)) &&
                apu.chans == old(apu.chans).(ch1 := Ch1Write(addr - 0xFF00, data, old(apu.chans.ch1)))
      ensures addr == 0xFFFF ==> ie == data & 0x1F
    {
      cpu.cycles := cpu.cycles + 4;
      if dmaActive && addr < 0xFF00 {
        return;
      }
      Store(addr, data);
    }

    /** A write that is not dropped: the region the address decodes to
        takes the byte and every other region keeps its contents. */
    method Store(addr: nat, data: bv8)
      requires Valid() && addr < 0x10000 && (!dmaActive || addr >= 0xFF00)
      modifies this`ie, this`div, this`dmaActive, this`dmaIndex
      modifies vram, wram0, wram1, oam, io, hram, apu`chans, cart, CartRepr()
      ensures Valid()
      ensures addr != 0xFFFF ==> ie == old(ie)
      ensures !(0x8000 <= addr < 0xA000) ==> unchanged(vram)
      ensures !(0xC000 <= addr < 0xFE00) ==> unchanged(wram0, wram1)
      ensures !(0xFE00 <= addr < 0xFEA0) ==> unchanged(oam)
      ensures !(0xFF00 <= addr < 0xFF80) ==>
                unchanged(io) && div == old(div) && dmaActive == old(dmaActive) && dmaIndex == old(dmaIndex) &&
                apu.chans == old(apu.chans)
      ensures !(0xFF80 <= addr < 0xFFFF) ==> unchanged(hram)
      ensures !(addr < 0x8000 || 0xA000 <= addr < 0xC000) ==> unchanged(CartRepr())
      ensures 0x8000 <= addr < 0xA000 ==>
                vram[..] == if old(VramOpen()) then old(vram[..])[addr % 0x2000 := data] else old(vram[..])
      ensures 0xFE00 <= addr < 0xFEA0 ==>
                oam[..] == if old(OamOpen()) then old(oam[..])[addr - 0xFE00 := data] else old(oam[..])
      ensures cart != null && (addr < 0x8000 || 0xA000 <= addr < 0xC000) ==>
                cart.Registers() == MappersWrite(cart.mapper, old(cart.Registers()), CartOffset(addr), CartRegion(addr), data)
      ensures cart != null && 0xA000 <= addr < 0xC000 ==>
                cart.ram[..] == if old(cart.RamSlot(addr % 0x2000)).Some? then
                                  old(cart.ram[..])[old(cart.RamSlot(addr % 0x2000)).value := data]
                                else old(cart.ram[..])
      ensures 0xC000 <= addr < 0xFE00 ==>
                if 0xD000 <= addr < 0xE000 then
                  wram1[..] == old(wram1[..])[addr % 0x1000 := data] && wram0[..] == old(wram0[..])
                else
                  wram0[..] == old(wram0[..])[addr % 0x1000 := data] && wram1[..] == old(wram1[..])
      ensures 0xFF80 <= addr < 0xFFFF ==> hram[..] == old(hram[..])[addr - 0xFF80 := data]
      ensures (0xC000 <= addr < 0xFE00 || 0xFF80 <= addr < 0xFFFF) ==> Peek(addr) == data
      ensures 0x8000 <= addr < 0xA000 && old(VramOpen()) ==> Peek(addr) == data
      ensures 0xFE00 <= addr < 0xFEA0 && old(OamOpen()) ==> Peek(addr) == data
      ensures 0xA000 <= addr < 0xC000 && cart != null ==>
                Peek(addr) == if old(cart.RamSlot(addr % 0x2000)).Some? then data else 0xFF
      ensures addr < 0x8000 && cart != null ==> cart.ram[..] == old(cart.ram[..])
      ensures 0xFF00 <= addr < 0xFF80 ==>
                io[addr - 0xFF00] == IoWrite(addr - 0xFF00, data, old(io[addr - 0xFF00])) &&
                (forall i | 0 <= i < IO_SIZE && i != addr - 0xFF00 :: io[i] == old(io[i])) &&
                div == (if addr == 0xFF00 + DIV then 0 else old(div)) &&
                dmaActive == (old(dmaActive) || addr == 0xFF00 + DMA) &&
                dmaIndex == (if addr == 0xFF00 + DMA then 0 else old(dmaIndex)) &&
                apu.chans == old(apu.chans).(ch1 := Ch1Write(addr - 0xFF00, data, old(apu.chans.ch1)))
      ensures addr == 0xFFFF ==> ie == data & 0x1F
    {
      if addr < 0xFE00 {
        WriteLow(addr, data);
      } else {
        WriteHigh(addr, data);
      }
    }

    /** The regions below 0xFE00: the cartridge, VRAM (unless locked) and
        work RAM with its echo. */
    method WriteLow(addr: nat, data: bv8)
      requires Valid() && !dmaActive && addr < 0xFE00
      modifies vram, wram0, wram1, cart, CartRepr()
      ensures Valid()
      ensures !(0x8000 <= addr < 0xA000) ==> unchanged(vram)
      ensures addr < 0xC000 ==> unchanged(wram0, wram1)
      ensures 0x8000 <= addr < 0xA000 || 0xC000 <= addr ==> unchanged(CartRepr())
      ensures 0x8000 <= addr < 0xA000 ==>
                vram[..] == if old(VramOpen()) then old(vram[..])[addr % 0x2000 := data] else old(vram[..])
      ensures cart != null && (addr < 0x8000 || 0xA000 <= addr < 0xC000) ==>
                cart.Registers() == MappersWrite(cart.mapper, old(cart.Registers()), CartOffset(addr), CartRegion(addr), data)
      ensures cart != null && 0xA000 <= addr < 0xC000 ==>
                cart.ram[..] == if old(cart.RamSlot(addr % 0x2000)).Some? then
                                  old(cart.ram[..])[old(cart.RamSlot(addr % 0x2000)).value := data]
                                else old(cart.ram[..])
      ensures 0xC000 <= addr ==>
                if 0xD000 <= addr < 0xE000 then
                  wram1[..] == old(wram1[..])[addr % 0x1000 := data] && wram0[..] == old(wram0[..])
                else
                  wram0[..] == old(wram0[..])[addr % 0x1000 := data] && wram1[..] == old(wram1[..])
      ensures 0xC000 <= addr ==> Peek(addr) == data
      ensures 0x8000 <= addr < 0xA000 && old(VramOpen()) ==> Peek(addr) == data
      ensures 0x8000 <= addr < 0xA000 && !old(VramOpen()) ==> vram[..] == old(vram[..])
      ensures 0xA000 <= addr < 0xC000 && cart != null ==>
                Peek(addr) == if old(cart.RamSlot(addr % 0x2000)).Some? then data else 0xFF
      ensures addr < 0x8000 && cart != null ==> cart.ram[..] == old(cart.ram[..])
    {
      if addr < 0x8000 {
        WriteCart(addr, data);
      } else if addr < 0xA000 {
        if VramOpen() {
          vram[addr % 0x2000] := data;
        }
      } else if addr < 0xC000 {
        WriteCart(addr, data);
      } else {
        WriteWram(addr, data);
      }
    }

    /** The regions from 0xFE00: OAM (unless locked), the unusable area, the
        I/O registers, HRAM and IE. */
    method WriteHigh(addr: nat, data: bv8)
      requires Valid() && 0xFE00 <= addr < 0x10000
      modifies this`ie, this`div, this`dmaActive, this`dmaIndex, oam, io, hram, apu`chans
      ensures Valid()
      ensures addr != 0xFFFF ==> ie == old(ie)
      ensures addr < 0xFEA0 ==>
                oam[..] == if old(OamOpen()) then old(oam[..])[addr - 0xFE00 := data] else old(oam[..])
      ensures 0xFF80 <= addr < 0xFFFF ==> hram[..] == old(hram[..])[addr - 0xFF80 := data]
      ensures !old(dmaActive) && 0xFF80 <= addr < 0xFFFF ==> Peek(addr) == data
      ensures !old(dmaActive) && addr < 0xFEA0 && old(OamOpen()) ==> Peek(addr) == data
      ensures addr < 0xFEA0 && !old(OamOpen()) ==> oam[..] == old(oam[..])
      ensures 0xFF00 <= addr < 0xFF80 ==>
                io[addr - 0xFF00] == IoWrite(addr - 0xFF00, data, old(io[addr - 0xFF00])) &&
                (forall i | 0 <= i < IO_SIZE && i != addr - 0xFF00 :: io[i] == old(io[i])) &&
                div == (if addr == 0xFF00 + DIV then 0 else old(div)) &&
                dmaActive == (old(dmaActive) || addr == 0xFF00 + DMA) &&
                dmaIndex == (if addr == 0xFF00 + DMA then 0 else old(dmaIndex)) &&
                apu.chans == old(apu.chans).(ch1 := Ch1Write(addr - 0xFF00, data, old(apu.chans.ch1)))
      ensures addr < 0xFF00 || addr >= 0xFF80 ==>
                unchanged(io) && div == old(div) && dmaActive == old(dmaActive) && dmaIndex == old(dmaIndex) &&
                apu.chans == old(apu.chans)
      ensures !(0xFF80 <= addr < 0xFFFF) ==> unchanged(hram)
      ensures addr >= 0xFEA0 ==> unchanged(oam)
      ensures addr == 0xFFFF ==> ie == data & 0x1F
    {
      if addr < 0xFEA0 {
        WriteOam(addr, data);
      } else if addr < 0xFF00 {
      } else if addr < 0xFF80 {
        WriteIo(addr - 0xFF00, data);
      } else if addr < 0xFFFF {
        WriteHram(addr, data);
      } else {
        ie := data & 0x1F;
      }
    }

    /** OAM takes the byte only while it is open to the CPU. */
    method WriteOam(addr: nat, data: bv8)
      requires Valid() && 0xFE00 <= addr < 0xFEA0
      modifies oam
      ensures Valid()
      ensures OamOpen() == old(OamOpen())
      ensures OamOpen() ==> oam[..] == old(oam[..])[addr - 0xFE00 := data]
      ensures !OamOpen() ==> oam[..] == old(oam[..])
      ensures !dmaActive && OamOpen() ==> Peek(addr) == data
    {
      if OamOpen() {
        oam[addr - 0xFE00] := data;
      }
    }

    /** HRAM takes the byte whatever the DMA state. */
    method WriteHram(addr: nat, data: bv8)
      requires Valid() && 0xFF80 <= addr < 0xFFFF
      modifies hram
      ensures Valid()
      ensures hram[..] == old(hram[..])[addr - 0xFF80 := data]
      ensures Peek(addr) == data
    {
      hram[addr - 0xFF80] := data;
    }

    /** The cartridge regions: ROM writes go to the mapper registers, RAM
        writes to the external RAM; with no cartridge nothing happens. */
    method WriteCart(addr: nat, data: bv8)
      requires Valid() && (addr < 0x8000 || 0xA000 <= addr < 0xC000)
      modifies cart, CartRepr()
      ensures Valid()
      ensures cart != null ==>
                cart.Registers() == MappersWrite(cart.mapper, old(cart.Registers()), CartOffset(addr), CartRegion(addr), data)
      ensures addr < 0x8000 && cart != null ==> cart.ram[..] == old(cart.ram[..])
      ensures 0xA000 <= addr && cart != null ==>
                cart.ram[..] == if old(cart.RamSlot(addr % 0x2000)).Some? then
                                  old(cart.ram[..])[old(cart.RamSlot(addr % 0x2000)).value := data]
                                else old(cart.ram[..])
      ensures 0xA000 <= addr && cart != null ==>
                cart.Read(addr % 0x2000, Ram) == if old(cart.RamSlot(addr % 0x2000)).Some? then data else 0xFF
    {
      if cart == null {
        return;
      }
      if addr < 0x4000 {
        cart.Write(addr, Rom0, data);
      } else if addr < 0x8000 {
        cart.Write(addr % 0x4000, Rom1, data);
      } else {
        cart.Write(addr % 0x2000, Ram, data);
      }
    }

    /** Work RAM: bank 0 at 0xC000, bank 1 at 0xD000, and the echo of bank 0
        from 0xE000. */
    method WriteWram(addr: nat, data: bv8)
      requires Valid() && 0xC000 <= addr < 0xFE00
      modifies wram0, wram1
      ensures if 0xD000 <= addr < 0xE000 then
                wram1[..] == old(wram1[..])[addr % 0x1000 := data] && wram0[..] == old(wram0[..])
              else
                wram0[..] == old(wram0[..])[addr % 0x1000 := data] && wram1[..] == old(wram1[..])
    {
      if 0xD000 <= addr < 0xE000 {
        wram1[addr % 0x1000] := data;
      } else {
        wram0[addr % 0x1000] := data;
      }
    }

    /** A CPU write to I/O register `reg`: the register file as IoWrite says,
        a DIV write clears the divider, a DMA write starts a transfer from
        index 0, and NR13/NR14 writes reach channel 1. */
    method WriteIo(reg: nat, data: bv8)
      requires io.Length == IO_SIZE && reg < IO_SIZE && apu.chans.ch1.wavelen < 0x10000
      modifies io, this`div, this`dmaActive, this`dmaIndex, apu`chans
      ensures io[reg] == IoWrite(reg, data, old(io[reg]))
      ensures forall i | 0 <= i < IO_SIZE && i != reg :: io[i] == old(io[i])
      ensures div == if reg == DIV then 0 else old(div)
      ensures dmaActive == (old(dmaActive) || reg == DMA)
      ensures dmaIndex == if reg == DMA then 0 else old(dmaIndex)
      ensures apu.chans == old(apu.chans).(ch1 := Ch1Write(reg, data, old(apu.chans.ch1)))
    {
      if reg == JOYP {
        io[JOYP] := (io[JOYP] & 0xCF) | (data & 0x30);
      } else if reg == DIV {
        div := 0;
      } else if reg == TAC {
        io[TAC] := data & 0x07;
      } else if reg == IF {
        io[IF] := data & 0x1F;
      } else if reg == NR13 {
        apu.chans := apu.chans.(ch1 := Ch1Write(NR13, data, apu.chans.ch1));
      } else if reg == NR14 {
        apu.chans := apu.chans.(ch1 := Ch1Write(NR14, data, apu.chans.ch1));
        io[NR14] := data & NRX4_LEN_ENABLE;
      } else if reg == STAT {
        io[STAT] := (io[STAT] & 0x07) | (data & 0x78);
      } else if reg == DMA {
        io[DMA] := data;
        dmaActive, dmaIndex := true, 0;
      } else if reg in PLAIN_REGS {
        io[reg] := data;
      }
    }

    /** Whether either byte of the word at `addr` (the second one at
        `addr + 1`, wrapping at 0x10000) falls in `lo..hi`. */
    static predicate WordIn(addr: nat, lo: nat, hi: nat)
    {
      lo <= addr < hi || lo <= (addr + 1) % 0x10000 < hi
    }

    /** `write16`: the low byte at `addr`, then the high byte at `addr + 1`. */
    method Write16(addr: nat, data: nat)
      requires Valid() && addr < 0x10000 && data < 0x10000
      modifies cpu`cycles, this`ie, this`div, this`dmaActive, this`dmaIndex
      modifies vram, wram0, wram1, oam, io, hram, apu`chans, cart, CartRepr()
      ensures Valid()
      ensures cpu.cycles == old(cpu.cycles) + 8
      ensures !old(dmaActive) && ((0xC000 <= addr && addr + 1 < 0xFE00) || (0xFF80 <= addr && addr + 1 < 0xFFFF)) ==>
                PeekWord(addr) == data
      ensures !WordIn(addr, 0xFFFF, 0x10000) ==> ie == old(ie)
      ensures !WordIn(addr, 0x8000, 0xA000) ==> unchanged(vram)
      ensures !WordIn(addr, 0xC000, 0xFE00) ==> unchanged(wram0, wram1)
      ensures !WordIn(addr, 0xFE00, 0xFEA0) ==> unchanged(oam)
      ensures !WordIn(addr, 0xFF00, 0xFF80) ==>
                unchanged(io) && div == old(div) && dmaActive == old(dmaActive) && dmaIndex == old(dmaIndex) &&
                apu.chans == old(apu.chans)
      ensures !WordIn(addr, 0xFF80, 0xFFFF) ==> unchanged(hram)
      ensures !WordIn(addr, 0, 0x8000) && !WordIn(addr, 0xA000, 0xC000) ==> unchanged(CartRepr())
    {
      var lo, hi := Lo(data as u16), Hi(data as u16);
      assert lo as nat + 256 * hi as nat == data by {
        LoAsInt(data as u16);
        HiAsInt(data as u16);
      }
      Write8(addr, lo);
      assert !old(dmaActive) && (0xC000 <= addr < 0xFE00 || 0xFF80 <= addr < 0xFFFF) ==> !dmaActive && Peek(addr) == lo;
      WriteNext(addr, hi);
    }

    /** The second half of `write16`: the high byte goes to `addr + 1`,
        which in work RAM or HRAM is another cell than `addr`, so the byte
        there stays. */
    method WriteNext(addr: nat, hi: bv8)
      requires Valid() && addr < 0x10000
      modifies cpu`cycles, this`ie, this`div, this`dmaActive, this`dmaIndex
      modifies vram, wram0, wram1, oam, io, hram, apu`chans, cart, CartRepr()
      ensures Valid()
      ensures cpu.cycles == old(cpu.cycles) + 4
      ensures !old(dmaActive) && ((0xC000 <= addr && addr + 1 < 0xFE00) || (0xFF80 <= addr && addr + 1 < 0xFFFF)) ==>
                PeekWord(addr) == old(Peek(addr)) as nat + 256 * hi as nat
      ensures (addr + 1) % 0x10000 != 0xFFFF ==> ie == old(ie)
      ensures !(0x8000 <= (addr + 1) % 0x10000 < 0xA000) ==> unchanged(vram)
      ensures !(0xC000 <= (addr + 1) % 0x10000 < 0xFE00) ==> unchanged(wram0, wram1)
      ensures !(0xFE00 <= (addr + 1) % 0x10000 < 0xFEA0) ==> unchanged(oam)
      ensures !(0xFF00 <= (addr + 1) % 0x10000 < 0xFF80) ==>
                unchanged(io) && div == old(div) && dmaActive == old(dmaActive) && dmaIndex == old(dmaIndex) &&
                apu.chans == old(apu.chans)
      ensures !(0xFF80 <= (addr + 1) % 0x10000 < 0xFFFF) ==> unchanged(hram)
      ensures !((addr + 1) % 0x10000 < 0x8000 || 0xA000 <= (addr + 1) % 0x10000 < 0xC000) ==> unchanged(CartRepr())
    {
      ghost var mid := if 0xD000 <= addr < 0xE000 then wram1[..] else wram0[..];
      ghost var h := hram[..];
      ghost var before := Peek(addr);
      Write8((addr + 1) % 0x10000, hi);
      if !old(dmaActive) && 0xC000 <= addr && addr + 1 < 0xFE00 {
        assert (addr + 1) % 0x10000 == addr + 1;
        assert (if 0xD000 <= addr < 0xE000 then wram1[..] else wram0[..])[addr % 0x1000] == mid[addr % 0x1000];
      } else if !old(dmaActive) && 0xFF80 <= addr && addr + 1 < 0xFFFF {
        assert (addr + 1) % 0x10000 == addr + 1;
        assert hram[addr - 0xFF80] == h[addr - 0xFF80];
      }
    }

    // ------------------------------------------------------- per-dot work

    function Timers(): Timer
      requires io.Length == IO_SIZE
      reads this`div, this`prevTimerInc, this`timerOverflow, io
    {
      Timer(div, io[TIMA], io[TMA], io[TAC], io[IF], prevTimerInc, timerOverflow)
    }

    function DmaState(): Dma
      reads this`dmaActive, this`dmaIndex, this`dmaCycles
    {
      Dma(dmaActive, dmaIndex, dmaCycles)
    }

    /** `clock_timers`. */
    method ClockTimers()
      requires io.Length == IO_SIZE
      modifies this`div, this`prevTimerInc, this`timerOverflow, io
      ensures var r := TimerTick(old(Timers()));
              div == r.div && io[TIMA] == r.tima && io[IF] == r.iflag && prevTimerInc == r.prevInc &&
              timerOverflow == r.overflow
      ensures forall i | 0 <= i < IO_SIZE && i != TIMA && i != IF :: io[i] == old(io[i])
    {
      ghost var t := Timers();
      div := (div + 1) % 0x10000;
      TimerOverflow();
      ghost var iflag, tima := io[IF], io[TIMA];
      var newInc := TimerInput(div, io[TAC]);
      TimerCount(newInc);
      TimerTickIs(t, iflag, tima, newInc, io[TIMA], timerOverflow);
    }

    /** An overflow left by the previous dot: the timer interrupt request
        and the reload of TIMA from TMA. */
    method TimerOverflow()
      requires io.Length == IO_SIZE
      modifies io, this`timerOverflow
      ensures !timerOverflow
      ensures io[IF] == if old(timerOverflow) then old(io[IF]) | I_TIMER else old(io[IF])
      ensures io[TIMA] == if old(timerOverflow) then old(io[TMA]) else old(io[TIMA])
      ensures forall i | 0 <= i < IO_SIZE && i != TIMA && i != IF :: io[i] == old(io[i])
    {
      if timerOverflow {
        io[IF] := io[IF] | I_TIMER;
        io[TIMA] := io[TMA];
        timerOverflow := false;
      }
    }

    /** The increment of TIMA on a falling edge of the timer input, and the
        overflow it may leave. */
    method TimerCount(newInc: bool)
      requires io.Length == IO_SIZE && !timerOverflow
      modifies io, this`timerOverflow, this`prevTimerInc
      ensures prevTimerInc == newInc
      ensures io[TIMA] == if !newInc && old(prevTimerInc) then old(io[TIMA]) + 1 else old(io[TIMA])
      ensures forall i | 0 <= i < IO_SIZE && i != TIMA :: io[i] == old(io[i])
      ensures timerOverflow == (!newInc && old(prevTimerInc) && io[TIMA] == 0)
    {
      if !newInc && prevTimerInc {
        io[TIMA] := io[TIMA] + 1;
        if io[TIMA] == 0 {
          timerOverflow := true;
        }
      }
      prevTimerInc := newInc;
    }

    /** `check_stat_irq`. */
    method CheckStatIrq()
      requires io.Length == IO_SIZE
      modifies this`prevStatInt, io
      ensures var r := StatCheck(old(io[LY]), old(io[LYC]), old(io[STAT]), old(io[IF]), old(prevStatInt));
              io[STAT] == r.0 && io[IF] == r.1 && prevStatInt == r.2
      ensures forall i | 0 <= i < IO_SIZE && i != STAT && i != IF :: io[i] == old(io[i])
    {
      var stat := if io[LYC] == io[LY] then io[STAT] | STAT_LYCEQ else io[STAT] & !STAT_LYCEQ;
      io[STAT] := stat;
      var line := StatLine(stat);
      if line && !prevStatInt {
        io[IF] := io[IF] | I_STAT;
      }
      prevStatInt := line;
    }

    /** `update_joyp`. */
    method UpdateJoyp()
      requires io.Length == IO_SIZE
      modifies io
      ensures (io[JOYP], io[IF]) == JoypUpdate(old(io[JOYP]), old(io[IF]), jpDir, jpAction)
      ensures forall i | 0 <= i < IO_SIZE && i != JOYP && i != IF :: io[i] == old(io[i])
    {
      var buttons := Buttons();
      if buttons < io[JOYP] & 0x0F {
        io[IF] := io[IF] | I_JOYPAD;
      }
      io[JOYP] := (io[JOYP] & 0xF0) | buttons;
    }

    /** The low nibble JOYP reads: the selected groups' pressed buttons as 0s. */
    method Buttons() returns (buttons: bv8)
      requires io.Length == IO_SIZE
      ensures buttons == JoypNibble(io[JOYP], jpDir, jpAction)
    {
      buttons := 0xF0;
      if io[JOYP] & JP_DIR == 0 {
        buttons := buttons | jpDir;
      }
      if io[JOYP] & JP_ACT == 0 {
        buttons := buttons | jpAction;
      }
      buttons := !buttons;
    }

    /** The source address of the next DMA byte, `io[DMA] << 8 | index`. */
    function DmaAddr(): (a: nat)
      requires io.Length == IO_SIZE && dmaIndex < 256
      reads this`dmaIndex, io
      ensures a == io[DMA] as nat * 256 + dmaIndex && a < 0x10000
    {
      Pow2Table(8);
      OrDisjoint(dmaIndex, io[DMA] as nat, 8);
      BitOr(dmaIndex, io[DMA] as nat * Pow2(8))
    }

    /** The byte DMA copies from `addr`: the cartridge, VRAM (whatever the
        picture unit's mode) and work RAM; 0xFF from 0xE000 up. */
    function DmaSource(addr: nat): (r: bv8)
      requires vram.Length == VRAM_BANK_SIZE && wram0.Length == WRAM_BANK_SIZE && wram1.Length == WRAM_BANK_SIZE
      requires (cart != null ==> cart.Valid()) && addr < 0x10000
      reads cart, vram, wram0, wram1, if cart == null then {} else {cart.ram}
      ensures addr >= 0xE000 ==> r == 0xFF
    {
      if addr < 0x4000 then ReadCart(cart, addr % 0x4000, Rom0)
      else if addr < 0x8000 then ReadCart(cart, addr % 0x4000, Rom1)
      else if addr < 0xA000 then vram[addr % 0x2000]
      else if addr < 0xC000 then ReadCart(cart, addr % 0x2000, Ram)
      else if addr < 0xD000 then wram0[addr % 0x1000]
      else if addr < 0xE000 then wram1[addr % 0x1000]
      else 0xFF
    }

    /** Below 0xE000 DMA sees what the CPU would see with no transfer
        running, except that VRAM is never locked for it. */
    lemma DmaSeesBus(addr: nat)
      requires Valid() && addr < 0xE000 && !dmaActive
      requires 0x8000 <= addr < 0xA000 ==> VramOpen()
      ensures DmaSource(addr) == Peek(addr)
    {
    }

    /** `run_dma`, called on the dots where a transfer is active. */
    method RunDma()
      requires Valid() && dmaActive
      modifies this`dmaActive, this`dmaIndex, this`dmaCycles, oam
      ensures Valid()
      ensures DmaState() == DmaTick(old(DmaState()))
      ensures old(dmaCycles == 0 && dmaIndex < OAM_SIZE) ==>
                oam[..] == old(oam[..])[old(dmaIndex) := old(DmaSource(io[DMA] as nat * 256 + dmaIndex))]
      ensures !old(dmaCycles == 0 && dmaIndex < OAM_SIZE) ==> oam[..] == old(oam[..])
    {
      if dmaCycles == 0 {
        if dmaIndex == OAM_SIZE {
          dmaActive := false;
          return;
        }
        var data := DmaSource(DmaAddr());
        dmaCycles := dmaCycles + 4;
        oam[dmaIndex] := data;
        dmaIndex := dmaIndex + 1;
      }
      dmaCycles := dmaCycles - 1;
    }

    /** The bus's own part of a dot: timers, the STAT line, the joypad and
        a DMA step while a transfer is active. */
    method TickBus()
      requires Valid()
      modifies this`div, this`prevTimerInc, this`timerOverflow, this`prevStatInt
      modifies this`dmaActive, this`dmaIndex, this`dmaCycles, io, oam
      ensures Valid()
      ensures Registers() == RegistersTick(old(Registers()), jpDir, jpAction)
      ensures forall i | 0 <= i < IO_SIZE && i != TIMA && i != STAT && i != JOYP && i != IF :: io[i] == old(io[i])
      ensures DmaState() == DmaTick(old(DmaState()))
      ensures old(dmaActive && dmaCycles == 0 && dmaIndex < OAM_SIZE) ==>
                oam[..] == old(oam[..])[old(dmaIndex) := old(DmaSource(io[DMA] as nat * 256 + dmaIndex))]
      ensures !old(dmaActive && dmaCycles == 0 && dmaIndex < OAM_SIZE) ==> oam[..] == old(oam[..])
    {
      TickRegisters();
      assert io[DMA] == old(io[DMA]) && oam[..] == old(oam[..]);
      assert DmaSource(io[DMA] as nat * 256 + dmaIndex) == old(DmaSource(io[DMA] as nat * 256 + dmaIndex));
      DmaStep();
    }

    /** The DMA step of a dot: `run_dma` while a transfer is active. */
    method DmaStep()
      requires Valid()
      modifies this`dmaActive, this`dmaIndex, this`dmaCycles, oam
      ensures Valid()
      ensures DmaState() == DmaTick(old(DmaState()))
      ensures Registers() == old(Registers())
      ensures old(dmaActive && dmaCycles == 0 && dmaIndex < OAM_SIZE) ==>
                oam[..] == old(oam[..])[old(dmaIndex) := old(DmaSource(io[DMA] as nat * 256 + dmaIndex))]
      ensures !old(dmaActive && dmaCycles == 0 && dmaIndex < OAM_SIZE) ==> oam[..] == old(oam[..])
    {
      if dmaActive {
        RunDma();
      }
    }

    /** The registers a dot of the bus updates, DMA aside. */
    function Registers(): BusRegs
      requires io.Length == IO_SIZE
      reads this`div, this`prevTimerInc, this`timerOverflow, this`prevStatInt, io
    {
      BusRegs(Timers(), io[LY], io[LYC], io[STAT], io[JOYP], prevStatInt)
    }

    /** `clock_timers`, `check_stat_irq` and `update_joyp`, in that order. */
    method TickRegisters()
      requires Valid()
      modifies this`div, this`prevTimerInc, this`timerOverflow, this`prevStatInt, io
      ensures Valid()
      ensures Registers() == RegistersTick(old(Registers()), jpDir, jpAction)
      ensures forall i | 0 <= i < IO_SIZE && i != TIMA && i != STAT && i != JOYP && i != IF :: io[i] == old(io[i])
    {
      ClockTimers();
      CheckStatIrq();
      UpdateJoyp();
    }

    /** `tick_gb` without the processor: timers, the STAT line, the joypad,
        a DMA step while one is active, then one dot of the picture unit and
        of the sound unit (`step` says whether this dot falls on the sound
        unit's emulation speed). */
    method Tick(step: bool)
      requires Valid()
      modifies this`div, this`prevTimerInc, this`timerOverflow, this`prevStatInt
      modifies this`dmaActive, this`dmaIndex, this`dmaCycles, io, oam, ppu, apu
      ensures Valid()
      ensures var r := RegistersTick(old(Registers()), jpDir, jpAction);
              div == r.timer.div && prevTimerInc == r.timer.prevInc && timerOverflow == r.timer.overflow &&
              prevStatInt == r.prevStat && io[TIMA] == r.timer.tima && io[JOYP] == r.joyp
      ensures DmaState() == DmaTick(old(DmaState()))
      ensures old(dmaActive && dmaCycles == 0 && dmaIndex < OAM_SIZE) ==>
                oam[..] == old(oam[..])[old(dmaIndex) := old(DmaSource(io[DMA] as nat * 256 + dmaIndex))]
      ensures !old(dmaActive && dmaCycles == 0 && dmaIndex < OAM_SIZE) ==> oam[..] == old(oam[..])
      ensures ppu.Position() ==
                if old(io[LCDC]) & LCDC_ENABLE == 0 then old(ppu.Position()) else Ppu.Advance(old(ppu.Position()))
      ensures forall i | 0 <= i < IO_SIZE && i != TIMA && i != STAT && i != JOYP && i != IF && i != LY &&
                         i != Apu.NR52 && i != Apu.PCM12 && i != Apu.PCM34 :: io[i] == old(io[i])
      ensures old(io[Apu.NR52]) & 0x80 == 0 ==>
                io[Apu.NR52] == 0 && apu.globalCounter == 0 && apu.apuDiv == 0 && apu.sampleInd == 0 &&
                apu.chans == old(apu.chans) && apu.status == old(apu.status) && apu.sweep == old(apu.sweep) &&
                apu.envs == old(apu.envs) && apu.samplesFull == old(apu.samplesFull) &&
                io[Apu.PCM12] == old(io[Apu.PCM12]) && io[Apu.PCM34] == old(io[Apu.PCM34])
      ensures old(io[Apu.NR52]) & 0x80 != 0 ==>
                io[Apu.NR52] == Apu.Nr52(old(apu.status.on1), old(apu.status.on2), old(apu.status.on3), old(apu.status.on4)) &&
                apu.globalCounter == (if step then old(apu.globalCounter) + 1 else old(apu.globalCounter))
      ensures old(io[Apu.NR52]) & 0x80 != 0 ==>
                var counted := if step then Apu.ChannelsTick(old(apu.globalCounter) + 1, old(apu.chans), old(io[Apu.NR43]))
                               else old(apu.chans);
                if div % Apu.SequencerRate(old(io[Apu.KEY1])) == 0 then
                  apu.Seq() == Apu.SequencerTick(old(apu.Seq()), io[..]) &&
                  apu.chans == counted.(ch1 := counted.ch1.(wavelen := apu.chans.ch1.wavelen))
                else
                  apu.Seq() == old(apu.Seq()) && apu.chans == counted
      ensures old(io[Apu.NR52]) & 0x80 != 0 && (!step || (old(apu.globalCounter) + 1) % Apu.SAMPLE_RATE != 0) ==>
                apu.sampleInd == old(apu.sampleInd) && apu.samplesFull == old(apu.samplesFull) &&
                io[Apu.PCM12] == old(io[Apu.PCM12]) && io[Apu.PCM34] == old(io[Apu.PCM34])
      ensures old(io[Apu.NR52]) & 0x80 != 0 && step && (old(apu.globalCounter) + 1) % Apu.SAMPLE_RATE == 0 ==>
                apu.sampleInd == (old(apu.sampleInd) + 2) % Apu.SAMPLE_BUF_LEN &&
                apu.samplesFull == (old(apu.samplesFull) || old(apu.sampleInd) + 2 == Apu.SAMPLE_BUF_LEN)
    {
      TickBus();
      label mid:
      TickUnits(step);
      assert oam[..] == old@mid(oam[..]) && DmaState() == old@mid(DmaState());
      assert io[TIMA] == old@mid(io[TIMA]) && io[JOYP] == old@mid(io[JOYP]);
    }

    /** The picture unit's dot, then the sound unit's. */
    method TickUnits(step: bool)
      requires Valid()
      modifies io, ppu, apu
      ensures Valid()
      ensures ppu.Position() ==
                if old(io[LCDC]) & LCDC_ENABLE == 0 then old(ppu.Position()) else Ppu.Advance(old(ppu.Position()))
      ensures forall i | 0 <= i < IO_SIZE && i != STAT && i != IF && i != LY &&
                         i != Apu.NR52 && i != Apu.PCM12 && i != Apu.PCM34 :: io[i] == old(io[i])
      ensures old(io[Apu.NR52]) & 0x80 == 0 ==>
                io[Apu.NR52] == 0 && apu.globalCounter == 0 && apu.apuDiv == 0 && apu.sampleInd == 0 &&
                apu.chans == old(apu.chans) && apu.status == old(apu.status) && apu.sweep == old(apu.sweep) &&
                apu.envs == old(apu.envs) && apu.samplesFull == old(apu.samplesFull) &&
                io[Apu.PCM12] == old(io[Apu.PCM12]) && io[Apu.PCM34] == old(io[Apu.PCM34])
      ensures old(io[Apu.NR52]) & 0x80 != 0 ==>
                io[Apu.NR52] == Apu.Nr52(old(apu.status.on1), old(apu.status.on2), old(apu.status.on3), old(apu.status.on4)) &&
                apu.globalCounter == (if step then old(apu.globalCounter) + 1 else old(apu.globalCounter))
      ensures old(io[Apu.NR52]) & 0x80 != 0 ==>
                var counted := if step then Apu.ChannelsTick(old(apu.globalCounter) + 1, old(apu.chans), old(io[Apu.NR43]))
                               else old(apu.chans);
                if div % Apu.SequencerRate(old(io[Apu.KEY1])) == 0 then
                  apu.Seq() == Apu.SequencerTick(old(apu.Seq()), io[..]) &&
                  apu.chans == counted.(ch1 := counted.ch1.(wavelen := apu.chans.ch1.wavelen))
                else
                  apu.Seq() == old(apu.Seq()) && apu.chans == counted
      ensures old(io[Apu.NR52]) & 0x80 != 0 && (!step || (old(apu.globalCounter) + 1) % Apu.SAMPLE_RATE != 0) ==>
                apu.sampleInd == old(apu.sampleInd) && apu.samplesFull == old(apu.samplesFull) &&
                io[Apu.PCM12] == old(io[Apu.PCM12]) && io[Apu.PCM34] == old(io[Apu.PCM34])
      ensures old(io[Apu.NR52]) & 0x80 != 0 && step && (old(apu.globalCounter) + 1) % Apu.SAMPLE_RATE == 0 ==>
                apu.sampleInd == (old(apu.sampleInd) + 2) % Apu.SAMPLE_BUF_LEN &&
                apu.samplesFull == (old(apu.samplesFull) || old(apu.sampleInd) + 2 == Apu.SAMPLE_BUF_LEN)
    {
      ppu.Clock();
      apu.Clock(step, div);
    }
  }

  /** The registers one dot of the bus updates: the timer state, LY, LYC,
      STAT, JOYP and the previous STAT line. */
  datatype BusRegs = BusRegs(timer: Timer, ly: bv8, lyc: bv8, stat: bv8, joyp: bv8, prevStat: bool)

  /** One dot of the bus's registers: TimerTick, then StatCheck on the
      interrupt flags it leaves, then JoypUpdate on the flags after that. */
  function RegistersTick(r: BusRegs, dir: bv8, act: bv8): (s: BusRegs)
    ensures s.timer.div == (r.timer.div + 1) % 0x10000 && s.ly == r.ly && s.lyc == r.lyc
    ensures s.timer.tma == r.timer.tma && s.timer.tac == r.timer.tac
  {
    var t := TimerTick(r.timer);
    var st := StatCheck(r.ly, r.lyc, r.stat, t.iflag, r.prevStat);
    var jp := JoypUpdate(r.joyp, st.1, dir, act);
    BusRegs(t.(iflag := jp.1), r.ly, r.lyc, st.0, jp.0, st.2)
  }

  /** After a dot of the bus, STAT's coincidence bit says whether LY equals
      LYC, JOYP's low nibble shows the selected buttons, and the interrupt
      flags have only gained bits, and only the timer, STAT and joypad
      ones. */
  lemma RegistersTickFlags(r: BusRegs, dir: bv8, act: bv8)
    ensures var s := RegistersTick(r, dir, act);
            (s.stat & STAT_LYCEQ != 0 <==> r.lyc == r.ly) &&
            s.joyp & 0x0F == JoypNibble(r.joyp, dir, act) && s.joyp & 0xF0 == r.joyp & 0xF0 &&
            s.timer.iflag | r.timer.iflag == s.timer.iflag &&
            s.timer.iflag == r.timer.iflag | (s.timer.iflag & (I_TIMER | I_STAT | I_JOYPAD))
  {
  }

  /** The address map as the CPU sees it. */
  lemma AddressMap(gb: GameBoy, addr: nat)
    requires gb.Valid() && addr < 0x10000
    ensures gb.dmaActive && addr < 0xFF00 ==> gb.Peek(addr) == 0xFF
    ensures 0xFEA0 <= addr < 0xFF00 || 0xFF4D <= addr < 0xFF80 ==> gb.Peek(addr) == 0xFF
    ensures !gb.VramOpen() && 0x8000 <= addr < 0xA000 ==> gb.Peek(addr) == 0xFF
    ensures !gb.OamOpen() && 0xFE00 <= addr < 0xFEA0 ==> gb.Peek(addr) == 0xFF
    ensures addr == 0xFF00 + DIV ==> gb.Peek(addr) as nat == gb.div / 256
    ensures addr == 0xFFFF ==> gb.Peek(addr) == gb.ie
  {
    if addr == 0xFF00 + DIV {
      DivModUnique(gb.div, 256, gb.div / 256, gb.div % 256);
      IntToByte(gb.div / 256);
    }
  }

  /** Echo RAM: 0xE000-0xFDFF reads work RAM bank 0 at the same offset, so
      0xE000-0xEFFF mirrors 0xC000-0xCFFF and 0xF000-0xFDFF mirrors
      0xD000-0xDDFF only when both banks hold the same byte. */
  lemma EchoRam(gb: GameBoy, addr: nat)
    requires gb.Valid() && !gb.dmaActive && 0xE000 <= addr < 0xFE00
    ensures addr < 0xF000 ==> gb.Peek(addr) == gb.Peek(addr - 0x2000)
    ensures addr >= 0xF000 ==> gb.Peek(addr) == gb.wram0[addr - 0xF000] && gb.Peek(addr - 0x2000) == gb.wram1[addr - 0xF000]
  {
    if addr < 0xF000 {
      DivModUnique(addr, 0x1000, 14, addr - 0xE000);
      DivModUnique(addr - 0x2000, 0x1000, 12, addr - 0xE000);
    } else {
      DivModUnique(addr, 0x1000, 15, addr - 0xF000);
      DivModUnique(addr - 0x2000, 0x1000, 13, addr - 0xF000);
    }
  }
}
