/** The picture unit of src/ppu.c as far as it goes: the beam position
    (dot within the scanline, scanline within the frame), the LY register
    that mirrors the scanline, the LY=LYC coincidence flag, the mode bits
    of STAT and the VBlank and STAT interrupt requests. */
module Ppu {
  import opened Bytes

  /** Offsets in the I/O register file. */
  const IF: nat := 0x0F
  const LCDC: nat := 0x40
  const STAT: nat := 0x41
  const LY: nat := 0x44
  const LYC: nat := 0x45
  const IO_SIZE: nat := 0x80

  const SCREEN_H: nat := 144
  const CYCLES_PER_SCANLINE: nat := 456
  const SCANLINES_PER_FRAME: nat := 154
  /** Dots in one frame. */
  const FRAME: nat := 456 * 154

  const LCDC_ENABLE: bv8 := 0x80
  const STAT_MODE: bv8 := 0x03
  const STAT_LYCEQ: bv8 := 0x04
  const STAT_I_VBLANK: bv8 := 0x10
  const STAT_I_OAM: bv8 := 0x20
  const STAT_I_LYCEQ: bv8 := 0x40
  const I_VBLANK: bv8 := 0x01
  const I_STAT: bv8 := 0x02

  /** Where the beam is: the dot within the scanline and the scanline. */
  datatype Beam = Beam(cycle: nat, line: nat)
  {
    predicate Valid() {
      cycle < CYCLES_PER_SCANLINE && line < SCANLINES_PER_FRAME
    }
  }

  /** The beam one dot later: the end of a scanline starts the next, the
      end of the last scanline starts the frame again. */
  function Advance(b: Beam): (r: Beam)
    requires b.Valid()
    ensures r.Valid()
  {
    if b.cycle + 1 == CYCLES_PER_SCANLINE then
      Beam(0, if b.line + 1 == SCANLINES_PER_FRAME then 0 else b.line + 1)
    else b.(cycle := b.cycle + 1)
  }

  function Advances(b: Beam, k: nat): (r: Beam)
    requires b.Valid()
    ensures r.Valid()
  {
    if k == 0 then b else Advance(Advances(b, k - 1))
  }

  /** Where the beam is `k` dots after the start of a frame. */
  function PosAfter(k: nat): Beam {
    Beam(k % CYCLES_PER_SCANLINE, (k / CYCLES_PER_SCANLINE) % SCANLINES_PER_FRAME)
  }

  lemma AdvancePos(k: nat)
    ensures PosAfter(k).Valid() && Advance(PosAfter(k)) == PosAfter(k + 1)
  {
    var q, c := k / 456, k % 456;
    if c < 455 {
      DivModUnique(k + 1, 456, q, c + 1);
    } else {
      DivModUnique(k + 1, 456, q + 1, 0);
      var l := q % 154;
      if l < 153 {
        DivModUnique(q + 1, 154, q / 154, l + 1);
      } else {
        DivModUnique(q + 1, 154, q / 154 + 1, 0);
      }
    }
  }

  /** From the start of a frame, `k` dots take the beam to `PosAfter(k)`. */
  lemma {:induction false} AdvancesFromStart(k: nat)
    ensures Advances(Beam(0, 0), k) == PosAfter(k)
  {
    if k > 0 {
      AdvancesFromStart(k - 1);
      AdvancePos(k - 1);
    }
  }

  /** 456 x 154 dots bring the beam back to the start of the frame, and on
      the way it is at dot 0 of line 144, where VBlank is raised, exactly
      once. */
  lemma FrameCycle()
    ensures Advances(Beam(0, 0), FRAME) == Beam(0, 0)
    ensures forall k | 0 <= k < FRAME :: Advances(Beam(0, 0), k) == Beam(0, SCREEN_H) <==> k == SCREEN_H * CYCLES_PER_SCANLINE
  {
    AdvancesFromStart(FRAME);
    DivModUnique(FRAME, 456, 154, 0);
    DivModUnique(154, 154, 1, 0);
    forall k | 0 <= k < FRAME
      ensures Advances(Beam(0, 0), k) == Beam(0, SCREEN_H) <==> k == SCREEN_H * CYCLES_PER_SCANLINE
    {
      AdvancesFromStart(k);
      VBlankPosition(k);
    }
  }

  lemma VBlankPosition(k: nat)
    requires k < FRAME
    ensures PosAfter(k) == Beam(0, SCREEN_H) <==> k == SCREEN_H * CYCLES_PER_SCANLINE
  {
    var q := k / 456;
    DivModUnique(k, 456, q, k % 456);
    assert q < 154;
    DivModUnique(q, 154, 0, q);
    DivModUnique(SCREEN_H * CYCLES_PER_SCANLINE, 456, 144, 0);
    DivModUnique(144, 154, 0, 144);
  }

  /** The coincidence check that runs first on every dot, LCD on or off:
      when LY equals LYC the flag is set, with a STAT request if the flag
      was clear and its interrupt is enabled. Nothing is cleared. */
  function LycCheck(io: seq<bv8>): (r: seq<bv8>)
    requires |io| == IO_SIZE
    ensures |r| == IO_SIZE
    ensures io[LYC] == io[LY] ==> r[STAT] & STAT_LYCEQ != 0
    ensures io[LYC] != io[LY] ==> r == io
    ensures r[STAT] & STAT_LYCEQ == 0 ==> io[STAT] & STAT_LYCEQ == 0
    ensures r[IF] != io[IF] ==>
              io[LYC] == io[LY] && io[STAT] & STAT_LYCEQ == 0 && io[STAT] & STAT_I_LYCEQ != 0 &&
              r[IF] == io[IF] | I_STAT
    ensures forall i | 0 <= i < IO_SIZE && i != IF && i != STAT :: r[i] == io[i]
  {
    if io[LYC] == io[LY] then
      var iflag := if io[STAT] & STAT_LYCEQ == 0 && io[STAT] & STAT_I_LYCEQ != 0 then io[IF] | I_STAT else io[IF];
      io[IF := iflag][STAT := io[STAT] | STAT_LYCEQ]
    else io
  }

  /** The mode and interrupt effects at beam `b` with the LCD on: dot 0 of a
      visible line enters mode 2 (with a STAT request if enabled); dot 0 of
      line 144 requests VBlank and enters mode 0 (with a STAT request if
      enabled). */
  function ModeUpdate(b: Beam, io: seq<bv8>): (r: seq<bv8>)
    requires |io| == IO_SIZE
    ensures |r| == IO_SIZE
    ensures b.line < SCREEN_H && b.cycle == 0 ==> r[STAT] & STAT_MODE == 2
    ensures b.line == SCREEN_H && b.cycle == 0 ==> r[STAT] & STAT_MODE == 0 && r[IF] & I_VBLANK != 0
    ensures b.cycle != 0 || b.line > SCREEN_H ==> r == io
    ensures r[STAT] & STAT_LYCEQ == io[STAT] & STAT_LYCEQ
    ensures r[IF] & I_VBLANK != io[IF] & I_VBLANK ==> b == Beam(0, SCREEN_H)
    ensures forall i | 0 <= i < IO_SIZE && i != IF && i != STAT :: r[i] == io[i]
  {
    if b.line < SCREEN_H then
      if b.cycle == 0 then
        var stat := (io[STAT] & !STAT_MODE) | 2;
        var iflag := if stat & STAT_I_OAM != 0 then io[IF] | I_STAT else io[IF];
        io[STAT := stat][IF := iflag]
      else io
    else if b.line == SCREEN_H && b.cycle == 0 then
      var iflag := io[IF] | I_VBLANK;
      var stat := io[STAT] & !STAT_MODE;
      io[IF := if stat & STAT_I_VBLANK != 0 then iflag | I_STAT else iflag][STAT := stat]
    else io
  }

  /** The picture unit: the beam position and the register file it shares
      with the bus. */
  class Unit {
    var cycle: nat
    var scanline: nat
    const io: array<bv8>

    ghost predicate Valid()
      reads this, io
    {
      io.Length == IO_SIZE && Beam(cycle, scanline).Valid() && io[LY] as int == scanline
    }

    /** `init_ppu`: the beam at the start of a frame. */
    constructor (io: array<bv8>)
      requires io.Length == IO_SIZE && io[LY] == 0
      ensures Valid() && this.io == io && cycle == 0 && scanline == 0
    {
      this.io := io;
      cycle, scanline := 0, 0;
    }

    function Position(): Beam
      reads this
    {
      Beam(cycle, scanline)
    }

    /** `ppu_clock`: the coincidence check; then, with the LCD on, the mode
        and interrupt effects and one dot of beam movement, LY following
        the scanline. With the LCD off only the LYC comparison runs. */
    method Clock()
      requires Valid()
      modifies this, io
      ensures Valid()
      ensures var checked := LycCheck(old(io[..]));
              if checked[LCDC] & LCDC_ENABLE == 0 then
                io[..] == checked && Position() == old(Position())
              else
                Position() == Advance(old(Position())) &&
                io[..] == ModeUpdate(old(Position()), checked)[LY := scanline as bv8]
    {
      CheckLyc();
      assert io[LY] == old(io[LY]);
      if io[LCDC] & LCDC_ENABLE == 0 {
        return;
      }
      ghost var checked := io[..];
      UpdateMode();
      ghost var updated := io[..];
      Move();
      assert io[..] == updated[LY := scanline as bv8];
    }

    /** The coincidence check. */
    method CheckLyc()
      requires io.Length == IO_SIZE
      modifies io
      ensures io[..] == LycCheck(old(io[..]))
    {
      if io[LYC] == io[LY] {
        if io[STAT] & STAT_LYCEQ == 0 && io[STAT] & STAT_I_LYCEQ != 0 {
          io[IF] := io[IF] | I_STAT;
        }
        io[STAT] := io[STAT] | STAT_LYCEQ;
      }
    }

    /** The mode and interrupt effects of the current dot. */
    method UpdateMode()
      requires io.Length == IO_SIZE
      modifies io
      ensures io[..] == ModeUpdate(Position(), old(io[..]))
    {
      if scanline < SCREEN_H {
        if cycle == 0 {
          io[STAT] := io[STAT] & !STAT_MODE;
          io[STAT] := io[STAT] | 2;
          if io[STAT] & STAT_I_OAM != 0 {
            io[IF] := io[IF] | I_STAT;
          }
        }
      } else if scanline == SCREEN_H && cycle == 0 {
        io[IF] := io[IF] | I_VBLANK;
        io[STAT] := io[STAT] & !STAT_MODE;
        if io[STAT] & STAT_I_VBLANK != 0 {
          io[IF] := io[IF] | I_STAT;
        }
      }
    }

    /** One dot of beam movement; LY is rewritten from the scanline. */
    method Move()
      requires io.Length == IO_SIZE && Position().Valid()
      modifies this, io
      ensures Position() == Advance(old(Position()))
      ensures io[..] == old(io[..])[LY := scanline as bv8]
      ensures io[LY] as int == scanline
    {
      cycle := cycle + 1;
      if cycle == CYCLES_PER_SCANLINE {
        cycle := 0;
        scanline := scanline + 1;
        if scanline == SCANLINES_PER_FRAME {
          scanline := 0;
        }
      }
      IntToByte(scanline);
      io[LY] := scanline as bv8;
    }
  }

  /** `ppu_clock` never clears the coincidence flag. */
  lemma ClockKeepsLycFlag(b: Beam, io: seq<bv8>)
    requires |io| == IO_SIZE && io[STAT] & STAT_LYCEQ != 0
    ensures LycCheck(io)[STAT] & STAT_LYCEQ != 0
    ensures ModeUpdate(b, LycCheck(io))[STAT] & STAT_LYCEQ != 0
  {
  }
}
