/** The earlier CPU draft at the root of the repository (sm83.c) as
    functions on a state value. The draft differs from src/sm83.c in three
    ways that matter here: an instruction adds its whole cost to a
    countdown `cycles` up front and the bus is free (no tick per access);
    `resolve_flags` has no carry-in; and only the opcodes with top bits 00
    are decoded, the others doing nothing beyond the opcode fetch. The
    `Cpu` class of module DraftSm83 is proved to follow these functions. */
module DraftSm83Spec {
  import opened Bytes
  import opened Sm83Flags
  import S = Sm83Spec
  import P = Sm83Props

  /** The part of `struct sm83` the draft touches: the registers, SP, PC,
      the countdown, the `stopped` flag, and the bus. */
  datatype State = State(regs: S.Regs, sp: u16, pc: u16, cycles: int, stopped: bool, mem: S.Memory)
  {
    function BC(): u16 { Pack(regs.b, regs.c) }
    function DE(): u16 { Pack(regs.d, regs.e) }
    function HL(): u16 { Pack(regs.h, regs.l) }
  }

  /** `cpu->cycles += n`. */
  function Spend(s: State, n: nat): State {
    s.(cycles := s.cycles + n)
  }

  /** `read8(PC++)`: no cycles, the draft counts them per instruction. */
  function FetchByte(s: State): (State, bv8) {
    (s.(pc := Add16(s.pc, 1)), s.mem(s.pc))
  }

  /** `read16(PC++); PC++`: little-endian. */
  function FetchWord(s: State): (State, u16) {
    (s.(pc := Add16(s.pc, 2)), Pack(s.mem(Add16(s.pc, 1)), s.mem(s.pc)))
  }

  /** `write8`. */
  function Poke(s: State, addr: u16, v: bv8): State {
    s.(mem := S.Store(s.mem, addr, v))
  }

  /** `write16`: low byte first. */
  function Write16(s: State, addr: u16, w: u16): State {
    Poke(Poke(s, addr, Lo(w)), Add16(addr, 1), Hi(w))
  }

  function SetHL(s: State, w: u16): State {
    s.(regs := s.regs.(h := Hi(w), l := Lo(w)))
  }

  /** `*getr16g1`: BC DE HL SP by bits 4-5. */
  function Pair(s: State, opcode: bv8): u16 {
    var p := (opcode >> 4) & 3;
    if p == 0 then s.BC() else if p == 1 then s.DE() else if p == 2 then s.HL() else s.sp
  }

  /** `*getr16g1(cpu, opcode) = w`. */
  function SetPair(s: State, opcode: bv8, w: u16): (r: State)
    ensures Pair(r, opcode) == w
  {
    var p := (opcode >> 4) & 3;
    PackOfHalves(w);
    if p == 0 then s.(regs := s.regs.(b := Hi(w), c := Lo(w)))
    else if p == 1 then s.(regs := s.regs.(d := Hi(w), e := Lo(w)))
    else if p == 2 then SetHL(s, w)
    else s.(sp := w)
  }

  /** `getr16g2`: BC, DE, then HL with a post-increment (pair 2) or a
      post-decrement (pair 3). */
  function AddrPair(s: State, opcode: bv8): (r: (State, u16))
    ensures var p := (opcode >> 4) & 3;
            r.1 == (if p == 0 then s.BC() else if p == 1 then s.DE() else s.HL()) &&
            r.0.HL() == (if p == 2 then Add16(s.HL(), 1) else if p == 3 then Add16(s.HL(), -1) else s.HL()) &&
            r.0.(regs := r.0.regs.(h := s.regs.h, l := s.regs.l)) == s
  {
    var p := (opcode >> 4) & 3;
    if p == 0 then (s, s.BC())
    else if p == 1 then (s, s.DE())
    else
      var w := Add16(s.HL(), if p == 2 then 1 else -1);
      PackOfHalves(w);
      (SetHL(s, w), s.HL())
  }

  /** The register `getr8dest` names by a 3-bit index (6 is its NULL). */
  function Reg8(s: State, i: bv8): bv8
    requires i < 8 && i != 6
  {
    match i
    case 0 => s.regs.b
    case 1 => s.regs.c
    case 2 => s.regs.d
    case 3 => s.regs.e
    case 4 => s.regs.h
    case 5 => s.regs.l
    case _ => s.regs.a
  }

  function SetReg8(s: State, i: bv8, v: bv8): (r: State)
    requires i < 8 && i != 6
    ensures Reg8(r, i) == v
  {
    var g := s.regs;
    s.(regs := if i == 0 then g.(b := v)
               else if i == 1 then g.(c := v)
               else if i == 2 then g.(d := v)
               else if i == 3 then g.(e := v)
               else if i == 4 then g.(h := v)
               else if i == 5 then g.(l := v)
               else g.(a := v))
  }

  // ------------------------------------------------- opcodes 0x00-0x38, x0

  /** LD (nn),SP: 20 cycles. */
  function StoreSp(s: State): State {
    var (s1, addr) := FetchWord(Spend(s, 20));
    Write16(s1, addr, s.sp)
  }

  /** STOP: one more byte is skipped and the CPU stops; no cycles. */
  function Stop(s: State): State {
    s.(pc := Add16(s.pc, 1), stopped := true)
  }

  /** JR d: 12 cycles. */
  function Jr(s: State): State {
    var (s1, d) := FetchByte(Spend(s, 12));
    s1.(pc := Add16(s1.pc, Signed(d)))
  }

  /** JR cc,d: 8 cycles, 4 more when the jump is taken. */
  function JrCond(s: State, opcode: bv8): State {
    var (s1, d) := FetchByte(Spend(s, 8));
    if EvalCond(s.regs.f, opcode) then Spend(s1, 4).(pc := Add16(s1.pc, Signed(d))) else s1
  }

  function ExecMisc(s: State, opcode: bv8): State {
    if opcode & 0x20 == 0 then
      var k := (opcode >> 3) & 3;
      if k == 0 then Spend(s, 4)
      else if k == 1 then StoreSp(s)
      else if k == 2 then Stop(s)
      else Jr(s)
    else JrCond(s, opcode)
  }

  // ------------------------------------------------- opcodes x1, x2, x3

  /** LD rr,nn: 12 cycles. */
  function LoadPair(s: State, opcode: bv8): State {
    var (s1, nn) := FetchWord(Spend(s, 12));
    SetPair(s1, opcode, nn)
  }

  /** ADD HL,rr: 8 cycles; N cleared, H from a comparison of the low bytes,
      C from a comparison of the words; Z kept. */
  function AddHL(s: State, opcode: bv8): State {
    var prev := s.HL();
    var hl := Add16(prev, Pair(s, opcode) as int);
    var s1 := SetHL(Spend(s, 8), hl);
    s1.(regs := s1.regs.(f := AddHLFlagBits(s1.regs.f, prev, hl)))
  }

  /** The flag updates of ADD HL,rr, in the draft's order. */
  function AddHLFlagBits(f: bv8, prev: u16, hl: u16): bv8 {
    SetFlag(SetFlag(SetFlag(f, FN, false), FH, Lo(hl) < Lo(prev)), FC, hl < prev)
  }

  /** LD (rr),A: 8 cycles. */
  function StoreA(s: State, opcode: bv8): State {
    var (s1, addr) := AddrPair(Spend(s, 8), opcode);
    Poke(s1, addr, s.regs.a)
  }

  /** LD A,(rr): 8 cycles. */
  function LoadA(s: State, opcode: bv8): State {
    var (s1, addr) := AddrPair(Spend(s, 8), opcode);
    s1.(regs := s1.regs.(a := s.mem(addr)))
  }

  /** INC rr and DEC rr: 8 cycles, no flags. */
  function StepPair(s: State, opcode: bv8, delta: int): State {
    SetPair(Spend(s, 8), opcode, Add16(Pair(s, opcode), delta))
  }

  function ExecWide(s: State, opcode: bv8): State {
    var low := opcode & 0x0F;
    if low == 1 then LoadPair(s, opcode)
    else if low == 9 then AddHL(s, opcode)
    else if low == 2 then StoreA(s, opcode)
    else if low == 0xA then LoadA(s, opcode)
    else if low == 3 then StepPair(s, opcode, 1)
    else StepPair(s, opcode, -1)
  }

  // ------------------------------------------------- opcodes x4 to x7

  /** INC r and DEC r: 4 cycles, 12 for (HL); Z, N and H by
      `resolve_flags` without carry-in; C kept. */
  function IncDec(s: State, i: bv8, dec: bool): State
    requires i < 8
  {
    var pre := if i == 6 then s.mem(s.HL()) else Reg8(s, i);
    var post := if dec then pre - 1 else pre + 1;
    var s1 := if i == 6 then Poke(Spend(s, 12), s.HL(), post) else SetReg8(Spend(s, 4), i, post);
    s1.(regs := s1.regs.(f := ResolveFlags(s1.regs.f, if dec then FZ | FN | FH else FZ | FH, pre, post, false)))
  }

  /** LD r,n and LD (HL),n: 8 cycles. */
  function LoadImm(s: State, i: bv8): State
    requires i < 8
  {
    var (s1, n) := FetchByte(Spend(s, 8));
    if i == 6 then Poke(s1, s1.HL(), n) else SetReg8(s1, i, n)
  }

  /** Z, N and H cleared, as the four rotates of A begin. */
  function Cleared(f: bv8): bv8 {
    f & !(FZ | FN | FH)
  }

  /** RLCA, as (A, F): bit 7 goes to C and to bit 0. */
  function Rlca(a: bv8, f: bv8): (bv8, bv8) {
    var f1 := SetFlag(Cleared(f), FC, a & 0x80 != 0);
    ((a << 1) | (if Has(f1, FC) then 0x01 else 0), f1)
  }

  /** RRCA: bit 0 goes to C and to bit 7. */
  function Rrca(a: bv8, f: bv8): (bv8, bv8) {
    var f1 := SetFlag(Cleared(f), FC, a & 0x01 != 0);
    ((a >> 1) | (if Has(f1, FC) then 0x80 else 0), f1)
  }

  /** RLA: the old C comes in at bit 0, bit 7 goes to C. */
  function Rla(a: bv8, f: bv8): (bv8, bv8) {
    var c: bv8 := if Has(Cleared(f), FC) then 0x01 else 0;
    ((a << 1) | c, SetFlag(Cleared(f), FC, a & 0x80 != 0))
  }

  /** RRA: the old C comes in at bit 7, bit 0 goes to C. */
  function Rra(a: bv8, f: bv8): (bv8, bv8) {
    var c: bv8 := if Has(Cleared(f), FC) then 0x80 else 0;
    ((a >> 1) | c, SetFlag(Cleared(f), FC, a & 0x01 != 0))
  }

  /** CPL: A complemented, N and H set. */
  function Cpl(a: bv8, f: bv8): (bv8, bv8) {
    (!a, f | FN | FH)
  }

  /** SCF: N and H cleared, C set. */
  function Scf(f: bv8): bv8 {
    SetFlag(SetFlag(SetFlag(f, FN, false), FH, false), FC, true)
  }

  /** CCF: N and H cleared, C flipped. */
  function Ccf(f: bv8): bv8 {
    SetFlag(SetFlag(f, FN, false), FH, false) ^ FC
  }

  /** The eight accumulator and flag operations of column 7, as (A, F);
      the draft's DAA changes neither. */
  function Accumulator(k: bv8, a: bv8, f: bv8): (bv8, bv8)
    requires k < 8
  {
    if k == 0 then Rlca(a, f)
    else if k == 1 then Rrca(a, f)
    else if k == 2 then Rla(a, f)
    else if k == 3 then Rra(a, f)
    else if k == 4 then (a, f)
    else if k == 5 then Cpl(a, f)
    else if k == 6 then (a, Scf(f))
    else (a, Ccf(f))
  }

  /** Column 7: 4 cycles each. */
  function ExecAccumulator(s: State, k: bv8): State
    requires k < 8
  {
    var (a, f) := Accumulator(k, s.regs.a, s.regs.f);
    Spend(s, 4).(regs := s.regs.(a := a, f := f))
  }

  // ------------------------------------------------- dispatch and clock

  /** The draft's `run_instruction` after the opcode fetch: only the group
      with top bits 00 is decoded. */
  function Dispatch(s: State, opcode: bv8): State {
    var low := opcode & 7;
    if opcode >> 6 != 0 then s
    else if low == 0 then ExecMisc(s, opcode)
    else if opcode & 4 == 0 then ExecWide(s, opcode)
    else if low == 4 then IncDec(s, (opcode >> 3) & 7, false)
    else if low == 5 then IncDec(s, (opcode >> 3) & 7, true)
    else if low == 6 then LoadImm(s, (opcode >> 3) & 7)
    else ExecAccumulator(s, (opcode >> 3) & 7)
  }

  /** `run_instruction`: fetch, then execute. */
  function Execute(s: State): State {
    var (s1, opcode) := FetchByte(s);
    Dispatch(s1, opcode)
  }

  /** `clock`: nothing while stopped; otherwise an instruction starts when
      the countdown is at 0, and the countdown drops by one. */
  function Clock(s: State): State {
    if s.stopped then s
    else
      var s1 := if s.cycles == 0 then Execute(s) else s;
      s1.(cycles := s1.cycles - 1)
  }

  /** `n` calls of `clock`. */
  function Clocks(s: State, n: nat): State
    decreases n
  {
    if n == 0 then s else Clocks(Clock(s), n - 1)
  }

  /** The cycles the draft charges for an opcode, as its comments list
      them: an independent table against which `Execute` is proved. */
  function Cost(opcode: bv8, f: bv8): nat {
    if opcode >> 6 != 0 then 0
    else if opcode == 0x00 then 4
    else if opcode == 0x08 then 20
    else if opcode == 0x10 then 0
    else if opcode == 0x18 then 12
    else if opcode & 0xE7 == 0x20 then (if EvalCond(f, opcode) then 12 else 8)
    else if opcode & 0x0F == 0x01 then 12
    else if opcode & 0x07 in {1, 2, 3} then 8
    else if opcode & 0x07 in {4, 5} then (if (opcode >> 3) & 7 == 6 then 12 else 4)
    else if opcode & 0x07 == 6 then 8
    else 4
  }

  // ---------------------------------------------------------- properties

  /** The low byte of a 16-bit sum is below the low byte of the first
      operand exactly when the low bytes carry out of bit 7. */
  lemma LowByteCarry(p: int, q: int)
    requires 0 <= p < 0x10000 && 0 <= q < 0x10000
    ensures ((p + q) % 0x10000) % 256 < p % 256 <==> p % 256 + q % 256 > 0xFF
  {
    P.SumModulo(p, q, 256, 256);
    P.WrapSum(p % 256, q % 256, 256);
  }

  /** ADD HL,rr: HL becomes the 16-bit sum, N is cleared and Z kept; C is
      the carry out of bit 15, and H, compared on the low bytes, the carry
      out of bit 7. */
  lemma {:induction false} AddHLFlags(s: State, opcode: bv8)
    ensures var r := AddHL(s, opcode);
            var rr := Pair(s, opcode);
            r.HL() == Add16(s.HL(), rr as int) && r.cycles == s.cycles + 8 &&
            !Has(r.regs.f, FN) && Has(r.regs.f, FZ) == Has(s.regs.f, FZ) &&
            (Has(r.regs.f, FH) <==> Lo(s.HL()) as int + Lo(rr) as int > 0xFF) &&
            (Has(r.regs.f, FC) <==> s.HL() as int + rr as int > 0xFFFF)
  {
    var prev, rr := s.HL(), Pair(s, opcode);
    var hl := Add16(prev, rr as int);
    PackOfHalves(hl);
    LoAsInt(prev);
    LoAsInt(rr);
    LoAsInt(hl);
    ByteLess(Lo(hl), Lo(prev));
    LowByteCarry(prev as int, rr as int);
    P.WrapSum(prev as int, rr as int, 0x10000);
  }

  /** The draft's H flag for ADD HL,rr is not the carry out of bit 11:
      0x00FF + 0x0001 carries out of bit 7 only, yet the draft sets H, while
      the flags of src/sm83.c leave it clear. */
  lemma AddHLHalfCarryDiffers(f: bv8)
    ensures Has(AddHLFlagBits(f, 0x00FF, 0x0100), FH)
    ensures !Has(S.AddHLFlags(f, 0x00FF, 0x0100), FH)
  {
    assert Add16(0x00FF, 1) == 0x0100;
    P.AddHLCarries(f, 0x00FF, 0x0001);
  }

  /** Opcodes with top bits 01, 10 or 11 only move PC past the opcode. */
  lemma UndecodedOnlyFetch(s: State)
    requires s.mem(s.pc) >> 6 != 0
    ensures Execute(s) == s.(pc := Add16(s.pc, 1))
  {
  }

  /** STOP skips the byte after it and sets `stopped`, at no cost. */
  lemma StopSkipsByte(s: State)
    requires s.mem(s.pc) == 0x10
    ensures Execute(s) == s.(pc := Add16(s.pc, 2), stopped := true)
  {
    Add16Twice(s.pc, 1, 1);
  }

  /** DAA only spends its 4 cycles. */
  lemma DaaOnlyCycles(s: State)
    requires s.mem(s.pc) == 0x27
    ensures Execute(s) == s.(pc := Add16(s.pc, 1), cycles := s.cycles + 4)
  {
  }

  /** RLCA rotates A left with bit 7 into C and clears Z, N and H. */
  lemma RotateCircular(a: bv8, f: bv8)
    ensures var (a1, f1) := Rlca(a, f);
            a1 == (a << 1) | (a >> 7) && Flags(f1, false, false, false, a & 0x80 != 0)
  {
    var f1 := SetFlag(Cleared(f), FC, a & 0x80 != 0);
    assert (if Has(f1, FC) then 0x01 else 0) == a >> 7;
  }

  /** RRCA rotates A right with bit 0 into C and into bit 7. */
  lemma RotateCircularRight(a: bv8, f: bv8)
    ensures Rrca(a, f).0 == (a >> 1) | (if a & 0x01 != 0 then 0x80 else 0)
  {
    var f1 := SetFlag(Cleared(f), FC, a & 0x01 != 0);
    assert Has(f1, FC) == (a & 0x01 != 0);
  }

  /** RRCA undoes RLCA. */
  lemma RotateCircularRoundTrip(a: bv8, f: bv8)
    ensures Rrca(Rlca(a, f).0, Rlca(a, f).1).0 == a
  {
    RotateCircular(a, f);
    RotateCircularRight(Rlca(a, f).0, Rlca(a, f).1);
    RotateBits(a);
  }

  /** The bits of a byte rotated left by one. */
  lemma RotateBits(a: bv8)
    ensures var a1 := (a << 1) | (a >> 7);
            (if a1 & 0x01 != 0 then 0x80 else 0) == a & 0x80 && (a1 >> 1) | (a & 0x80) == a
  {
  }

  /** RLA then RRA gives A back, and C returns to its old value. */
  lemma RotateThroughCarry(a: bv8, f: bv8)
    ensures var (a1, f1) := Rla(a, f);
            Has(f1, FC) == (a & 0x80 != 0) && Rra(a1, f1) == (a, Cleared(f))
  {
    var (a1, f1) := Rla(a, f);
    assert Cleared(f1) == SetFlag(Cleared(f), FC, a & 0x80 != 0);
    assert a1 & 0x01 != 0 <==> Has(f, FC);
  }

  /** CPL twice gives A back; SCF sets C; CCF twice gives C back. */
  lemma FlagOps(a: bv8, f: bv8)
    ensures Cpl(Cpl(a, f).0, f).0 == a
    ensures Flags(Scf(f), Has(f, FZ), false, false, true)
    ensures Flags(Ccf(f), Has(f, FZ), false, false, !Has(f, FC))
    ensures Ccf(Ccf(f)) == f & !(FN | FH)
  {
  }

  /** The column-0 opcodes cost what `Cost` lists; only STOP stops. */
  lemma MiscCost(s: State, opcode: bv8)
    requires opcode >> 6 == 0 && opcode & 7 == 0
    ensures ExecMisc(s, opcode).cycles == s.cycles + Cost(opcode, s.regs.f)
    ensures ExecMisc(s, opcode).stopped == (s.stopped || opcode == 0x10)
  {
  }

  /** Columns 1 to 3 cost what `Cost` lists and never stop. */
  lemma WideCost(s: State, opcode: bv8)
    requires opcode >> 6 == 0 && opcode & 7 != 0 && opcode & 4 == 0
    ensures ExecWide(s, opcode).cycles == s.cycles + Cost(opcode, s.regs.f)
    ensures ExecWide(s, opcode).stopped == s.stopped
  {
  }

  /** Columns 4 to 7 cost what `Cost` lists and never stop. */
  lemma ColumnCost(s: State, opcode: bv8)
    requires opcode >> 6 == 0 && opcode & 4 != 0
    ensures Dispatch(s, opcode).cycles == s.cycles + Cost(opcode, s.regs.f)
    ensures Dispatch(s, opcode).stopped == s.stopped
  {
  }

  /** Every opcode costs what `Cost` lists, and only STOP sets `stopped`. */
  lemma {:induction false} ExecuteCost(s: State)
    ensures Execute(s).cycles == s.cycles + Cost(s.mem(s.pc), s.regs.f)
    ensures Execute(s).stopped == (s.stopped || s.mem(s.pc) == 0x10)
  {
    var (s1, op) := FetchByte(s);
    if op >> 6 == 0 {
      if op & 7 == 0 {
        MiscCost(s1, op);
      } else if op & 4 == 0 {
        WideCost(s1, op);
      } else {
        ColumnCost(s1, op);
      }
    }
  }

  /** A stopped CPU ignores the clock. */
  lemma {:induction false} StoppedIdles(s: State, n: nat)
    requires s.stopped
    ensures Clocks(s, n) == s
    decreases n
  {
    if n > 0 {
      StoppedIdles(s, n - 1);
    }
  }

  /** While the countdown does not pass through 0 at the start of a call,
      `clock` only counts down. */
  lemma {:induction false} CountdownOnly(s: State, n: nat)
    requires !s.stopped && (s.cycles < 0 || s.cycles >= n)
    ensures Clocks(s, n) == s.(cycles := s.cycles - n)
    decreases n
  {
    if n > 0 {
      CountdownOnly(s.(cycles := s.cycles - 1), n - 1);
    }
  }

  /** An instruction that costs `c > 0` cycles starts when the countdown is
      at 0, and the next one starts exactly `c` calls later. */
  lemma {:induction false} NextInstructionAfterCost(s: State)
    requires !s.stopped && s.cycles == 0 && s.mem(s.pc) != 0x10 && Cost(s.mem(s.pc), s.regs.f) > 0
    ensures var c := Cost(s.mem(s.pc), s.regs.f);
            Clocks(s, c) == Execute(s).(cycles := 0)
  {
    var c := Cost(s.mem(s.pc), s.regs.f);
    ExecuteCost(s);
    var r := Execute(s);
    assert Clock(s) == r.(cycles := c - 1);
    CountdownOnly(r.(cycles := c - 1), c - 1);
  }

  /** An opcode the draft does not decode costs nothing, so the countdown
      drops below 0 and no instruction ever starts again. */
  lemma {:induction false} UndecodedStalls(s: State, n: nat)
    requires !s.stopped && s.cycles == 0 && s.mem(s.pc) >> 6 != 0
    ensures Clocks(s, n + 1) == s.(pc := Add16(s.pc, 1), cycles := -1 - n)
  {
    UndecodedOnlyFetch(s);
    var r := s.(pc := Add16(s.pc, 1), cycles := -1);
    assert Clock(s) == r;
    CountdownOnly(r, n);
  }
}
