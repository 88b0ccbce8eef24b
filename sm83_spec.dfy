/** The SM83 instruction set of src/sm83.c as functions on a machine value:
    registers, the interrupt latches, an abstract 64 KiB bus and the tick
    counter. Every bus access and every internal machine cycle adds 4 to the
    counter. The `Cpu` class in module Sm83 is proved to follow these
    functions step by step. */
module Sm83Spec {
  import opened Bytes
  import opened Sm83Flags

  /** The bus as the CPU sees it: one byte per 16-bit address. */
  type Memory = u16 -> bv8

  /** The bus after storing `v` at `addr`. */
  function Store(mem: Memory, addr: u16, v: bv8): (r: Memory)
    ensures r(addr) == v
    ensures forall x: u16 | x != addr :: r(x) == mem(x)
  {
    x => if x == addr then v else mem(x)
  }

  // I/O locations the CPU reaches without going through the bus.
  const IF_ADDR: u16 := 0xFF0F
  const IE_ADDR: u16 := 0xFFFF
  const KEY1_ADDR: u16 := 0xFF4D
  /** The joypad interrupt bit of IF (src/gb.h). */
  const I_JOYPAD: bv8 := 0x10

  /** The 8-bit registers, the union overlay of src/sm83.h read byte by byte. */
  datatype Regs = Regs(a: bv8, f: bv8, b: bv8, c: bv8, d: bv8, e: bv8, h: bv8, l: bv8)

  /** IME, the delayed EI, HALT, STOP and the illegal-opcode latch. */
  datatype Latches = Latches(ime: bool, ei: bool, halt: bool, stop: bool, ill: bool)

  /** What the CPU sees of `struct gb`: the bus, the tick counter, the
      divider and whether an HDMA transfer is running. */
  datatype Bus = Bus(mem: Memory, cycles: int, div: u16, hdma: bool)

  datatype Machine = Machine(regs: Regs, sp: u16, pc: u16, latch: Latches, bus: Bus)
  {
    function AF(): u16 { Pack(regs.a, regs.f) }
    function BC(): u16 { Pack(regs.b, regs.c) }
    function DE(): u16 { Pack(regs.d, regs.e) }
    function HL(): u16 { Pack(regs.h, regs.l) }
    function Peek(addr: u16): bv8 { bus.mem(addr) }
    /** The machine with `v` stored at `addr`, no cycle spent. */
    function Poke(addr: u16, v: bv8): Machine { this.(bus := bus.(mem := Store(bus.mem, addr, v))) }
    function WithA(v: bv8): Machine { this.(regs := regs.(a := v)) }
    function WithF(v: bv8): Machine { this.(regs := regs.(f := v)) }
  }

  // ---------------------------------------------------------------- bus

  /** `gb_m_cycle`: one internal machine cycle. */
  function Tick(m: Machine): Machine {
    m.(bus := m.bus.(cycles := m.bus.cycles + 4))
  }

  /** The I/O page address `0xff00 + n` of LDH and LD (FF00+C). */
  function HighPage(n: bv8): u16 {
    (0xFF00 + n as int) as u16
  }

  /** `read8`: the byte at `addr`, one machine cycle. */
  function Read8(m: Machine, addr: u16): (Machine, bv8) {
    (Tick(m), m.Peek(addr))
  }

  /** `write8`: store one byte, one machine cycle. */
  function Write8(m: Machine, addr: u16, v: bv8): Machine {
    Tick(m).Poke(addr, v)
  }

  /** `read16`: little-endian, low byte first. */
  function Read16(m: Machine, addr: u16): (Machine, u16) {
    var (m1, lo) := Read8(m, addr);
    var (m2, hi) := Read8(m1, Add16(addr, 1));
    (m2, Pack(hi, lo))
  }

  /** `write16`: little-endian, low byte first. */
  function Write16(m: Machine, addr: u16, w: u16): Machine {
    Write8(Write8(m, addr, Lo(w)), Add16(addr, 1), Hi(w))
  }

  /** `read8(PC++)`: the next instruction byte. */
  function FetchByte(m: Machine): (Machine, bv8) {
    Read8(m.(pc := Add16(m.pc, 1)), m.pc)
  }

  /** `read16(PC++); PC++`: the next two instruction bytes. */
  function FetchWord(m: Machine): (Machine, u16) {
    Read16(m.(pc := Add16(m.pc, 2)), m.pc)
  }

  /** `push`: SP drops by two, then the word is written at the new SP. */
  function Push(m: Machine, w: u16): Machine {
    var m1 := m.(sp := Add16(m.sp, -2));
    Write16(m1, m1.sp, w)
  }

  /** `pop`: the word at SP, then SP rises by two. */
  function Pop(m: Machine): (Machine, u16) {
    var (m1, w) := Read16(m, m.sp);
    (m1.(sp := Add16(m.sp, 2)), w)
  }

  // ---------------------------------------------------------- registers

  /** The 8-bit register named by a 3-bit field: B C D E H L - A (6 is (HL)). */
  function Reg8(m: Machine, i: bv8): bv8
    requires i < 8 && i != 6
  {
    match i
    case 0 => m.regs.b
    case 1 => m.regs.c
    case 2 => m.regs.d
    case 3 => m.regs.e
    case 4 => m.regs.h
    case 5 => m.regs.l
    case _ => m.regs.a
  }

  /** The machine with the register named by `i` set to `v`. */
  function SetReg8(m: Machine, i: bv8, v: bv8): Machine
    requires i < 8 && i != 6
  {
    var r := m.regs;
    m.(regs := if i == 0 then r.(b := v)
               else if i == 1 then r.(c := v)
               else if i == 2 then r.(d := v)
               else if i == 3 then r.(e := v)
               else if i == 4 then r.(h := v)
               else if i == 5 then r.(l := v)
               else r.(a := v))
  }

  /** `getr8src`: the operand named by bits 0-2; (HL) costs a bus read. */
  function GetR8Src(m: Machine, opcode: bv8): (Machine, bv8) {
    var i := opcode & 7;
    if i == 6 then Read8(m, m.HL()) else (m, Reg8(m, i))
  }

  /** Store through the target `getr8dest` names (given as a 3-bit index);
      a NULL target (index 6) becomes `write8(HL)`. */
  function PutR8(m: Machine, i: bv8, v: bv8): Machine
    requires i < 8
  {
    if i == 6 then Write8(m, m.HL(), v) else SetReg8(m, i, v)
  }

  /** A register pair loaded with a word, high byte first. */
  function SetBC(m: Machine, w: u16): Machine {
    m.(regs := m.regs.(b := Hi(w), c := Lo(w)))
  }

  function SetDE(m: Machine, w: u16): Machine {
    m.(regs := m.regs.(d := Hi(w), e := Lo(w)))
  }

  function SetHL(m: Machine, w: u16): Machine {
    m.(regs := m.regs.(h := Hi(w), l := Lo(w)))
  }

  function SetAF(m: Machine, w: u16): Machine {
    m.(regs := m.regs.(a := Hi(w), f := Lo(w)))
  }

  /** `getr16mod`: BC DE HL SP by bits 4-5. */
  function R16Mod(m: Machine, opcode: bv8): u16 {
    var p := (opcode >> 4) & 3;
    if p == 0 then m.BC() else if p == 1 then m.DE() else if p == 2 then m.HL() else m.sp
  }

  function SetR16Mod(m: Machine, opcode: bv8, w: u16): (r: Machine)
    ensures R16Mod(r, opcode) == w
  {
    PackOfHalves(w);
    var p := (opcode >> 4) & 3;
    if p == 0 then SetBC(m, w)
    else if p == 1 then SetDE(m, w)
    else if p == 2 then SetHL(m, w)
    else m.(sp := w)
  }

  /** `getr16stack`: BC DE HL AF by bits 4-5. */
  function R16Stack(m: Machine, opcode: bv8): u16 {
    var p := (opcode >> 4) & 3;
    if p == 0 then m.BC() else if p == 1 then m.DE() else if p == 2 then m.HL() else m.AF()
  }

  function SetR16Stack(m: Machine, opcode: bv8, w: u16): (r: Machine)
    ensures R16Stack(r, opcode) == w
  {
    PackOfHalves(w);
    var p := (opcode >> 4) & 3;
    if p == 0 then SetBC(m, w)
    else if p == 1 then SetDE(m, w)
    else if p == 2 then SetHL(m, w)
    else SetAF(m, w)
  }

  /** `getr16addr`: BC, DE, then HL with a post-increment or post-decrement. */
  function R16Addr(m: Machine, opcode: bv8): (Machine, u16) {
    var p := (opcode >> 4) & 3;
    if p == 0 then (m, m.BC())
    else if p == 1 then (m, m.DE())
    else if p == 2 then (SetHL(m, Add16(m.HL(), 1)), m.HL())
    else (SetHL(m, Add16(m.HL(), -1)), m.HL())
  }

  // ------------------------------------------------- instruction groups

  /** LD (nn),SP. */
  function StoreSp(m: Machine): Machine {
    var (m1, addr) := FetchWord(m);
    Write16(m1, addr, m1.sp)
  }

  /** STOP: DIV is reset; with bit 0 of KEY1 armed the speed switch happens
      (KEY1 becomes the complement of its bit 7) instead of stopping. */
  function Stop(m: Machine): Machine {
    var key1 := m.Peek(KEY1_ADDR);
    var m1 := m.(bus := m.bus.(div := 0));
    if key1 & 1 != 0 then m1.Poke(KEY1_ADDR, !key1 & 0x80)
    else m1.(latch := m1.latch.(stop := true))
  }

  /** JR d: the displacement, one internal cycle, then PC moves by it. */
  function JumpRel(m: Machine): Machine {
    var (m1, disp) := FetchByte(m);
    Tick(m1).(pc := Add16(m1.pc, Signed(disp)))
  }

  /** JR cc,d: the displacement is fetched whether or not the jump is taken. */
  function JumpRelCond(m: Machine, opcode: bv8): Machine {
    var (m1, disp) := FetchByte(m);
    if EvalCond(m1.regs.f, opcode) then Tick(m1).(pc := Add16(m1.pc, Signed(disp))) else m1
  }

  /** Opcodes 00xxx000: NOP, LD (nn),SP, STOP, JR d and JR cc,d. */
  function ExecMisc0(m: Machine, opcode: bv8): Machine {
    if opcode & 0x20 == 0 then
      var k := (opcode >> 3) & 3;
      if k == 0 then m
      else if k == 1 then StoreSp(m)
      else if k == 2 then Stop(m)
      else JumpRel(m)
    else JumpRelCond(m, opcode)
  }

  /** The flags of ADD HL,rr: `resolve_flags(FH | FC, prev >> 8, H, (prev & 0xff) > L)`. */
  function AddHLFlags(f: bv8, prev: u16, sum: u16): bv8 {
    ResolveFlags(f, FH | FC, Hi(prev), Hi(sum), Lo(prev) > Lo(sum))
  }

  /** LD rr,nn. */
  function LoadPair(m: Machine, opcode: bv8): Machine {
    var (m1, nn) := FetchWord(m);
    SetR16Mod(m1, opcode, nn)
  }

  /** ADD HL,rr: one internal cycle, then the 16-bit sum and its flags. */
  function AddHL(m: Machine, opcode: bv8): Machine {
    var m1 := Tick(m);
    var prev := m1.HL();
    var sum := Add16(prev, R16Mod(m1, opcode) as int);
    SetHL(m1, sum).WithF(AddHLFlags(m1.regs.f, prev, sum))
  }

  /** LD (rr),A. */
  function StoreA(m: Machine, opcode: bv8): Machine {
    var (m1, addr) := R16Addr(m, opcode);
    Write8(m1, addr, m1.regs.a)
  }

  /** LD A,(rr). */
  function LoadA(m: Machine, opcode: bv8): Machine {
    var (m1, addr) := R16Addr(m, opcode);
    var (m2, v) := Read8(m1, addr);
    m2.WithA(v)
  }

  /** INC rr (`delta` 1) and DEC rr (`delta` -1): one internal cycle, no flags. */
  function StepPair(m: Machine, opcode: bv8, delta: int): Machine {
    var m1 := Tick(m);
    SetR16Mod(m1, opcode, Add16(R16Mod(m1, opcode), delta))
  }

  /** Opcodes 00xxx001-00xxx011: LD rr,nn, ADD HL,rr, LD (rr),A, LD A,(rr), INC rr, DEC rr. */
  function ExecWide0(m: Machine, opcode: bv8): Machine {
    var k := opcode & 0x0F;
    if k == 0x1 then LoadPair(m, opcode)
    else if k == 0x9 then AddHL(m, opcode)
    else if k == 0x2 then StoreA(m, opcode)
    else if k == 0xA then LoadA(m, opcode)
    else if k == 0x3 then StepPair(m, opcode, 1)
    else StepPair(m, opcode, -1)
  }

  /** INC (`dec` false) or DEC of the operand named by `i`, (HL) through the
      bus: Z tests the new value, N is set by DEC, H comes from the nibble
      boundary and C is kept. */
  function IncDec(m: Machine, i: bv8, dec: bool): Machine
    requires i < 8
  {
    var (m1, pre) := if i == 6 then Read8(m, m.HL()) else (m, Reg8(m, i));
    var post := if dec then pre - 1 else pre + 1;
    var m2 := PutR8(m1, i, post);
    m2.WithF(ResolveFlags(m2.regs.f, if dec then FZ | FN | FH else FZ | FH, pre, post, false))
  }

  /** Opcodes 00rrr100 and 00rrr101: INC r and DEC r. */
  function ExecIncDec(m: Machine, opcode: bv8): Machine {
    IncDec(m, (opcode >> 3) & 7, opcode & 1 == 1)
  }

  /** Opcodes 00rrr110: LD r,n. */
  function ExecLdN(m: Machine, opcode: bv8): Machine {
    var (m1, n) := FetchByte(m);
    PutR8(m1, (opcode >> 3) & 7, n)
  }

  /** Opcodes 00xxx111: RLCA RRCA RLA RRA DAA CPL SCF CCF. */
  function ExecAcc(m: Machine, opcode: bv8): Machine {
    var r := AccOp((opcode >> 3) & 7, m.regs.a, m.regs.f);
    m.(regs := m.regs.(a := r.a, f := r.f))
  }

  /** Opcodes 01xxxxxx: HALT (0x76) and LD r,r'. */
  function ExecLd(m: Machine, opcode: bv8): Machine {
    if opcode == 0x76 then m.(latch := m.latch.(halt := true))
    else
      var (m1, v) := GetR8Src(m, opcode);
      PutR8(m1, (opcode >> 3) & 7, v)
  }

  /** Opcodes 10xxxxxx: ALU A,r. */
  function ExecAlu(m: Machine, opcode: bv8): Machine {
    var (m1, v) := GetR8Src(m, opcode);
    var r := Alu(opcode, m1.regs.a, m1.regs.f, v);
    m1.(regs := m1.regs.(a := r.a, f := r.f))
  }

  /** RET cc: one internal cycle for the test, one more before the pop when
      the condition holds. */
  function RetCond(m: Machine, opcode: bv8): Machine {
    var m1 := Tick(m);
    if EvalCond(m1.regs.f, opcode) then
      var (m2, w) := Pop(Tick(m1));
      m2.(pc := w)
    else m1
  }

  /** ADD SP,d once `d` is fetched: two internal cycles; Z and N cleared,
      H and C from the low byte of SP. */
  function AddSp(m: Machine, d: bv8): Machine {
    var sp := Add16(m.sp, Signed(d));
    var m1 := Tick(Tick(m)).(sp := sp);
    m1.WithF(ResolveFlags(m1.regs.f & !FZ, FH | FC, Lo(m.sp), Lo(sp), false))
  }

  /** LD HL,SP+d once `d` is fetched: one internal cycle; flags as ADD SP,d. */
  function LdHlSp(m: Machine, d: bv8): Machine {
    var m1 := SetHL(Tick(m), Add16(m.sp, Signed(d)));
    m1.WithF(ResolveFlags(m1.regs.f & !FZ, FH | FC, Lo(m1.sp), m1.regs.l, false))
  }

  /** Opcodes 11xxx000: RET cc, LDH (n),A, ADD SP,d, LDH A,(n), LD HL,SP+d. */
  function ExecRet3(m: Machine, opcode: bv8): Machine {
    if opcode & 0x20 == 0 then RetCond(m, opcode)
    else
      var k := (opcode >> 3) & 3;
      var (m1, n) := FetchByte(m);
      if k == 0 then Write8(m1, HighPage(n), m1.regs.a)
      else if k == 1 then AddSp(m1, n)
      else if k == 2 then
        var (m2, v) := Read8(m1, HighPage(n));
        m2.WithA(v)
      else LdHlSp(m1, n)
  }

  /** POP rr: the pair is loaded from the stack, then F keeps only its high
      nibble (whichever pair was popped). */
  function PopPair(m: Machine, opcode: bv8): Machine {
    var (m1, w) := Pop(m);
    var m2 := SetR16Stack(m1, opcode, w);
    m2.WithF(m2.regs.f & 0xF0)
  }

  /** RET, and RETI which also sets IME: one internal cycle, then PC from the stack. */
  function Return(m: Machine, reti: bool): Machine {
    var (m1, w) := Pop(Tick(m));
    if reti then m1.(pc := w, latch := m1.latch.(ime := true)) else m1.(pc := w)
  }

  /** RET, RETI, JP HL and LD SP,HL. */
  function RetJump(m: Machine, opcode: bv8): Machine {
    var k := (opcode >> 4) & 3;
    if k == 0 || k == 1 then Return(m, k == 1)
    else if k == 2 then m.(pc := m.HL())
    else Tick(m).(sp := m.HL())
  }

  /** Opcodes 11xxx001: POP rr, RET, RETI, JP HL, LD SP,HL. */
  function ExecPop3(m: Machine, opcode: bv8): Machine {
    if opcode & 0x08 == 0 then PopPair(m, opcode) else RetJump(m, opcode)
  }

  /** Opcodes 11xxx010: JP cc,nn and the LD forms through (FF00+C) and (nn). */
  function ExecJp3(m: Machine, opcode: bv8): Machine {
    if opcode & 0x20 == 0 then
      var (m1, addr) := FetchWord(m);
      if EvalCond(m1.regs.f, opcode) then Tick(m1).(pc := addr) else m1
    else
      var k := (opcode >> 3) & 3;
      if k == 0 then Write8(m, HighPage(m.regs.c), m.regs.a)
      else if k == 2 then
        var (m1, v) := Read8(m, HighPage(m.regs.c));
        m1.WithA(v)
      else
        var (m1, addr) := FetchWord(m);
        if k == 1 then Write8(m1, addr, m1.regs.a)
        else
          var (m2, v) := Read8(m1, addr);
          m2.WithA(v)
  }

  /** The CB prefix: fetch the second byte, read the operand, apply the
      operation, and store the value back unless it was BIT. */
  function ExecCb(m: Machine): Machine {
    var (m1, cb) := FetchByte(m);
    var (m2, v) := GetR8Src(m1, cb);
    var r := CbOp(cb, v, m2.regs.f);
    var m3 := m2.WithF(r.f);
    if r.store then PutR8(m3, cb & 7, r.v) else m3
  }

  /** JP nn: the address, one internal cycle, then the jump. */
  function JumpAbs(m: Machine): Machine {
    var (m1, addr) := FetchWord(m);
    Tick(m1).(pc := addr)
  }

  /** Opcodes 11xxx011: JP nn, CB prefix, DI, EI; the four others latch `ill`. */
  function ExecCtl3(m: Machine, opcode: bv8): Machine {
    var k := (opcode >> 3) & 7;
    if k == 0 then JumpAbs(m)
    else if k == 1 then ExecCb(m)
    else if k == 6 then m.(latch := m.latch.(ime := false))
    else if k == 7 then m.(latch := m.latch.(ei := true))
    else m.(latch := m.latch.(ill := true))
  }

  /** `push(PC); gb_m_cycle; PC = target`, shared by CALL and RST. */
  function CallTo(m: Machine, target: u16): Machine {
    Tick(Push(m, m.pc)).(pc := target)
  }

  /** Opcodes 11xxx100: CALL cc,nn (bit 5 is not decoded, so 0xE4, 0xEC,
      0xF4 and 0xFC also run as conditional calls). */
  function ExecCallCc(m: Machine, opcode: bv8): Machine {
    var (m1, addr) := FetchWord(m);
    if EvalCond(m1.regs.f, opcode) then CallTo(m1, addr) else m1
  }

  /** Opcodes 11xxx101: PUSH rr and CALL nn (0xDD, 0xED and 0xFD too). */
  function ExecPush3(m: Machine, opcode: bv8): Machine {
    if opcode & 0x08 == 0 then
      var m1 := Tick(m);
      Push(m1, R16Stack(m1, opcode))
    else
      var (m1, addr) := FetchWord(m);
      CallTo(m1, addr)
  }

  /** Opcodes 11xxx110: ALU A,n. */
  function ExecAluN(m: Machine, opcode: bv8): Machine {
    var (m1, n) := FetchByte(m);
    var r := Alu(opcode, m1.regs.a, m1.regs.f, n);
    m1.(regs := m1.regs.(a := r.a, f := r.f))
  }

  /** `run_instruction` after the opcode fetch. */
  function Dispatch(m: Machine, opcode: bv8): Machine {
    var group := opcode >> 6;
    var low := opcode & 7;
    if group == 0 then
      if low == 0 then ExecMisc0(m, opcode)
      else if low < 4 then ExecWide0(m, opcode)
      else if low < 6 then ExecIncDec(m, opcode)
      else if low == 6 then ExecLdN(m, opcode)
      else ExecAcc(m, opcode)
    else if group == 1 then ExecLd(m, opcode)
    else if group == 2 then ExecAlu(m, opcode)
    else if low == 0 then ExecRet3(m, opcode)
    else if low == 1 then ExecPop3(m, opcode)
    else if low == 2 then ExecJp3(m, opcode)
    else if low == 3 then ExecCtl3(m, opcode)
    else if low == 4 then ExecCallCc(m, opcode)
    else if low == 5 then ExecPush3(m, opcode)
    else if low == 6 then ExecAluN(m, opcode)
    else CallTo(m, (opcode & 0x38) as u16)
  }

  /** `run_instruction`: fetch the opcode at PC and execute it. */
  function Execute(m: Machine): Machine {
    var (m1, opcode) := FetchByte(m);
    Dispatch(m1, opcode)
  }

  // ---------------------------------------------------------- interrupts

  /** The index the dispatch loop stops at: the lowest set bit among bits
      0-4 of `pending`, or 5 when none of them is set. */
  function LowestPending(pending: bv8): (i: bv8)
    ensures i <= 5
    ensures i < 5 ==> BitSet(pending, i)
    ensures forall j: bv8 | j < i :: !BitSet(pending, j)
  {
    LowestFrom(pending, 0)
  }

  function LowestFrom(pending: bv8, i: bv8): (r: bv8)
    requires i <= 5
    ensures i <= r <= 5
    ensures r < 5 ==> BitSet(pending, r)
    ensures forall j: bv8 | i <= j < r :: !BitSet(pending, j)
    decreases 5 - i
  {
    if i == 5 || BitSet(pending, i) then i else LowestFrom(pending, i + 1)
  }

  /** Two machine cycles, IME off, clear the IF bit, then push PC, one more
      machine cycle and jump to 0x40 + 8 i, as a call does. */
  function Service(m: Machine, i: bv8): Machine
    requires i <= 5
  {
    var m1 := Tick(Tick(m));
    var m2 := m1.(latch := m1.latch.(ime := false)).Poke(IF_ADDR, ResetBit(m1.Peek(IF_ADDR), i));
    CallTo(m2, (0x40 + 8 * i as int) as u16)
  }

  /** A pending request ends HALT; a joypad request also ends STOP. */
  function Wake(m: Machine): Machine {
    m.(latch := m.latch.(halt := false,
                         stop := if m.Peek(IF_ADDR) & I_JOYPAD != 0 then false else m.latch.stop))
  }

  /** The interrupt check of `cpu_clock`: any enabled pending request wakes
      the CPU, and is serviced when IME is set. */
  function Interrupt(m: Machine): Machine {
    var pending := m.Peek(IE_ADDR) & m.Peek(IF_ADDR);
    if pending == 0 then m
    else
      var m1 := Wake(m);
      if m1.latch.ime then Service(m1, LowestPending(pending)) else m1
  }

  /** `cpu_clock`: the illegal-opcode latch stops everything, an HDMA transfer
      takes one machine cycle; otherwise interrupts, the delayed EI, then an
      instruction (or an idle cycle while halted or stopped). */
  function Clock(m: Machine): Machine {
    if m.latch.ill then m
    else if m.bus.hdma then Tick(m)
    else
      var m1 := Interrupt(m);
      var m2 := if m1.latch.ei then m1.(latch := m1.latch.(ime := true, ei := false)) else m1;
      if !m2.latch.halt && !m2.latch.stop then Execute(m2) else Tick(m2)
  }
}
