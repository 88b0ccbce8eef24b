/** Properties of the SM83 model: the stack and the bus round-trip, POP
    masks F, the illegal-opcode latch freezes the CPU, interrupt dispatch,
    the ADD HL and ADD SP flags, relative jumps, CALL/RET and cycle costs. */
module Sm83Props {
  import opened Bytes
  import opened Sm83Flags
  import opened Sm83Spec

  /** The register file, everything but the bus, counters and latches. */
  predicate SameRegisters(m: Machine, n: Machine) {
    m.regs == n.regs
  }

  /** Writing a register through its 3-bit index changes that register and
      nothing else. */
  lemma SetReg8Frame(m: Machine, i: bv8, v: bv8)
    requires i < 8 && i != 6
    ensures var r := SetReg8(m, i, v);
            Reg8(r, i) == v &&
            (forall j: bv8 | j < 8 && j != 6 && j != i :: Reg8(r, j) == Reg8(m, j)) &&
            r.regs.f == m.regs.f && r.sp == m.sp && r.pc == m.pc && r.bus.mem == m.bus.mem && r.bus.cycles == m.bus.cycles &&
            r.latch.ime == m.latch.ime && r.latch.ill == m.latch.ill && r.latch.halt == m.latch.halt
  {
  }

  /** A word written with `write16` reads back with `read16`, after four bus
      cycles, and only the two addressed bytes change. */
  lemma {:induction false} Write16Read16(m: Machine, addr: u16, w: u16)
    ensures var m1 := Write16(m, addr, w);
            var (m2, v) := Read16(m1, addr);
            v == w && m2.bus.cycles == m.bus.cycles + 16 &&
            forall x: u16 | x != addr && x != Add16(addr, 1) :: m1.Peek(x) == m.Peek(x)
  {
    PackOfHalves(w);
    assert Add16(addr, 1) != addr;
  }

  /** `pop` undoes `push`: the word comes back, SP is restored, the registers
      are untouched and the four bus accesses cost 16 ticks. */
  lemma {:induction false} PushThenPop(m: Machine, w: u16)
    ensures var (m2, v) := Pop(Push(m, w));
            v == w && m2.sp == m.sp && m2.pc == m.pc && SameRegisters(m2, m) &&
            m2.bus.cycles == m.bus.cycles + 16
  {
    Write16Read16(m.(sp := Add16(m.sp, -2)), Add16(m.sp, -2), w);
  }

  /** The machine after the opcode fetch: PC advanced, one bus cycle. */
  function Fetched(m: Machine): (r: Machine)
    ensures r.pc == Add16(m.pc, 1) && r.bus.cycles == m.bus.cycles + 4
  {
    m.(pc := Add16(m.pc, 1), bus := m.bus.(cycles := m.bus.cycles + 4))
  }

  lemma ExecuteIsDispatch(m: Machine)
    ensures Execute(m) == Dispatch(Fetched(m), m.Peek(m.pc))
  {
  }

  /** Which group function `run_instruction` runs for an opcode. */
  lemma DispatchOf(m: Machine, op: bv8)
    ensures op >> 6 == 0 && op & 7 == 0 ==> Dispatch(m, op) == ExecMisc0(m, op)
    ensures op >> 6 == 0 && 0 < op & 7 < 4 ==> Dispatch(m, op) == ExecWide0(m, op)
    ensures op >> 6 == 0 && (op & 7 == 4 || op & 7 == 5) ==> Dispatch(m, op) == ExecIncDec(m, op)
    ensures op >> 6 == 1 ==> Dispatch(m, op) == ExecLd(m, op)
    ensures op >> 6 == 2 ==> Dispatch(m, op) == ExecAlu(m, op)
    ensures op >> 6 == 3 && op & 7 == 0 ==> Dispatch(m, op) == ExecRet3(m, op)
    ensures op >> 6 == 3 && op & 7 == 1 ==> Dispatch(m, op) == ExecPop3(m, op)
    ensures op >> 6 == 3 && op & 7 == 3 ==> Dispatch(m, op) == ExecCtl3(m, op)
    ensures op >> 6 == 3 && op & 7 == 5 ==> Dispatch(m, op) == ExecPush3(m, op)
    ensures op >> 6 == 3 && op & 7 == 7 ==> Dispatch(m, op) == CallTo(m, (op & 0x38) as u16)
  {
  }

  /** POP rr: the word at SP goes to the pair, SP rises by two, and F
      keeps only its high nibble whichever pair was popped. */
  lemma {:induction false} PopMasksF(m: Machine)
    requires m.Peek(m.pc) & 0xCF == 0xC1
    ensures var r := Execute(m);
            var w := Pack(m.Peek(Add16(m.sp, 1)), m.Peek(m.sp));
            r.regs.f & 0x0F == 0 && r.sp == Add16(m.sp, 2) && r.pc == Add16(m.pc, 1) &&
            r.bus.cycles == m.bus.cycles + 12 &&
            (m.Peek(m.pc) == 0xF1 ==> r.regs.a == m.Peek(Add16(m.sp, 1)) && r.regs.f == m.Peek(m.sp) & 0xF0) &&
            (m.Peek(m.pc) == 0xC1 ==> r.BC() == w) && (m.Peek(m.pc) == 0xD1 ==> r.DE() == w) &&
            (m.Peek(m.pc) == 0xE1 ==> r.HL() == w)
  {
    var op := m.Peek(m.pc);
    ExecuteIsDispatch(m);
    DispatchPop3(Fetched(m), op);
    PopStep(Fetched(m), op);
  }

  lemma DispatchPop3(m: Machine, op: bv8)
    requires op & 0xCF == 0xC1
    ensures Dispatch(m, op) == ExecPop3(m, op)
  {
    DispatchOf(m, op);
  }

  /** POP rr after the opcode fetch. */
  lemma PopStep(m: Machine, op: bv8)
    requires op & 0xCF == 0xC1
    ensures var r := ExecPop3(m, op);
            var w := Pack(m.Peek(Add16(m.sp, 1)), m.Peek(m.sp));
            r.regs.f & 0x0F == 0 && r.sp == Add16(m.sp, 2) && r.pc == m.pc &&
            r.bus.cycles == m.bus.cycles + 8 &&
            (op == 0xF1 ==> r.regs.a == m.Peek(Add16(m.sp, 1)) && r.regs.f == m.Peek(m.sp) & 0xF0) &&
            (op == 0xC1 ==> r.BC() == w) && (op == 0xD1 ==> r.DE() == w) && (op == 0xE1 ==> r.HL() == w)
  {
    HiOfPack(m.Peek(Add16(m.sp, 1)), m.Peek(m.sp));
    LoOfPack(m.Peek(Add16(m.sp, 1)), m.Peek(m.sp));
  }

  /** The four opcodes the decoder does not know latch `ill`; nothing else
      but PC and the fetch cycle changes. */
  lemma {:induction false} IllegalOpcodeLatches(m: Machine)
    requires m.Peek(m.pc) in {0xD3, 0xDB, 0xE3, 0xEB}
    ensures var r := Fetched(m); Execute(m) == r.(latch := r.latch.(ill := true))
  {
    var op := m.Peek(m.pc);
    ExecuteIsDispatch(m);
    DispatchCtl3(Fetched(m), op);
  }

  lemma DispatchCtl3(m: Machine, op: bv8)
    requires op in {0xD3, 0xDB, 0xE3, 0xEB}
    ensures Dispatch(m, op) == ExecCtl3(m, op)
  {
    DispatchOf(m, op);
  }

  /** `n` calls of `cpu_clock`. */
  function Run(m: Machine, n: nat): Machine
    decreases n
  {
    if n == 0 then m else Run(Clock(m), n - 1)
  }

  /** Once `ill` is latched, the CPU never changes again: no cycles pass, no
      interrupt is taken. */
  lemma {:induction false} IllegalFreezes(m: Machine, n: nat)
    requires m.latch.ill
    ensures Run(m, n) == m
    decreases n
  {
    if n > 0 {
      assert Clock(m) == m;
      IllegalFreezes(m, n - 1);
    }
  }

  /** An enabled pending request wakes the CPU from HALT, and only then;
      without one the interrupt check changes nothing. */
  lemma {:induction false} InterruptWakes(m: Machine)
    ensures var pending := m.Peek(IE_ADDR) & m.Peek(IF_ADDR);
            var r := Interrupt(m);
            (pending == 0 ==> r == m) &&
            (pending != 0 ==> !r.latch.halt) &&
            (pending != 0 && !m.latch.ime ==> r.pc == m.pc && r.bus.cycles == m.bus.cycles)
  {
  }

  /** Servicing request `i` takes the IF bit's word apart before the call:
      IME off, IF bit `i` cleared, two machine cycles. */
  function ServiceEntry(m: Machine, i: bv8): (r: Machine)
    requires i < 5
    ensures r.Peek(IF_ADDR) == ResetBit(m.Peek(IF_ADDR), i)
    ensures forall x: u16 | x != IF_ADDR :: r.Peek(x) == m.Peek(x)
    ensures Service(m, i) == CallTo(r, (0x40 + 8 * i as int) as u16)
  {
    var t := Tick(Tick(m));
    t.(latch := t.latch.(ime := false)).Poke(IF_ADDR, ResetBit(m.Peek(IF_ADDR), i))
  }

  /** Servicing request `i`: IME off, IF bit `i` cleared, the old PC pushed
      and PC at the vector, in five machine cycles. */
  lemma {:induction false} ServiceStep(m: Machine, i: bv8)
    requires i < 5
    requires Add16(m.sp, -2) != IF_ADDR && Add16(m.sp, -1) != IF_ADDR
    ensures var r := Service(m, i);
            r.pc == (0x40 + 8 * i as int) as u16 && !r.latch.ime && r.latch.halt == m.latch.halt &&
            r.Peek(IF_ADDR) == ResetBit(m.Peek(IF_ADDR), i) &&
            r.sp == Add16(m.sp, -2) && Pack(r.Peek(Add16(r.sp, 1)), r.Peek(r.sp)) == m.pc &&
            r.bus.cycles == m.bus.cycles + 20
  {
    CallToPushes(ServiceEntry(m, i), (0x40 + 8 * i as int) as u16);
  }

  /** A request among the low five bits is one of bits 0 to 4. */
  lemma SomeRequestSet(pending: bv8)
    requires pending & 0x1F != 0
    ensures BitSet(pending, 0) || BitSet(pending, 1) || BitSet(pending, 2) || BitSet(pending, 3) || BitSet(pending, 4)
  {
  }

  /** With IME set, the lowest enabled pending request among the five is
      serviced: IME is cleared, that IF bit alone is cleared, the old PC is
      pushed, PC jumps to its vector 0x40 + 8 i, and five machine cycles pass. */
  lemma {:induction false} InterruptDispatch(m: Machine)
    requires m.latch.ime
    requires m.Peek(IE_ADDR) & m.Peek(IF_ADDR) & 0x1F != 0
    requires Add16(m.sp, -2) != IF_ADDR && Add16(m.sp, -1) != IF_ADDR
    ensures var pending := m.Peek(IE_ADDR) & m.Peek(IF_ADDR);
            var i := LowestPending(pending);
            var r := Interrupt(m);
            i < 5 && BitSet(pending, i) &&
            (forall j: bv8 | j < i :: !BitSet(pending, j)) &&
            r.pc == (0x40 + 8 * i as int) as u16 && !r.latch.ime && !r.latch.halt &&
            r.Peek(IF_ADDR) == ResetBit(m.Peek(IF_ADDR), i) &&
            r.sp == Add16(m.sp, -2) && Pack(r.Peek(Add16(r.sp, 1)), r.Peek(r.sp)) == m.pc &&
            r.bus.cycles == m.bus.cycles + 20
  {
    var pending := m.Peek(IE_ADDR) & m.Peek(IF_ADDR);
    var i := LowestPending(pending);
    SomeRequestSet(pending);
    var m1 := Wake(m);
    assert Interrupt(m) == Service(m1, i);
    ServiceStep(m1, i);
  }

  /** The nibble comparison `resolve_flags` makes on the high bytes, with the
      low-byte carry, is the carry out of bit 11 of the 16-bit sum. */
  lemma HalfCarryOfSum(p: int, q: int)
    requires 0 <= p < 0x10000 && 0 <= q < 0x10000
    ensures var s := (p + q) % 0x10000;
            ((p / 256) % 16 > (s / 256) % 16 || ((p / 256) % 16 == (s / 256) % 16 && p % 256 > s % 256))
            == (p % 0x1000 + q % 0x1000 > 0x0FFF)
  {
    var s := (p + q) % 0x10000;
    LowTwelveBits(p);
    LowTwelveBits(s);
    SumModulo(p, q, 0x1000, 16);
    WrapSum(p % 0x1000, q % 0x1000, 0x1000);
    LexCompare(p % 0x1000, s % 0x1000);
  }

  /** The byte comparison `resolve_flags` makes on the high bytes, with the
      low-byte carry, is the carry out of bit 15. */
  lemma CarryOfSum(p: int, q: int)
    requires 0 <= p < 0x10000 && 0 <= q < 0x10000
    ensures var s := (p + q) % 0x10000;
            (p / 256 > s / 256 || (p / 256 == s / 256 && p % 256 > s % 256)) == (p + q > 0xFFFF)
  {
    WrapSum(p, q, 0x10000);
    LexCompare(p, (p + q) % 0x10000);
  }

  /** Comparing high bytes first, then low bytes, compares the numbers. */
  lemma LexCompare(a: int, b: int)
    requires a >= 0 && b >= 0
    ensures (a / 256 > b / 256 || (a / 256 == b / 256 && a % 256 > b % 256)) == (a > b)
  {
    assert a == 256 * (a / 256) + a % 256;
    assert b == 256 * (b / 256) + b % 256;
  }

  /** Bits 8-11 and 0-7 of a number are those of its low twelve bits. */
  lemma LowTwelveBits(x: int)
    requires x >= 0
    ensures (x / 256) % 16 == (x % 0x1000) / 256 && x % 256 == (x % 0x1000) % 256
  {
    var hi, u := x / 0x1000, x % 0x1000;
    var b, c := u / 256, u % 256;
    assert x == 256 * (16 * hi + b) + c;
    DivModUnique(x, 256, 16 * hi + b, c);
    DivModUnique(16 * hi + b, 16, hi, b);
  }

  /** The sum of two numbers below `n` wraps modulo `n` at most once. */
  lemma WrapSum(a: int, b: int, n: int)
    requires n > 0 && 0 <= a < n && 0 <= b < n
    ensures (a + b) % n == if a + b >= n then a + b - n else a + b
  {
    if a + b >= n {
      DivModUnique(a + b, n, 1, a + b - n);
    } else {
      DivModUnique(a + b, n, 0, a + b);
    }
  }

  /** Reducing modulo a multiple `n * k` of `n` first does not change the
      remainder modulo `n` of a sum. */
  lemma SumModulo(p: int, q: int, n: int, k: int)
    requires n > 0 && k > 0 && p >= 0 && q >= 0
    ensures ((p + q) % (n * k)) % n == (p % n + q % n) % n
  {
    var m := n * k;
    var t := p % n + q % n;
    var w := (p + q) / m;
    assert p + q == m * w + (p + q) % m;
    assert p == n * (p / n) + p % n;
    assert q == n * (q / n) + q % n;
    assert (p + q) % m == n * (p / n + q / n - k * w) + t by {
      assert m * w == n * (k * w);
    }
    ModUnique((p + q) % m, n, p / n + q / n - k * w + t / n, t % n);
  }

  /** ADD HL,rr: H is the carry out of bit 11 and C the carry out of bit 15
      of the sum, N is cleared and Z kept. */
  lemma {:induction false} AddHLCarries(f: bv8, prev: u16, rr: u16)
    ensures var r := AddHLFlags(f, prev, Add16(prev, rr as int));
            Has(r, FH) == (prev as int % 0x1000 + rr as int % 0x1000 > 0x0FFF) &&
            Has(r, FC) == (prev as int + rr as int > 0xFFFF) &&
            !Has(r, FN) && Has(r, FZ) == Has(f, FZ)
  {
    AddHLHalf(prev, rr);
    AddHLCarry(prev, rr);
  }

  /** The half-carry comparison of ADD HL,rr is the carry out of bit 11. */
  lemma AddHLHalf(prev: u16, rr: u16)
    ensures var s := Add16(prev, rr as int);
            HalfFlag(false, Hi(prev), Hi(s), Lo(prev) > Lo(s)) == (prev as int % 0x1000 + rr as int % 0x1000 > 0x0FFF)
  {
    var s := Add16(prev, rr as int);
    HiAsInt(prev);
    HiAsInt(s);
    LoAsInt(prev);
    LoAsInt(s);
    ByteLess(Lo(s), Lo(prev));
    HalfFlagWithCarry(Hi(prev), Hi(s), Lo(prev) > Lo(s));
    HalfCarryOfSum(prev as int, rr as int);
  }

  /** The carry comparison of ADD HL,rr is the carry out of bit 15. */
  lemma AddHLCarry(prev: u16, rr: u16)
    ensures var s := Add16(prev, rr as int);
            CarryFlag(false, Hi(prev), Hi(s), Lo(prev) > Lo(s)) == (prev as int + rr as int > 0xFFFF)
  {
    var s := Add16(prev, rr as int);
    HiAsInt(prev);
    HiAsInt(s);
    LoAsInt(prev);
    LoAsInt(s);
    ByteLess(Lo(s), Lo(prev));
    ByteLess(Hi(s), Hi(prev));
    CarryOfSum(prev as int, rr as int);
  }

  /** `resolve_flags`' nibble comparison with a carry-in, in numbers. */
  lemma HalfFlagWithCarry(pre: bv8, post: bv8, carry: bool)
    ensures HalfFlag(false, pre, post, carry) ==
            (pre as int % 16 > post as int % 16 || (pre as int % 16 == post as int % 16 && carry))
  {
    NibbleAsInt(pre);
    NibbleAsInt(post);
    ByteLess(post & 0x0F, pre & 0x0F);
  }

  /** JR d and JR cc,d after the opcode fetch. */
  lemma {:induction false} JumpRelativeStep(m: Machine, op: bv8)
    requires op in {0x18, 0x20, 0x28, 0x30, 0x38}
    ensures var r := ExecMisc0(m, op);
            var taken := op == 0x18 || EvalCond(m.regs.f, op);
            r.pc == (if taken then Add16(Add16(m.pc, 1), Signed(m.Peek(m.pc))) else Add16(m.pc, 1)) &&
            r.bus.cycles == m.bus.cycles + (if taken then 8 else 4) &&
            SameRegisters(r, m) && r.sp == m.sp && r.bus.mem == m.bus.mem
  {
  }

  /** JR d: PC moves by the signed displacement from the end of the
      instruction, after three machine cycles. */
  lemma {:induction false} RelativeJump(m: Machine)
    requires m.Peek(m.pc) == 0x18
    ensures var r := Execute(m);
            r.pc == Add16(m.pc, 2 + Signed(m.Peek(Add16(m.pc, 1)))) &&
            r.bus.cycles == m.bus.cycles + 12 && SameRegisters(r, m) && r.sp == m.sp
  {
    ExecuteIsDispatch(m);
    DispatchMisc0(Fetched(m), 0x18);
    JumpRelativeStep(Fetched(m), 0x18);
    Add16Twice(m.pc, 1, 1);
    Add16Twice(m.pc, 2, Signed(m.Peek(Add16(m.pc, 1))));
  }

  /** JR cc,d: the jump is taken exactly when the condition holds, and only
      a taken jump spends the extra machine cycle. */
  lemma {:induction false} ConditionalRelativeJump(m: Machine)
    requires m.Peek(m.pc) in {0x20, 0x28, 0x30, 0x38}
    ensures var r := Execute(m);
            var taken := EvalCond(m.regs.f, m.Peek(m.pc));
            r.pc == (if taken then Add16(m.pc, 2 + Signed(m.Peek(Add16(m.pc, 1)))) else Add16(m.pc, 2)) &&
            r.bus.cycles == m.bus.cycles + (if taken then 12 else 8)
  {
    var op := m.Peek(m.pc);
    ExecuteIsDispatch(m);
    DispatchMisc0(Fetched(m), op);
    JumpRelativeStep(Fetched(m), op);
    Add16Twice(m.pc, 1, 1);
    Add16Twice(m.pc, 2, Signed(m.Peek(Add16(m.pc, 1))));
  }

  lemma DispatchMisc0(m: Machine, op: bv8)
    requires op in {0x18, 0x20, 0x28, 0x30, 0x38}
    ensures Dispatch(m, op) == ExecMisc0(m, op)
  {
    DispatchOf(m, op);
  }

  /** A call (CALL, RST, interrupt service) pushes the return address below
      SP, changes no other byte, and jumps after three machine cycles. */
  lemma {:induction false} CallToPushes(m: Machine, target: u16)
    ensures var r := CallTo(m, target);
            r.pc == target && r.sp == Add16(m.sp, -2) &&
            Pack(r.Peek(Add16(r.sp, 1)), r.Peek(r.sp)) == m.pc &&
            (forall x: u16 | x != Add16(m.sp, -2) && x != Add16(m.sp, -1) :: r.Peek(x) == m.Peek(x)) &&
            SameRegisters(r, m) && r.latch.ime == m.latch.ime && r.latch.ill == m.latch.ill && r.latch.halt == m.latch.halt &&
            r.bus.cycles == m.bus.cycles + 12
  {
    assert Add16(Add16(m.sp, -2), 1) == Add16(m.sp, -1);
    Write16Read16(m.(sp := Add16(m.sp, -2)), Add16(m.sp, -2), m.pc);
  }

  /** CALL nn after the opcode fetch. */
  lemma {:induction false} CallStep(m: Machine)
    ensures var r := ExecPush3(m, 0xCD);
            r.pc == Pack(m.Peek(Add16(m.pc, 1)), m.Peek(m.pc)) &&
            r.sp == Add16(m.sp, -2) &&
            Pack(r.Peek(Add16(r.sp, 1)), r.Peek(r.sp)) == Add16(m.pc, 2) &&
            (forall x: u16 | x != Add16(m.sp, -2) && x != Add16(m.sp, -1) :: r.Peek(x) == m.Peek(x)) &&
            SameRegisters(r, m) && r.latch.ime == m.latch.ime && r.latch.ill == m.latch.ill &&
            r.bus.cycles == m.bus.cycles + 20
  {
    var (m1, addr) := FetchWord(m);
    assert ExecPush3(m, 0xCD) == CallTo(m1, addr);
    CallToPushes(m1, addr);
  }

  /** CALL nn: the address of the next instruction is pushed and PC jumps to
      nn, in six machine cycles; only the two stack bytes change. */
  lemma {:induction false} CallPushes(m: Machine)
    requires m.Peek(m.pc) == 0xCD
    ensures var r := Execute(m);
            r.pc == Pack(m.Peek(Add16(m.pc, 2)), m.Peek(Add16(m.pc, 1))) &&
            r.sp == Add16(m.sp, -2) &&
            Pack(r.Peek(Add16(r.sp, 1)), r.Peek(r.sp)) == Add16(m.pc, 3) &&
            (forall x: u16 | x != Add16(m.sp, -2) && x != Add16(m.sp, -1) :: r.Peek(x) == m.Peek(x)) &&
            SameRegisters(r, m) && r.latch.ime == m.latch.ime && r.latch.ill == m.latch.ill &&
            r.bus.cycles == m.bus.cycles + 24
  {
    ExecuteIsDispatch(m);
    DispatchOf(Fetched(m), 0xCD);
    CallStep(Fetched(m));
    Add16Twice(m.pc, 1, 1);
    Add16Twice(m.pc, 1, 2);
  }

  /** RET after the opcode fetch. */
  lemma {:induction false} RetStep(m: Machine)
    ensures var r := ExecPop3(m, 0xC9);
            r.pc == Pack(m.Peek(Add16(m.sp, 1)), m.Peek(m.sp)) && r.sp == Add16(m.sp, 2) &&
            r.bus.mem == m.bus.mem && SameRegisters(r, m) && r.latch.ime == m.latch.ime && r.latch.ill == m.latch.ill &&
            r.bus.cycles == m.bus.cycles + 12
  {
  }

  /** RET: PC is popped from the stack, in four machine cycles. */
  lemma {:induction false} RetPops(m: Machine)
    requires m.Peek(m.pc) == 0xC9
    ensures var r := Execute(m);
            r.pc == Pack(m.Peek(Add16(m.sp, 1)), m.Peek(m.sp)) && r.sp == Add16(m.sp, 2) &&
            r.bus.mem == m.bus.mem && SameRegisters(r, m) && r.latch.ime == m.latch.ime && r.latch.ill == m.latch.ill &&
            r.bus.cycles == m.bus.cycles + 16
  {
    ExecuteIsDispatch(m);
    DispatchOf(Fetched(m), 0xC9);
    RetStep(Fetched(m));
  }

  /** Machine-cycle costs of representative instructions: every bus access
      and every internal cycle is 4 ticks. */
  lemma {:induction false} CycleCosts(m: Machine)
    ensures m.Peek(m.pc) == 0x00 ==> Execute(m).bus.cycles == m.bus.cycles + 4
    ensures m.Peek(m.pc) == 0x01 ==> Execute(m).bus.cycles == m.bus.cycles + 12
    ensures m.Peek(m.pc) == 0x09 ==> Execute(m).bus.cycles == m.bus.cycles + 8
    ensures m.Peek(m.pc) == 0x34 ==> Execute(m).bus.cycles == m.bus.cycles + 12
    ensures m.Peek(m.pc) == 0x41 ==> Execute(m).bus.cycles == m.bus.cycles + 4
    ensures m.Peek(m.pc) == 0x86 ==> Execute(m).bus.cycles == m.bus.cycles + 8
    ensures m.Peek(m.pc) == 0xC3 ==> Execute(m).bus.cycles == m.bus.cycles + 16
    ensures m.Peek(m.pc) == 0xC5 ==> Execute(m).bus.cycles == m.bus.cycles + 16
    ensures m.Peek(m.pc) == 0xE8 ==> Execute(m).bus.cycles == m.bus.cycles + 16
    ensures m.Peek(m.pc) == 0xFF ==> Execute(m).bus.cycles == m.bus.cycles + 16
  {
    ExecuteIsDispatch(m);
    var f, op := Fetched(m), m.Peek(m.pc);
    CyclesOfGroup0(f, op);
    CyclesOfLoads(f, op);
    CyclesOfGroup3(f, op);
  }

  /** Machine cycles after the fetch for NOP, LD BC,nn, ADD HL,BC and INC (HL). */
  lemma CyclesOfGroup0(m: Machine, op: bv8)
    ensures op == 0x00 ==> Dispatch(m, op).bus.cycles == m.bus.cycles
    ensures op == 0x01 ==> Dispatch(m, op).bus.cycles == m.bus.cycles + 8
    ensures op == 0x09 ==> Dispatch(m, op).bus.cycles == m.bus.cycles + 4
    ensures op == 0x34 ==> Dispatch(m, op).bus.cycles == m.bus.cycles + 8
  {
    DispatchOf(m, op);
  }

  /** Machine cycles after the fetch for LD B,C and ADD A,(HL). */
  lemma CyclesOfLoads(m: Machine, op: bv8)
    ensures op == 0x41 ==> Dispatch(m, op).bus.cycles == m.bus.cycles
    ensures op == 0x86 ==> Dispatch(m, op).bus.cycles == m.bus.cycles + 4
  {
    DispatchOf(m, op);
  }

  /** Machine cycles after the fetch for JP nn, PUSH BC, ADD SP,d and RST 38h. */
  lemma CyclesOfGroup3(m: Machine, op: bv8)
    ensures op == 0xC3 ==> Dispatch(m, op).bus.cycles == m.bus.cycles + 12
    ensures op == 0xC5 ==> Dispatch(m, op).bus.cycles == m.bus.cycles + 12
    ensures op == 0xE8 ==> Dispatch(m, op).bus.cycles == m.bus.cycles + 12
    ensures op == 0xFF ==> Dispatch(m, op).bus.cycles == m.bus.cycles + 12
  {
    DispatchOf(m, op);
  }

  /** `resolve_flags` on a nibble comparison without carry-in, in numbers. */
  lemma HalfFlagAsInt(pre: bv8, post: bv8)
    ensures HalfFlag(false, pre, post, false) == (pre as int % 16 > post as int % 16)
  {
    NibbleAsInt(pre);
    NibbleAsInt(post);
    ByteLess(post & 0x0F, pre & 0x0F);
  }

  /** `resolve_flags` on a byte comparison without carry-in, in numbers. */
  lemma CarryFlagAsInt(pre: bv8, post: bv8)
    ensures CarryFlag(false, pre, post, false) == (pre as int > post as int)
  {
    ByteLess(post, pre);
  }

  lemma ModShift(x: int, y: int, z: int)
    requires y == z || y == z - 256
    ensures (x + y) % 256 == (x + z) % 256
  {
  }

  /** Adding the signed displacement to SP moves its low byte by the
      unsigned displacement byte, modulo 256. */
  lemma {:induction false} LoOfSignedAdd(sp: u16, d: bv8)
    ensures Lo(Add16(sp, Signed(d))) as int == (sp as int % 256 + d as int) % 256
  {
    LoAsInt(sp);
    LoOfAdd(sp, Signed(d));
    ModShift(Lo(sp) as int, Signed(d), d as int);
  }

  /** The comparisons of the low bytes before and after are the carries out
      of bits 3 and 7 of the low byte plus the displacement byte. */
  lemma ByteCarries(sp: int, d: int, lo: int, los: int)
    requires 0 <= sp < 0x10000 && 0 <= d < 256
    requires lo == sp % 256 && los == (sp % 256 + d) % 256
    ensures (lo % 16 > los % 16) == (sp % 16 + d % 16 > 15)
    ensures (lo > los) == (sp % 256 + d > 255)
  {
    WrapSum(lo, d, 256);
    SumModulo(lo, d, 16, 16);
    WrapSum(lo % 16, d % 16, 16);
    LowTwelveBits(sp);
    var hi, c := lo / 16, lo % 16;
    assert sp == 256 * (sp / 256) + 16 * hi + c;
    DivModUnique(sp, 16, 16 * (sp / 256) + hi, c);
  }

  /** The flags ADD SP,d and LD HL,SP+d compute: Z and N cleared, H and C the
      carries out of bits 3 and 7 of the low byte of SP plus the unsigned
      displacement byte. */
  lemma {:induction false} SpOffsetFlags(f: bv8, sp: u16, d: bv8)
    ensures var r := ResolveFlags(f & !FZ, FH | FC, Lo(sp), Lo(Add16(sp, Signed(d))), false);
            Flags(r, false, false, sp as int % 16 + d as int % 16 > 15, sp as int % 256 + d as int > 255)
  {
    var s := Add16(sp, Signed(d));
    LoAsInt(sp);
    LoOfSignedAdd(sp, d);
    HalfFlagAsInt(Lo(sp), Lo(s));
    CarryFlagAsInt(Lo(sp), Lo(s));
    ByteCarries(sp as int, d as int, Lo(sp) as int, Lo(s) as int);
  }

  /** ADD SP,d after the opcode fetch. */
  lemma {:induction false} AddSpStep(m: Machine)
    ensures var sum := Add16(m.sp, Signed(m.Peek(m.pc)));
            var r := ExecRet3(m, 0xE8);
            r.regs.f == ResolveFlags(m.regs.f & !FZ, FH | FC, Lo(m.sp), Lo(sum), false) &&
            r.pc == Add16(m.pc, 1) && r.sp == sum && r.bus.cycles == m.bus.cycles + 12 && r.HL() == m.HL()
  {
  }

  /** LD HL,SP+d after the opcode fetch. */
  lemma {:induction false} LdHlSpStep(m: Machine)
    ensures var sum := Add16(m.sp, Signed(m.Peek(m.pc)));
            var r := ExecRet3(m, 0xF8);
            r.regs.f == ResolveFlags(m.regs.f & !FZ, FH | FC, Lo(m.sp), Lo(sum), false) &&
            r.pc == Add16(m.pc, 1) && r.sp == m.sp && r.bus.cycles == m.bus.cycles + 8 && r.HL() == sum
  {
    PackOfHalves(Add16(m.sp, Signed(m.Peek(m.pc))));
  }

  /** ADD SP,d: SP moves by the signed displacement; H and C are the carries
      out of bits 3 and 7 of the low byte of SP plus the unsigned displacement
      byte; Z and N are cleared; four machine cycles. */
  lemma {:induction false} AddSpFlags(m: Machine)
    requires m.Peek(m.pc) == 0xE8
    ensures var d := m.Peek(Add16(m.pc, 1));
            var r := Execute(m);
            r.sp == Add16(m.sp, Signed(d)) && r.pc == Add16(m.pc, 2) && r.HL() == m.HL() &&
            Flags(r.regs.f, false, false,
                  m.sp as int % 16 + d as int % 16 > 15,
                  m.sp as int % 256 + d as int > 255) &&
            r.bus.cycles == m.bus.cycles + 16
  {
    ExecuteIsDispatch(m);
    DispatchOf(Fetched(m), 0xE8);
    AddSpStep(Fetched(m));
    SpOffsetFlags(m.regs.f, m.sp, m.Peek(Add16(m.pc, 1)));
    Add16Twice(m.pc, 1, 1);
  }

  /** LD HL,SP+d: HL gets SP plus the signed displacement, SP is kept, and the
      flags are those of ADD SP,d; three machine cycles. */
  lemma {:induction false} LdHlSpFlags(m: Machine)
    requires m.Peek(m.pc) == 0xF8
    ensures var d := m.Peek(Add16(m.pc, 1));
            var r := Execute(m);
            r.HL() == Add16(m.sp, Signed(d)) && r.sp == m.sp && r.pc == Add16(m.pc, 2) &&
            Flags(r.regs.f, false, false,
                  m.sp as int % 16 + d as int % 16 > 15,
                  m.sp as int % 256 + d as int > 255) &&
            r.bus.cycles == m.bus.cycles + 12
  {
    ExecuteIsDispatch(m);
    DispatchOf(Fetched(m), 0xF8);
    LdHlSpStep(Fetched(m));
    SpOffsetFlags(m.regs.f, m.sp, m.Peek(Add16(m.pc, 1)));
    Add16Twice(m.pc, 1, 1);
  }

  /** INC r and DEC r: H is the borrow or carry at the nibble boundary, Z
      tests the new value, N gives the direction and C is kept. */
  lemma {:induction false} IncDecFlags(m: Machine, opcode: bv8)
    requires opcode >> 6 == 0 && (opcode & 7 == 4 || opcode & 7 == 5) && (opcode >> 3) & 7 != 6
    ensures var i := (opcode >> 3) & 7;
            var dec := opcode & 7 == 5;
            var v := Reg8(m, i);
            var r := ExecIncDec(m, opcode);
            Reg8(r, i) == (if dec then v - 1 else v + 1) &&
            Flags(r.regs.f, Reg8(r, i) == 0, dec,
                  if dec then v & 0x0F == 0 else v & 0x0F == 0x0F, Has(m.regs.f, FC)) &&
            r.bus.cycles == m.bus.cycles
  {
  }
}
