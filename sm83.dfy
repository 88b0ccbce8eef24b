/** The CPU of src/sm83.c as an object whose fields the instructions update
    in place: the register file, the interrupt latches, and the part of the
    machine the CPU touches (the bus, the tick counter, DIV and the HDMA
    flag). Every method is proved to leave the object in the state the
    corresponding function of module Sm83Spec computes from the old state,
    so the properties proved about those functions in Sm83Props hold of
    the object. */
module Sm83 {
  import opened Bytes
  import opened Sm83Flags
  import S = Sm83Spec

  /** INC (HL) and DEC (HL): the operand read, the store of the result and
      the flag update. */
  lemma IncDecHLUnfold(m: S.Machine, dec: bool, m1: S.Machine, pre: bv8, m2: S.Machine)
    requires (m1, pre) == S.Read8(m, m.HL())
    requires m2 == S.Write8(m1, m1.HL(), if dec then pre - 1 else pre + 1)
    ensures S.IncDec(m, 6, dec) ==
            m2.WithF(ResolveFlags(m2.regs.f, if dec then FZ | FN | FH else FZ | FH, pre,
                                  if dec then pre - 1 else pre + 1, false))
  {
  }

  /** INC and DEC of a register: the stepped register, then the flags. */
  lemma IncDecRegUnfold(m: S.Machine, i: bv8, dec: bool, pre: bv8, m2: S.Machine)
    requires i < 8 && i != 6 && pre == S.Reg8(m, i)
    requires m2 == S.SetReg8(m, i, if dec then pre - 1 else pre + 1)
    ensures S.IncDec(m, i, dec) ==
            m2.WithF(ResolveFlags(m.regs.f, if dec then FZ | FN | FH else FZ | FH, pre,
                                  if dec then pre - 1 else pre + 1, false))
  {
  }

  /** The interrupt check once a request is pending: the wake-up, then the
      service of the lowest request when IME is set. */
  lemma InterruptUnfold(m: S.Machine, m1: S.Machine, r: S.Machine)
    requires m.Peek(S.IE_ADDR) & m.Peek(S.IF_ADDR) != 0
    requires m1 == S.Wake(m)
    requires r == if m1.latch.ime then S.Service(m1, S.LowestPending(m.Peek(S.IE_ADDR) & m.Peek(S.IF_ADDR))) else m1
    ensures r == S.Interrupt(m)
  {
  }

  /** `cpu_clock` when neither the illegal-opcode latch nor HDMA holds the
      CPU: the interrupt check, the delayed EI, then a step. */
  lemma ClockUnfold(m: S.Machine, m1: S.Machine, m2: S.Machine, r: S.Machine)
    requires !m.latch.ill && !m.bus.hdma
    requires m1 == S.Interrupt(m)
    requires m2 == if m1.latch.ei then m1.(latch := m1.latch.(ime := true, ei := false)) else m1
    requires r == if !m2.latch.halt && !m2.latch.stop then S.Execute(m2) else S.Tick(m2)
    ensures r == S.Clock(m)
  {
  }

  class Cpu {
    var a: bv8, f: bv8, b: bv8, c: bv8, d: bv8, e: bv8, h: bv8, l: bv8
    var sp: u16, pc: u16
    var ime: bool, ei: bool, halt: bool, stop: bool, ill: bool
    var mem: S.Memory
    var cycles: int
    var div: u16
    var hdma: bool

    /** The object as a machine value. */
    function State(): S.Machine
      reads this
    {
      S.Machine(S.Regs(a, f, b, c, d, e, h, l), sp, pc,
                S.Latches(ime, ei, halt, stop, ill), S.Bus(mem, cycles, div, hdma))
    }

    function HL(): u16
      reads this
    {
      Pack(h, l)
    }

    constructor (m: S.Machine)
      ensures State() == m
    {
      a, f, b, c, d, e, h, l := m.regs.a, m.regs.f, m.regs.b, m.regs.c, m.regs.d, m.regs.e, m.regs.h, m.regs.l;
      sp, pc := m.sp, m.pc;
      ime, ei, halt, stop, ill := m.latch.ime, m.latch.ei, m.latch.halt, m.latch.stop, m.latch.ill;
      mem, cycles, div, hdma := m.bus.mem, m.bus.cycles, m.bus.div, m.bus.hdma;
    }

    // ------------------------------------------------------------ bus

    /** `gb_m_cycle`. */
    method MCycle()
      modifies this
      ensures State() == S.Tick(old(State()))
    {
      cycles := cycles + 4;
    }

    method Read8(addr: u16) returns (v: bv8)
      modifies this
      ensures (State(), v) == S.Read8(old(State()), addr)
    {
      v := mem(addr);
      MCycle();
    }

    method Write8(addr: u16, v: bv8)
      modifies this
      ensures State() == S.Write8(old(State()), addr, v)
    {
      mem := S.Store(mem, addr, v);
      MCycle();
    }

    method Read16(addr: u16) returns (w: u16)
      modifies this
      ensures (State(), w) == S.Read16(old(State()), addr)
    {
      var lo := Read8(addr);
      var hi := Read8(Add16(addr, 1));
      w := Pack(hi, lo);
    }

    method Write16(addr: u16, w: u16)
      modifies this
      ensures State() == S.Write16(old(State()), addr, w)
    {
      Write8(addr, Lo(w));
      Write8(Add16(addr, 1), Hi(w));
    }

    /** `read8(PC++)`. */
    method FetchByte() returns (v: bv8)
      modifies this
      ensures (State(), v) == S.FetchByte(old(State()))
    {
      var at := pc;
      pc := Add16(pc, 1);
      v := Read8(at);
    }

    /** `read16(PC++); PC++`. */
    method FetchWord() returns (w: u16)
      modifies this
      ensures (State(), w) == S.FetchWord(old(State()))
    {
      var at := pc;
      pc := Add16(pc, 2);
      w := Read16(at);
    }

    /** `push`. */
    method Push(w: u16)
      modifies this
      ensures State() == S.Push(old(State()), w)
    {
      sp := Add16(sp, -2);
      Write16(sp, w);
    }

    /** `pop`. */
    method Pop() returns (w: u16)
      modifies this
      ensures (State(), w) == S.Pop(old(State()))
    {
      var at := sp;
      w := Read16(at);
      sp := Add16(at, 2);
    }

    // ------------------------------------------------------ registers

    method SetReg8(i: bv8, v: bv8)
      requires i < 8 && i != 6
      modifies this`a, this`b, this`c, this`d, this`e, this`h, this`l
      ensures State() == S.SetReg8(old(State()), i, v)
    {
      if i < 4 {
        SetBCDE(i, v);
      } else {
        SetHLA(i, v);
      }
    }

    /** B, C, D or E. */
    method SetBCDE(i: bv8, v: bv8)
      requires i < 4
      modifies this`b, this`c, this`d, this`e
      ensures State() == S.SetReg8(old(State()), i, v)
    {
      if i == 0 {
        b := v;
      } else if i == 1 {
        c := v;
      } else if i == 2 {
        d := v;
      } else {
        e := v;
      }
    }

    /** H, L or A. */
    method SetHLA(i: bv8, v: bv8)
      requires 4 <= i < 8 && i != 6
      modifies this`a, this`h, this`l
      ensures State() == S.SetReg8(old(State()), i, v)
    {
      if i == 4 {
        h := v;
      } else if i == 5 {
        l := v;
      } else {
        a := v;
      }
    }

    /** `getr8src`. */
    method GetR8Src(opcode: bv8) returns (v: bv8)
      modifies this
      ensures (State(), v) == S.GetR8Src(old(State()), opcode)
    {
      var i := opcode & 7;
      if i == 6 {
        v := Read8(HL());
      } else {
        v := S.Reg8(State(), i);
      }
    }

    /** Store through `getr8dest`, or `write8(HL)` for its NULL target. */
    method PutR8(i: bv8, v: bv8)
      requires i < 8
      modifies this
      ensures State() == S.PutR8(old(State()), i, v)
    {
      if i == 6 {
        Write8(HL(), v);
      } else {
        SetReg8(i, v);
      }
    }

    method SetHL(w: u16)
      modifies this
      ensures State() == S.SetHL(old(State()), w)
    {
      h, l := Hi(w), Lo(w);
    }

    method SetBC(w: u16)
      modifies this
      ensures State() == S.SetBC(old(State()), w)
    {
      b, c := Hi(w), Lo(w);
    }

    method SetDE(w: u16)
      modifies this
      ensures State() == S.SetDE(old(State()), w)
    {
      d, e := Hi(w), Lo(w);
    }

    method SetAF(w: u16)
      modifies this
      ensures State() == S.SetAF(old(State()), w)
    {
      a, f := Hi(w), Lo(w);
    }

    /** `*getr16mod(cpu, opcode) = w`. */
    method SetR16Mod(opcode: bv8, w: u16)
      modifies this
      ensures State() == S.SetR16Mod(old(State()), opcode, w)
    {
      var p := (opcode >> 4) & 3;
      if p == 0 {
        SetBC(w);
      } else if p == 1 {
        SetDE(w);
      } else if p == 2 {
        SetHL(w);
      } else {
        sp := w;
      }
    }

    /** `*getr16stack(cpu, opcode) = w`. */
    method SetR16Stack(opcode: bv8, w: u16)
      modifies this
      ensures State() == S.SetR16Stack(old(State()), opcode, w)
    {
      var p := (opcode >> 4) & 3;
      if p == 0 {
        SetBC(w);
      } else if p == 1 {
        SetDE(w);
      } else if p == 2 {
        SetHL(w);
      } else {
        SetAF(w);
      }
    }

    /** `getr16addr`, with the HL post-increment and post-decrement. */
    method R16Addr(opcode: bv8) returns (addr: u16)
      modifies this
      ensures (State(), addr) == S.R16Addr(old(State()), opcode)
    {
      var p := (opcode >> 4) & 3;
      if p == 0 {
        addr := Pack(b, c);
      } else if p == 1 {
        addr := Pack(d, e);
      } else {
        addr := HL();
        SetHL(Add16(addr, if p == 2 then 1 else -1));
      }
    }

    /** `run_alu`: the result goes to A (except for CP) and the flags to F. */
    method RunAlu(opcode: bv8, operand: bv8)
      modifies this
      ensures var m := old(State());
              var r := Alu(opcode, m.regs.a, m.regs.f, operand);
              State() == m.(regs := m.regs.(a := r.a, f := r.f))
    {
      var r := Alu(opcode, a, f, operand);
      a, f := r.a, r.f;
    }

    // --------------------------------------------- instruction groups

    /** NOP, LD (nn),SP, STOP, JR d and JR cc,d. */
    method ExecMisc0(opcode: bv8)
      modifies this
      ensures State() == S.ExecMisc0(old(State()), opcode)
    {
      if opcode & 0x20 == 0 {
        var k := (opcode >> 3) & 3;
        if k == 1 {
          StoreSp();
        } else if k == 2 {
          Stop();
        } else if k == 3 {
          JumpRel();
        }
      } else {
        JumpRelCond(opcode);
      }
    }

    /** LD (nn),SP. */
    method StoreSp()
      modifies this
      ensures State() == S.StoreSp(old(State()))
    {
      var addr := FetchWord();
      Write16(addr, sp);
    }

    /** STOP, or the speed switch when KEY1 arms it. */
    method Stop()
      modifies this
      ensures State() == S.Stop(old(State()))
    {
      div := 0;
      var key1 := mem(S.KEY1_ADDR);
      if key1 & 1 != 0 {
        mem := S.Store(mem, S.KEY1_ADDR, !key1 & 0x80);
      } else {
        stop := true;
      }
    }

    /** JR d. */
    method JumpRel()
      modifies this
      ensures State() == S.JumpRel(old(State()))
    {
      var disp := FetchByte();
      MCycle();
      pc := Add16(pc, Signed(disp));
    }

    /** JR cc,d. */
    method JumpRelCond(opcode: bv8)
      modifies this
      ensures State() == S.JumpRelCond(old(State()), opcode)
    {
      var disp := FetchByte();
      if EvalCond(f, opcode) {
        MCycle();
        pc := Add16(pc, Signed(disp));
      }
    }

    /** LD rr,nn, ADD HL,rr, LD (rr),A, LD A,(rr), INC rr and DEC rr. */
    method ExecWide0(opcode: bv8)
      modifies this
      ensures State() == S.ExecWide0(old(State()), opcode)
    {
      var k := opcode & 0x0F;
      if k == 0x1 {
        LoadPair(opcode);
      } else if k == 0x9 {
        AddHL(opcode);
      } else if k == 0x2 {
        StoreA(opcode);
      } else if k == 0xA {
        LoadA(opcode);
      } else {
        StepPair(opcode, if k == 0x3 then 1 else -1);
      }
    }

    /** LD rr,nn. */
    method LoadPair(opcode: bv8)
      modifies this
      ensures State() == S.LoadPair(old(State()), opcode)
    {
      var nn := FetchWord();
      SetR16Mod(opcode, nn);
    }

    /** ADD HL,rr. */
    method AddHL(opcode: bv8)
      modifies this
      ensures State() == S.AddHL(old(State()), opcode)
    {
      MCycle();
      var prev := HL();
      var sum := Add16(prev, S.R16Mod(State(), opcode) as int);
      SetHL(sum);
      f := S.AddHLFlags(f, prev, sum);
    }

    /** LD (rr),A. */
    method StoreA(opcode: bv8)
      modifies this
      ensures State() == S.StoreA(old(State()), opcode)
    {
      var addr := R16Addr(opcode);
      Write8(addr, a);
    }

    /** LD A,(rr). */
    method LoadA(opcode: bv8)
      modifies this
      ensures State() == S.LoadA(old(State()), opcode)
    {
      var addr := R16Addr(opcode);
      a := Read8(addr);
    }

    /** INC rr and DEC rr. */
    method StepPair(opcode: bv8, delta: int)
      modifies this
      ensures State() == S.StepPair(old(State()), opcode, delta)
    {
      MCycle();
      var w := S.R16Mod(State(), opcode);
      SetR16Mod(opcode, Add16(w, delta));
    }

    /** INC r and DEC r on a register. */
    method IncDecReg(i: bv8, dec: bool)
      requires i < 8 && i != 6
      modifies this
      ensures State() == S.IncDec(old(State()), i, dec)
    {
      ghost var m := State();
      var pre, post := StepReg(i, dec);
      ghost var m2 := State();
      f := ResolveFlags(f, if dec then FZ | FN | FH else FZ | FH, pre, post, false);
      IncDecRegUnfold(m, i, dec, pre, m2);
    }

    /** Register `i` stepped up or down by one. */
    method StepReg(i: bv8, dec: bool) returns (pre: bv8, post: bv8)
      requires i < 8 && i != 6
      modifies this`a, this`b, this`c, this`d, this`e, this`h, this`l
      ensures pre == S.Reg8(old(State()), i) && post == (if dec then pre - 1 else pre + 1)
      ensures State() == S.SetReg8(old(State()), i, post)
    {
      pre := S.Reg8(State(), i);
      post := if dec then pre - 1 else pre + 1;
      SetReg8(i, post);
    }

    /** INC (HL) and DEC (HL): read, one bus write back. */
    method IncDecHL(dec: bool)
      modifies this
      ensures State() == S.IncDec(old(State()), 6, dec)
    {
      ghost var m := State();
      var pre := Read8(HL());
      ghost var m1 := State();
      var post := if dec then pre - 1 else pre + 1;
      Write8(HL(), post);
      ghost var m2 := State();
      f := ResolveFlags(f, if dec then FZ | FN | FH else FZ | FH, pre, post, false);
      IncDecHLUnfold(m, dec, m1, pre, m2);
    }

    /** INC r and DEC r. */
    method ExecIncDec(opcode: bv8)
      modifies this
      ensures State() == S.ExecIncDec(old(State()), opcode)
    {
      var i := (opcode >> 3) & 7;
      if i == 6 {
        IncDecHL(opcode & 1 == 1);
      } else {
        IncDecReg(i, opcode & 1 == 1);
      }
    }

    /** LD r,n. */
    method ExecLdN(opcode: bv8)
      modifies this
      ensures State() == S.ExecLdN(old(State()), opcode)
    {
      var n := FetchByte();
      PutR8((opcode >> 3) & 7, n);
    }

    /** RLCA RRCA RLA RRA DAA CPL SCF CCF. */
    method ExecAcc(opcode: bv8)
      modifies this
      ensures State() == S.ExecAcc(old(State()), opcode)
    {
      var r := AccOp((opcode >> 3) & 7, a, f);
      a, f := r.a, r.f;
    }

    /** HALT and LD r,r'. */
    method ExecLd(opcode: bv8)
      modifies this
      ensures State() == S.ExecLd(old(State()), opcode)
    {
      if opcode == 0x76 {
        halt := true;
      } else {
        var v := GetR8Src(opcode);
        PutR8((opcode >> 3) & 7, v);
      }
    }

    /** ALU A,r. */
    method ExecAlu(opcode: bv8)
      modifies this
      ensures State() == S.ExecAlu(old(State()), opcode)
    {
      var v := GetR8Src(opcode);
      RunAlu(opcode, v);
    }

    /** RET cc. */
    method RetCond(opcode: bv8)
      modifies this
      ensures State() == S.RetCond(old(State()), opcode)
    {
      MCycle();
      if EvalCond(f, opcode) {
        MCycle();
        pc := Pop();
      }
    }

    /** ADD SP,d. */
    method AddSp(d: bv8)
      modifies this
      ensures State() == S.AddSp(old(State()), d)
    {
      var pre := sp;
      MCycle();
      MCycle();
      var sum := Add16(pre, Signed(d));
      sp := sum;
      f := ResolveFlags(f & !FZ, FH | FC, Lo(pre), Lo(sum), false);
    }

    /** LD HL,SP+d. */
    method LdHlSp(d: bv8)
      modifies this
      ensures State() == S.LdHlSp(old(State()), d)
    {
      MCycle();
      SetHL(Add16(sp, Signed(d)));
      f := ResolveFlags(f & !FZ, FH | FC, Lo(sp), l, false);
    }

    /** RET cc, LDH (n),A, ADD SP,d, LDH A,(n) and LD HL,SP+d. */
    method ExecRet3(opcode: bv8)
      modifies this
      ensures State() == S.ExecRet3(old(State()), opcode)
    {
      if opcode & 0x20 == 0 {
        RetCond(opcode);
      } else {
        var k := (opcode >> 3) & 3;
        var n := FetchByte();
        if k == 0 {
          Write8(S.HighPage(n), a);
        } else if k == 1 {
          AddSp(n);
        } else if k == 2 {
          a := Read8(S.HighPage(n));
        } else {
          LdHlSp(n);
        }
      }
    }

    /** POP rr. */
    method PopPair(opcode: bv8)
      modifies this
      ensures State() == S.PopPair(old(State()), opcode)
    {
      var w := Pop();
      SetR16Stack(opcode, w);
      f := f & 0xF0;
    }

    /** RET and RETI. */
    method Return(reti: bool)
      modifies this
      ensures State() == S.Return(old(State()), reti)
    {
      MCycle();
      pc := Pop();
      if reti {
        ime := true;
      }
    }

    /** RET, RETI, JP HL and LD SP,HL. */
    method RetJump(opcode: bv8)
      modifies this
      ensures State() == S.RetJump(old(State()), opcode)
    {
      var k := (opcode >> 4) & 3;
      if k == 0 || k == 1 {
        Return(k == 1);
      } else if k == 2 {
        pc := HL();
      } else {
        MCycle();
        sp := HL();
      }
    }

    /** POP rr, RET, RETI, JP HL and LD SP,HL. */
    method ExecPop3(opcode: bv8)
      modifies this
      ensures State() == S.ExecPop3(old(State()), opcode)
    {
      if opcode & 0x08 == 0 {
        PopPair(opcode);
      } else {
        RetJump(opcode);
      }
    }

    /** JP cc,nn and LD through (FF00+C) and (nn). */
    method ExecJp3(opcode: bv8)
      modifies this
      ensures State() == S.ExecJp3(old(State()), opcode)
    {
      if opcode & 0x20 == 0 {
        var addr := FetchWord();
        if EvalCond(f, opcode) {
          MCycle();
          pc := addr;
        }
      } else {
        var k := (opcode >> 3) & 3;
        if k == 0 {
          Write8(S.HighPage(c), a);
        } else if k == 2 {
          a := Read8(S.HighPage(c));
        } else {
          var addr := FetchWord();
          if k == 1 {
            Write8(addr, a);
          } else {
            a := Read8(addr);
          }
        }
      }
    }

    /** The CB prefix. */
    method ExecCb()
      modifies this
      ensures State() == S.ExecCb(old(State()))
    {
      var cb := FetchByte();
      var v := GetR8Src(cb);
      var r := CbOp(cb, v, f);
      f := r.f;
      if r.store {
        PutR8(cb & 7, r.v);
      }
    }

    /** JP nn. */
    method JumpAbs()
      modifies this
      ensures State() == S.JumpAbs(old(State()))
    {
      var addr := FetchWord();
      MCycle();
      pc := addr;
    }

    /** JP nn, the CB prefix, DI, EI and the illegal-opcode latch. */
    method ExecCtl3(opcode: bv8)
      modifies this
      ensures State() == S.ExecCtl3(old(State()), opcode)
    {
      var k := (opcode >> 3) & 7;
      if k == 0 {
        JumpAbs();
      } else if k == 1 {
        ExecCb();
      } else if k == 6 {
        ime := false;
      } else if k == 7 {
        ei := true;
      } else {
        ill := true;
      }
    }

    /** `push(cpu, cpu->PC); gb_m_cycle; PC = target`. */
    method CallTo(target: u16)
      modifies this
      ensures State() == S.CallTo(old(State()), target)
    {
      Push(pc);
      MCycle();
      pc := target;
    }

    /** CALL cc,nn. */
    method ExecCallCc(opcode: bv8)
      modifies this
      ensures State() == S.ExecCallCc(old(State()), opcode)
    {
      var addr := FetchWord();
      if EvalCond(f, opcode) {
        CallTo(addr);
      }
    }

    /** PUSH rr and CALL nn. */
    method ExecPush3(opcode: bv8)
      modifies this
      ensures State() == S.ExecPush3(old(State()), opcode)
    {
      if opcode & 0x08 == 0 {
        MCycle();
        Push(S.R16Stack(State(), opcode));
      } else {
        var addr := FetchWord();
        CallTo(addr);
      }
    }

    /** ALU A,n. */
    method ExecAluN(opcode: bv8)
      modifies this
      ensures State() == S.ExecAluN(old(State()), opcode)
    {
      var n := FetchByte();
      RunAlu(opcode, n);
    }

    /** `run_instruction`. */
    method RunInstruction()
      modifies this
      ensures State() == S.Execute(old(State()))
    {
      var opcode := FetchByte();
      var group := opcode >> 6;
      var low := opcode & 7;
      if group == 0 {
        if low == 0 {
          ExecMisc0(opcode);
        } else if low < 4 {
          ExecWide0(opcode);
        } else if low < 6 {
          ExecIncDec(opcode);
        } else if low == 6 {
          ExecLdN(opcode);
        } else {
          ExecAcc(opcode);
        }
      } else if group == 1 {
        ExecLd(opcode);
      } else if group == 2 {
        ExecAlu(opcode);
      } else if low == 0 {
        ExecRet3(opcode);
      } else if low == 1 {
        ExecPop3(opcode);
      } else if low == 2 {
        ExecJp3(opcode);
      } else if low == 3 {
        ExecCtl3(opcode);
      } else if low == 4 {
        ExecCallCc(opcode);
      } else if low == 5 {
        ExecPush3(opcode);
      } else if low == 6 {
        ExecAluN(opcode);
      } else {
        CallTo((opcode & 0x38) as u16);
      }
    }

    // ----------------------------------------------------- interrupts

    /** The interrupt check at the top of `cpu_clock`, with the search for
        the lowest pending request. */
    method Interrupt()
      modifies this
      ensures State() == S.Interrupt(old(State()))
    {
      ghost var m := State();
      var pending := mem(S.IE_ADDR) & mem(S.IF_ADDR);
      if pending != 0 {
        Wake();
        ghost var m1 := State();
        TakeRequest(pending);
        InterruptUnfold(m, m1, State());
      }
    }

    /** With IME set, the lowest pending request is serviced. */
    method TakeRequest(pending: bv8)
      modifies this
      ensures State() == if old(ime) then S.Service(old(State()), S.LowestPending(pending)) else old(State())
    {
      if ime {
        var i := FindLowest(pending);
        ServiceInterrupt(i);
      }
    }

    /** HALT ends; STOP ends too when the joypad is among the requests. */
    method Wake()
      modifies this
      ensures State() == S.Wake(old(State()))
    {
      halt := false;
      if mem(S.IF_ADDR) & S.I_JOYPAD != 0 {
        stop := false;
      }
    }

    /** The dispatch loop's search: the first of the five request bits set
        in `pending`, or 5 when there is none. */
    method FindLowest(pending: bv8) returns (i: bv8)
      ensures i == S.LowestPending(pending)
    {
      i := 0;
      while i < 5 && !BitSet(pending, i)
        invariant i <= 5
        invariant S.LowestFrom(pending, i) == S.LowestPending(pending)
        decreases 5 - i
      {
        i := i + 1;
      }
    }

    /** Taking request `i`: two machine cycles, IME off, its IF bit
        cleared, then a call to 0x40 + 8 i. */
    method ServiceInterrupt(i: bv8)
      requires i <= 5
      modifies this
      ensures State() == S.Service(old(State()), i)
    {
      ghost var m := State();
      MCycle();
      MCycle();
      ime := false;
      mem := S.Store(mem, S.IF_ADDR, ResetBit(mem(S.IF_ADDR), i));
      var m1 := S.Tick(S.Tick(m));
      assert State() == m1.(latch := m1.latch.(ime := false)).Poke(S.IF_ADDR, ResetBit(m1.Peek(S.IF_ADDR), i));
      CallTo((0x40 + 8 * i as int) as u16);
    }

    /** `cpu_clock`. */
    method Clock()
      modifies this
      ensures State() == S.Clock(old(State()))
    {
      if ill {
        return;
      }
      if hdma {
        MCycle();
        return;
      }
      ghost var m := State();
      Interrupt();
      ghost var m1 := State();
      if ei {
        ime := true;
        ei := false;
      }
      ghost var m2 := State();
      if !halt && !stop {
        RunInstruction();
      } else {
        MCycle();
      }
      ClockUnfold(m, m1, m2, State());
    }
  }
}
