/** The CPU of the root draft sm83.c as an object whose fields its
    instructions update in place. Each method is proved to leave the object
    in the state the matching function of module DraftSm83Spec computes, so
    the properties proved there hold of the object. */
module DraftSm83 {
  import opened Bytes
  import opened Sm83Flags
  import S = Sm83Spec
  import D = DraftSm83Spec

  /** INC and DEC of a register: the stepped register, then the flags. */
  lemma IncDecRegUnfold(s: D.State, i: bv8, dec: bool, pre: bv8, s1: D.State, f: bv8)
    requires i < 8 && i != 6 && pre == D.Reg8(s, i)
    requires s1 == D.SetReg8(D.Spend(s, 4), i, if dec then pre - 1 else pre + 1)
    requires f == ResolveFlags(s1.regs.f, if dec then FZ | FN | FH else FZ | FH, pre, if dec then pre - 1 else pre + 1, false)
    ensures D.IncDec(s, i, dec) == s1.(regs := s1.regs.(f := f))
  {
  }

  /** INC and DEC of (HL): the byte written back, then the flags. */
  lemma IncDecHLUnfold(s: D.State, dec: bool, pre: bv8, s1: D.State, f: bv8)
    requires pre == s.mem(s.HL())
    requires s1 == D.Poke(D.Spend(s, 12), s.HL(), if dec then pre - 1 else pre + 1)
    requires f == ResolveFlags(s1.regs.f, if dec then FZ | FN | FH else FZ | FH, pre, if dec then pre - 1 else pre + 1, false)
    ensures D.IncDec(s, 6, dec) == s1.(regs := s1.regs.(f := f))
  {
  }

  class Cpu {
    var a: bv8, f: bv8, b: bv8, c: bv8, d: bv8, e: bv8, h: bv8, l: bv8
    var sp: u16, pc: u16
    var cycles: int
    var stopped: bool
    var mem: S.Memory

    /** The object as a state value. */
    function State(): D.State
      reads this
    {
      D.State(S.Regs(a, f, b, c, d, e, h, l), sp, pc, cycles, stopped, mem)
    }

    function HL(): u16
      reads this
    {
      Pack(h, l)
    }

    constructor (s: D.State)
      ensures State() == s
    {
      a, f, b, c, d, e, h, l := s.regs.a, s.regs.f, s.regs.b, s.regs.c, s.regs.d, s.regs.e, s.regs.h, s.regs.l;
      sp, pc, cycles, stopped, mem := s.sp, s.pc, s.cycles, s.stopped, s.mem;
    }

    // ---------------------------------------------------------- flags

    /** `set_flag`. */
    method SetFlag(flag: bv8, val: bool)
      modifies this`f
      ensures f == Sm83Flags.SetFlag(old(f), flag, val)
    {
      if val {
        f := f | flag;
      } else {
        f := f & !flag;
      }
    }

    /** The draft's `resolve_flags`: N from the request, then Z, H and C
        when requested, H and C by plain comparisons with no carry-in. */
    method ResolveFlags(flags: bv8, pre: bv8, post: bv8)
      modifies this`f
      ensures f == Sm83Flags.ResolveFlags(old(f), flags, pre, post, false)
    {
      SetFlag(FN, flags & FN != 0);
      if flags & FZ != 0 {
        SetFlag(FZ, post == 0);
      }
      if flags & FH != 0 {
        if flags & FN != 0 {
          SetFlag(FH, (pre & 0x0F) < (post & 0x0F));
        } else {
          SetFlag(FH, (pre & 0x0F) > (post & 0x0F));
        }
      }
      if flags & FC != 0 {
        if flags & FN != 0 {
          SetFlag(FC, pre < post);
        } else {
          SetFlag(FC, pre > post);
        }
      }
    }

    // ------------------------------------------------------------ bus

    method Write8(addr: u16, v: bv8)
      modifies this`mem
      ensures State() == D.Poke(old(State()), addr, v)
    {
      mem := S.Store(mem, addr, v);
    }

    method Write16(addr: u16, w: u16)
      modifies this`mem
      ensures State() == D.Write16(old(State()), addr, w)
    {
      Write8(addr, Lo(w));
      Write8(Add16(addr, 1), Hi(w));
    }

    /** `read8(PC++)`. */
    method FetchByte() returns (v: bv8)
      modifies this`pc
      ensures (State(), v) == D.FetchByte(old(State()))
    {
      v := mem(pc);
      pc := Add16(pc, 1);
    }

    /** `read16(PC++); PC++`. */
    method FetchWord() returns (w: u16)
      modifies this`pc
      ensures (State(), w) == D.FetchWord(old(State()))
    {
      var at := pc;
      pc := Add16(pc, 1);
      w := Pack(mem(Add16(at, 1)), mem(at));
      pc := Add16(pc, 1);
      Add16Twice(at, 1, 1);
    }

    // ------------------------------------------------------ registers

    method SetReg8(i: bv8, v: bv8)
      requires i < 8 && i != 6
      modifies this`a, this`b, this`c, this`d, this`e, this`h, this`l
      ensures State() == D.SetReg8(old(State()), i, v)
    {
      if i < 4 {
        SetBCDE(i, v);
      } else {
        SetHLA(i, v);
      }
    }

    method SetBCDE(i: bv8, v: bv8)
      requires i < 4
      modifies this`b, this`c, this`d, this`e
      ensures State() == D.SetReg8(old(State()), i, v)
    {
      if i == 0 {
        b := v;
      } else if i == 1 {
        c := v;
      } else if i == 2 {
        d := v;
      } else {
        e := v;
      }
    }

    method SetHLA(i: bv8, v: bv8)
      requires 4 <= i < 8 && i != 6
      modifies this`a, this`h, this`l
      ensures State() == D.SetReg8(old(State()), i, v)
    {
      if i == 4 {
        h := v;
      } else if i == 5 {
        l := v;
      } else {
        a := v;
      }
    }

    /** `*getr16g1(cpu, opcode) = w`. */
    method SetPair(opcode: bv8, w: u16)
      modifies this`b, this`c, this`d, this`e, this`h, this`l, this`sp
      ensures State() == D.SetPair(old(State()), opcode, w)
    {
      if (opcode >> 4) & 3 < 2 {
        SetBCDE16(opcode, w);
      } else {
        SetHLSP(opcode, w);
      }
    }

    method SetBCDE16(opcode: bv8, w: u16)
      requires (opcode >> 4) & 3 < 2
      modifies this`b, this`c, this`d, this`e
      ensures State() == D.SetPair(old(State()), opcode, w)
    {
      if (opcode >> 4) & 3 == 0 {
        b, c := Hi(w), Lo(w);
      } else {
        d, e := Hi(w), Lo(w);
      }
    }

    method SetHLSP(opcode: bv8, w: u16)
      requires (opcode >> 4) & 3 >= 2
      modifies this`h, this`l, this`sp
      ensures State() == D.SetPair(old(State()), opcode, w)
    {
      if (opcode >> 4) & 3 == 2 {
        h, l := Hi(w), Lo(w);
      } else {
        sp := w;
      }
    }

    /** `getr16g2`, with the HL post-increment and post-decrement. */
    method AddrPair(opcode: bv8) returns (addr: u16)
      modifies this`h, this`l
      ensures (State(), addr) == D.AddrPair(old(State()), opcode)
    {
      var p := (opcode >> 4) & 3;
      if p == 0 {
        addr := Pack(b, c);
      } else if p == 1 {
        addr := Pack(d, e);
      } else {
        addr := HL();
        var w := Add16(addr, if p == 2 then 1 else -1);
        h, l := Hi(w), Lo(w);
      }
    }

    // --------------------------------------------- column 0

    /** LD (nn),SP. */
    method StoreSp()
      modifies this`cycles, this`pc, this`mem
      ensures State() == D.StoreSp(old(State()))
    {
      cycles := cycles + 20;
      var addr := FetchWord();
      Write16(addr, sp);
    }

    /** STOP. */
    method Stop()
      modifies this`pc, this`stopped
      ensures State() == D.Stop(old(State()))
    {
      pc := Add16(pc, 1);
      stopped := true;
    }

    /** JR d. */
    method Jr()
      modifies this`cycles, this`pc
      ensures State() == D.Jr(old(State()))
    {
      cycles := cycles + 12;
      var disp := FetchByte();
      pc := Add16(pc, Signed(disp));
    }

    /** JR cc,d. */
    method JrCond(opcode: bv8)
      modifies this`cycles, this`pc
      ensures State() == D.JrCond(old(State()), opcode)
    {
      cycles := cycles + 8;
      var disp := FetchByte();
      if EvalCond(f, opcode) {
        cycles := cycles + 4;
        pc := Add16(pc, Signed(disp));
      }
    }

    method ExecMisc(opcode: bv8)
      modifies this`cycles, this`pc, this`mem, this`stopped
      ensures State() == D.ExecMisc(old(State()), opcode)
    {
      if opcode & 0x20 == 0 {
        var k := (opcode >> 3) & 3;
        if k == 0 {
          cycles := cycles + 4;
        } else if k == 1 {
          StoreSp();
        } else if k == 2 {
          Stop();
        } else {
          Jr();
        }
      } else {
        JrCond(opcode);
      }
    }

    // --------------------------------------------- columns 1 to 3

    /** LD rr,nn. */
    method LoadPair(opcode: bv8)
      modifies this`cycles, this`pc, this`b, this`c, this`d, this`e, this`h, this`l, this`sp
      ensures State() == D.LoadPair(old(State()), opcode)
    {
      cycles := cycles + 12;
      var nn := FetchWord();
      SetPair(opcode, nn);
    }

    /** ADD HL,rr. */
    method AddHL(opcode: bv8)
      modifies this`cycles, this`h, this`l, this`f
      ensures State() == D.AddHL(old(State()), opcode)
    {
      var prev := HL();
      var hl := Add16(prev, D.Pair(State(), opcode) as int);
      cycles := cycles + 8;
      h, l := Hi(hl), Lo(hl);
      AddHLFlags(prev, hl);
    }

    /** The flags of ADD HL,rr: N cleared, H from the low bytes, C from
        the words. */
    method AddHLFlags(prev: u16, hl: u16)
      modifies this`f
      ensures f == D.AddHLFlagBits(old(f), prev, hl)
    {
      SetFlag(FN, false);
      SetFlag(FH, Lo(hl) < Lo(prev));
      SetFlag(FC, hl < prev);
    }

    /** LD (rr),A. */
    method StoreA(opcode: bv8)
      modifies this`cycles, this`h, this`l, this`mem
      ensures State() == D.StoreA(old(State()), opcode)
    {
      cycles := cycles + 8;
      var addr := AddrPair(opcode);
      Write8(addr, a);
    }

    /** LD A,(rr). */
    method LoadA(opcode: bv8)
      modifies this`cycles, this`h, this`l, this`a
      ensures State() == D.LoadA(old(State()), opcode)
    {
      cycles := cycles + 8;
      var addr := AddrPair(opcode);
      a := mem(addr);
    }

    /** INC rr and DEC rr. */
    method StepPair(opcode: bv8, delta: int)
      modifies this`cycles, this`b, this`c, this`d, this`e, this`h, this`l, this`sp
      ensures State() == D.StepPair(old(State()), opcode, delta)
    {
      cycles := cycles + 8;
      SetPair(opcode, Add16(D.Pair(State(), opcode), delta));
    }

    method ExecWide(opcode: bv8)
      modifies this
      ensures State() == D.ExecWide(old(State()), opcode)
    {
      var low := opcode & 0x0F;
      if low == 1 {
        LoadPair(opcode);
      } else if low == 9 {
        AddHL(opcode);
      } else if low == 2 {
        StoreA(opcode);
      } else if low == 0xA {
        LoadA(opcode);
      } else if low == 3 {
        StepPair(opcode, 1);
      } else {
        StepPair(opcode, -1);
      }
    }

    // --------------------------------------------- columns 4 to 7

    /** INC r and DEC r on a register. */
    method IncDecReg(i: bv8, dec: bool)
      requires i < 8 && i != 6
      modifies this`cycles, this`a, this`b, this`c, this`d, this`e, this`h, this`l, this`f
      ensures State() == D.IncDec(old(State()), i, dec)
    {
      ghost var s := State();
      cycles := cycles + 4;
      var pre, post := StepReg(i, dec);
      ghost var s1 := State();
      ResolveFlags(if dec then FZ | FN | FH else FZ | FH, pre, post);
      assert State() == s1.(regs := s1.regs.(f := f));
      IncDecRegUnfold(s, i, dec, pre, s1, f);
    }

    /** Register `i` stepped up or down by one. */
    method StepReg(i: bv8, dec: bool) returns (pre: bv8, post: bv8)
      requires i < 8 && i != 6
      modifies this`a, this`b, this`c, this`d, this`e, this`h, this`l
      ensures pre == D.Reg8(old(State()), i) && post == (if dec then pre - 1 else pre + 1)
      ensures State() == D.SetReg8(old(State()), i, post)
    {
      pre := D.Reg8(State(), i);
      post := if dec then pre - 1 else pre + 1;
      SetReg8(i, post);
    }

    /** INC (HL) and DEC (HL). */
    method IncDecHL(dec: bool)
      modifies this`cycles, this`mem, this`f
      ensures State() == D.IncDec(old(State()), 6, dec)
    {
      ghost var s := State();
      cycles := cycles + 4;
      cycles := cycles + 8;
      var pre := mem(HL());
      var post := if dec then pre - 1 else pre + 1;
      Write8(HL(), post);
      ghost var s1 := State();
      ResolveFlags(if dec then FZ | FN | FH else FZ | FH, pre, post);
      assert State() == s1.(regs := s1.regs.(f := f));
      IncDecHLUnfold(s, dec, pre, s1, f);
    }

    /** LD r,n and LD (HL),n. */
    method LoadImm(i: bv8)
      requires i < 8
      modifies this`cycles, this`pc, this`a, this`b, this`c, this`d, this`e, this`h, this`l, this`mem
      ensures State() == D.LoadImm(old(State()), i)
    {
      cycles := cycles + 8;
      var n := FetchByte();
      if i == 6 {
        Write8(HL(), n);
      } else {
        SetReg8(i, n);
      }
    }

    /** Column 7: RLCA, RRCA, RLA, RRA, DAA, CPL, SCF and CCF. */
    method ExecAccumulator(k: bv8)
      requires k < 8
      modifies this`cycles, this`a, this`f
      ensures State() == D.ExecAccumulator(old(State()), k)
    {
      cycles := cycles + 4;
      if k < 4 {
        Rotate(k);
      } else {
        FlagOp(k);
      }
    }

    /** The four rotates of A. */
    method Rotate(k: bv8)
      requires k < 4
      modifies this`a, this`f
      ensures (a, f) == D.Accumulator(k, old(a), old(f))
    {
      if k == 0 {
        Rlca();
      } else if k == 1 {
        Rrca();
      } else if k == 2 {
        Rla();
      } else {
        Rra();
      }
    }

    /** DAA (nothing), CPL, SCF and CCF. */
    method FlagOp(k: bv8)
      requires 4 <= k < 8
      modifies this`a, this`f
      ensures (a, f) == D.Accumulator(k, old(a), old(f))
    {
      if k == 5 {
        a := !a;
        f := f | FN | FH;
      } else if k == 6 {
        Scf();
      } else if k == 7 {
        Ccf();
      }
    }

    method Rlca()
      modifies this`a, this`f
      ensures (a, f) == D.Rlca(old(a), old(f))
    {
      f := f & !(FZ | FN | FH);
      SetFlag(FC, a & 0x80 != 0);
      a := (a << 1) | (if f & FC != 0 then 0x01 else 0);
    }

    method Rrca()
      modifies this`a, this`f
      ensures (a, f) == D.Rrca(old(a), old(f))
    {
      f := f & !(FZ | FN | FH);
      SetFlag(FC, a & 0x01 != 0);
      a := (a >> 1) | (if f & FC != 0 then 0x80 else 0);
    }

    method Rla()
      modifies this`a, this`f
      ensures (a, f) == D.Rla(old(a), old(f))
    {
      f := f & !(FZ | FN | FH);
      var carry: bv8 := if f & FC != 0 then 0x01 else 0;
      SetFlag(FC, a & 0x80 != 0);
      a := (a << 1) | carry;
    }

    method Rra()
      modifies this`a, this`f
      ensures (a, f) == D.Rra(old(a), old(f))
    {
      f := f & !(FZ | FN | FH);
      var carry: bv8 := if f & FC != 0 then 0x80 else 0;
      SetFlag(FC, a & 0x01 != 0);
      a := (a >> 1) | carry;
    }

    method Scf()
      modifies this`f
      ensures f == D.Scf(old(f))
    {
      SetFlag(FN, false);
      SetFlag(FH, false);
      SetFlag(FC, true);
    }

    method Ccf()
      modifies this`f
      ensures f == D.Ccf(old(f))
    {
      SetFlag(FN, false);
      SetFlag(FH, false);
      f := f ^ FC;
    }

    // --------------------------------------------- dispatch and clock

    /** `run_instruction`. */
    method RunInstruction()
      modifies this
      ensures State() == D.Execute(old(State()))
    {
      var opcode := FetchByte();
      var low := opcode & 7;
      var i := (opcode >> 3) & 7;
      if opcode >> 6 != 0 {
        return;
      }
      if low == 0 {
        ExecMisc(opcode);
      } else if opcode & 4 == 0 {
        ExecWide(opcode);
      } else if low == 4 || low == 5 {
        if i == 6 {
          IncDecHL(low == 5);
        } else {
          IncDecReg(i, low == 5);
        }
      } else if low == 6 {
        LoadImm(i);
      } else {
        ExecAccumulator(i);
      }
    }

    /** `clock`. */
    method Clock()
      modifies this
      ensures State() == D.Clock(old(State()))
    {
      if stopped {
        return;
      }
      if cycles == 0 {
        RunInstruction();
      }
      cycles := cycles - 1;
    }
  }
}
