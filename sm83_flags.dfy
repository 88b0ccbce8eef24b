/** The pure half of the SM83 core (src/sm83.c): flag bits, `set_flag`,
    `resolve_flags`, `eval_cond`, the eight ALU operations of `run_alu`,
    DAA, the accumulator rotates and the CB-prefix operations. Each is a
    function of register values; the CPU class applies them in place. */
module Sm83Flags {
  import opened Bytes

  // Flag bits of F (src/sm83.h:8).
  const FZ: bv8 := 0x80
  const FN: bv8 := 0x40
  const FH: bv8 := 0x20
  const FC: bv8 := 0x10

  predicate Has(f: bv8, flag: bv8) {
    f & flag != 0
  }

  /** The carry flag as the 0/1 addend used by ADC and SBC. */
  function CarryIn(f: bv8): (c: bv8)
    ensures c <= 1 && (c == 1 <==> Has(f, FC))
  {
    if Has(f, FC) then 1 else 0
  }

  /** `set_flag`: raise or lower the bits of `flag`, keep every other bit. */
  function SetFlag(f: bv8, flag: bv8, val: bool): (r: bv8)
    ensures r & flag == (if val then flag else 0)
    ensures r & !flag == f & !flag
  {
    if val then f | flag else f & !flag
  }

  /** The half-carry test of `resolve_flags`: the low nibble moved the "wrong"
      way between `pre` and `post`, or stayed put while a carry came in. */
  predicate HalfFlag(sub: bool, pre: bv8, post: bv8, carry: bool) {
    if sub then (pre & 0x0F) < (post & 0x0F) || ((pre & 0x0F) == (post & 0x0F) && carry)
    else (pre & 0x0F) > (post & 0x0F) || ((pre & 0x0F) == (post & 0x0F) && carry)
  }

  /** The carry test of `resolve_flags`, the same comparison on whole bytes. */
  predicate CarryFlag(sub: bool, pre: bv8, post: bv8, carry: bool) {
    if sub then pre < post || (pre == post && carry)
    else pre > post || (pre == post && carry)
  }

  /** `resolve_flags`: N follows the requested direction; Z, H and C are
      recomputed only when requested; the other bits of F are kept. */
  function ResolveFlags(f: bv8, flags: bv8, pre: bv8, post: bv8, carry: bool): (r: bv8)
    ensures Has(r, FN) == Has(flags, FN)
    ensures Has(r, FZ) == if Has(flags, FZ) then post == 0 else Has(f, FZ)
    ensures Has(r, FH) == if Has(flags, FH) then HalfFlag(Has(flags, FN), pre, post, carry) else Has(f, FH)
    ensures Has(r, FC) == if Has(flags, FC) then CarryFlag(Has(flags, FN), pre, post, carry) else Has(f, FC)
    ensures r & 0x0F == f & 0x0F
  {
    var sub := Has(flags, FN);
    var z := if Has(flags, FZ) then post == 0 else Has(f, FZ);
    var h := if Has(flags, FH) then HalfFlag(sub, pre, post, carry) else Has(f, FH);
    var c := if Has(flags, FC) then CarryFlag(sub, pre, post, carry) else Has(f, FC);
    WithFlags(f, z, sub, h, c)
  }

  /** The carry out of bit 3 of `a + v + c`. */
  predicate AddHalf(a: bv8, v: bv8, c: bv8) {
    (a & 0x0F) + (v & 0x0F) + c > 0x0F
  }

  /** The carry out of bit 7 of `a + v + c`. */
  predicate AddCarry(a: bv8, v: bv8, c: bv8) {
    (a as bv16) + (v as bv16) + (c as bv16) > 0xFF
  }

  /** The borrow into bit 3 of `a - v - c`. */
  predicate SubHalf(a: bv8, v: bv8, c: bv8) {
    (v & 0x0F) + c > (a & 0x0F)
  }

  /** The borrow into bit 7 of `a - v - c`. */
  predicate SubCarry(a: bv8, v: bv8, c: bv8) {
    (v as bv16) + (c as bv16) > (a as bv16)
  }

  /** With `post = pre + v + c`, the comparisons of `resolve_flags` are
      exactly the carries out of bit 3 and bit 7 of the addition. */
  lemma AdditionFlags(pre: bv8, v: bv8, c: bv8)
    requires c <= 1
    ensures HalfFlag(false, pre, pre + v + c, c == 1) == AddHalf(pre, v, c)
    ensures CarryFlag(false, pre, pre + v + c, c == 1) == AddCarry(pre, v, c)
  {
  }

  /** With `post = pre - v - c`, the comparisons of `resolve_flags` are
      exactly the borrows into bit 3 and bit 7 of the subtraction. */
  lemma SubtractionFlags(pre: bv8, v: bv8, c: bv8)
    requires c <= 1
    ensures HalfFlag(true, pre, pre - v - c, c == 1) == SubHalf(pre, v, c)
    ensures CarryFlag(true, pre, pre - v - c, c == 1) == SubCarry(pre, v, c)
  {
  }

  /** `eval_cond`: bits 3-4 of the opcode select NZ, Z, NC, C in that order;
      equivalently bit 4 picks the flag (Z or C) and bit 3 the polarity. */
  function EvalCond(f: bv8, opcode: bv8): (r: bool)
    ensures r == (Has(f, if opcode & 0x10 == 0 then FZ else FC) == (opcode & 0x08 != 0))
  {
    var cc := (opcode & 0x18) >> 3;
    if cc == 0 then !Has(f, FZ)
    else if cc == 1 then Has(f, FZ)
    else if cc == 2 then !Has(f, FC)
    else Has(f, FC)
  }

  /** The four flags of F at once. */
  predicate Flags(f: bv8, z: bool, n: bool, h: bool, c: bool) {
    Has(f, FZ) == z && Has(f, FN) == n && Has(f, FH) == h && Has(f, FC) == c
  }

  /** F with the four flags replaced and the (unused) low nibble kept. */
  function WithFlags(f: bv8, z: bool, n: bool, h: bool, c: bool): (r: bv8)
    ensures Flags(r, z, n, h, c) && r & 0x0F == f & 0x0F
  {
    (if z then FZ else 0) | (if n then FN else 0) | (if h then FH else 0) | (if c then FC else 0) | (f & 0x0F)
  }

  /** The accumulator and the flag register after an operation. */
  datatype AccF = AccF(a: bv8, f: bv8)

  /** ADD and ADC: `resolve_flags(FZ | FH | FC, A, A + v + c, c)`; H and C
      come out as the carries of the 9-bit sum. */
  function AddOp(a: bv8, f: bv8, v: bv8, c: bv8): (r: AccF)
    requires c <= 1
    ensures r.a == a + v + c && r.f & 0x0F == f & 0x0F
    ensures Flags(r.f, r.a == 0, false, AddHalf(a, v, c), AddCarry(a, v, c))
  {
    var post := a + v + c;
    AdditionFlags(a, v, c);
    AccF(post, ResolveFlags(f, FZ | FH | FC, a, post, c == 1))
  }

  /** SUB, SBC and CP: `resolve_flags(FZ | FN | FH | FC, A, A - v - c, c)`;
      H and C come out as the borrows of the difference. */
  function SubOp(a: bv8, f: bv8, v: bv8, c: bv8): (r: AccF)
    requires c <= 1
    ensures r.a == a - v - c && r.f & 0x0F == f & 0x0F
    ensures Flags(r.f, r.a == 0, true, SubHalf(a, v, c), SubCarry(a, v, c))
  {
    var post := a - v - c;
    SubtractionFlags(a, v, c);
    AccF(post, ResolveFlags(f, FZ | FN | FH | FC, a, post, c == 1))
  }

  /** The operation selected by bits 3-5 of an ALU opcode. */
  function AluKind(opcode: bv8): (k: nat)
    ensures k < 8
  {
    ((opcode >> 3) & 7) as nat
  }

  /** `run_alu`: bits 3-5 of the opcode select ADD, ADC, SUB, SBC, AND, XOR,
      OR, CP. The contract is the documented flag table, with H and C as the
      carries (borrows) of the arithmetic rather than the code's comparisons. */
  function Alu(opcode: bv8, a: bv8, f: bv8, v: bv8): (r: AccF)
    ensures r.f & 0x0F == f & 0x0F
    ensures var op := AluKind(opcode);
            var c := CarryIn(f);
            && (op == 0 ==> r.a == a + v && Flags(r.f, r.a == 0, false, AddHalf(a, v, 0), AddCarry(a, v, 0)))
            && (op == 1 ==> r.a == a + v + c && Flags(r.f, r.a == 0, false, AddHalf(a, v, c), AddCarry(a, v, c)))
            && (op == 2 ==> r.a == a - v && Flags(r.f, r.a == 0, true, SubHalf(a, v, 0), SubCarry(a, v, 0)))
            && (op == 3 ==> r.a == a - v - c && Flags(r.f, r.a == 0, true, SubHalf(a, v, c), SubCarry(a, v, c)))
            && (op == 4 ==> r.a == a & v && Flags(r.f, r.a == 0, false, true, false))
            && (op == 5 ==> r.a == a ^ v && Flags(r.f, r.a == 0, false, false, false))
            && (op == 6 ==> r.a == a | v && Flags(r.f, r.a == 0, false, false, false))
            && (op == 7 ==> r.a == a && Flags(r.f, a == v, true, SubHalf(a, v, 0), SubCarry(a, v, 0)))
  {
    var op := AluKind(opcode);
    if op == 0 then AddOp(a, f, v, 0)
    else if op == 1 then AddOp(a, f, v, CarryIn(f))
    else if op == 2 then SubOp(a, f, v, 0)
    else if op == 3 then SubOp(a, f, v, CarryIn(f))
    else if op == 4 then AccF(a & v, WithFlags(f, a & v == 0, false, true, false))
    else if op == 5 then AccF(a ^ v, WithFlags(f, a ^ v == 0, false, false, false))
    else if op == 6 then AccF(a | v, WithFlags(f, a | v == 0, false, false, false))
    else AccF(a, SubOp(a, f, v, 0).f)
  }

  /** Two worked examples of the flag rules: ADD 0x0F+0x01 sets H and clears
      C; SUB 0x00-0x01 gives 0xFF with N, H and C set. */
  lemma AluExamples(f: bv8)
    ensures Alu(0x80, 0x0F, f, 0x01) == AccF(0x10, (f & 0x0F) | FH)
    ensures Alu(0x90, 0x00, f, 0x01) == AccF(0xFF, (f & 0x0F) | FN | FH | FC)
  {
  }

  /** The value DAA leaves in A and the carry it reports, from A and the N,
      H and C flags: after an addition a digit above 9 or a half/full carry
      adds 6 to that digit; after a subtraction a borrow subtracts 6. */
  function DaaAdjust(a: bv8, n: bool, h: bool, c: bool): (r: (bv8, bool))
    ensures r.1 == (c || (!n && a > 0x99))
  {
    if n then
      var corr: bv8 := (if h then 0x06 else 0x00) | (if c then 0x60 else 0x00);
      (a - corr, c)
    else
      var lowFix := h || (a & 0x0F) > 0x09;
      var highFix := c || a > 0x99;
      var corr: bv8 := (if lowFix then 0x06 else 0x00) | (if highFix then 0x60 else 0x00);
      (a + corr, highFix)
  }

  /** DAA (opcode 0x27): A is adjusted as above, C is set (never cleared) by
      the adjustment, H is cleared, Z follows the result and N is kept. */
  function Daa(a: bv8, f: bv8): (r: AccF)
    ensures Has(r.f, FZ) == (r.a == 0) && !Has(r.f, FH)
    ensures Has(r.f, FN) == Has(f, FN) && r.f & 0x0F == f & 0x0F
    ensures Has(r.f, FC) == (Has(f, FC) || (!Has(f, FN) && a > 0x99))
  {
    var d := DaaAdjust(a, Has(f, FN), Has(f, FH), Has(f, FC));
    AccF(d.0, WithFlags(f, d.0 == 0, Has(f, FN), false, d.1))
  }

  /** The low decimal digit of a BCD byte. */
  function LowDigit(x: bv8): bv8 {
    x & 0x0F
  }

  /** The high decimal digit of a BCD byte. */
  function HighDigit(x: bv8): bv8 {
    x >> 4
  }

  /** Two decimal digits packed in one byte. */
  predicate IsBcd(x: bv8) {
    LowDigit(x) <= 9 && HighDigit(x) <= 9
  }

  /** After a binary addition of two BCD bytes, the adjusted low digit is the
      decimal sum of the low digits with the tens dropped. */
  lemma {:induction false} DaaAddLowDigit(x: bv8, y: bv8)
    requires IsBcd(x) && IsBcd(y)
    ensures var d := DaaAdjust(x + y, false, AddHalf(x, y, 0), AddCarry(x, y, 0));
            var lo := LowDigit(x) + LowDigit(y);
            LowDigit(d.0) == (if lo >= 10 then lo - 10 else lo) && LowDigit(d.0) <= 9
  {
  }

  /** After a binary addition of two BCD bytes, the adjusted high digit is the
      decimal sum of the high digits and the low digits' carry with the tens
      dropped, and the reported carry is that sum's tens. */
  lemma {:induction false} DaaAddHighDigit(x: bv8, y: bv8)
    requires IsBcd(x) && IsBcd(y)
    ensures var d := DaaAdjust(x + y, false, AddHalf(x, y, 0), AddCarry(x, y, 0));
            var hi := HighDigit(x) + HighDigit(y) + (if LowDigit(x) + LowDigit(y) >= 10 then 1 else 0);
            HighDigit(d.0) == (if hi >= 10 then hi - 10 else hi) && HighDigit(d.0) <= 9 && d.1 == (hi >= 10)
  {
  }

  /** After a binary subtraction of two BCD bytes, the adjusted low digit is
      the decimal difference of the low digits, borrowing ten when needed. */
  lemma {:induction false} DaaSubLowDigit(x: bv8, y: bv8)
    requires IsBcd(x) && IsBcd(y)
    ensures var d := DaaAdjust(x - y, true, SubHalf(x, y, 0), SubCarry(x, y, 0));
            var borrow := LowDigit(y) > LowDigit(x);
            LowDigit(d.0) == (if borrow then 10 else 0) + LowDigit(x) - LowDigit(y) && LowDigit(d.0) <= 9
  {
  }

  /** After a binary subtraction of two BCD bytes, the adjusted high digit is
      the decimal difference of the high digits less the low borrow, borrowing
      ten when needed, and the reported carry is that final borrow. */
  lemma {:induction false} DaaSubHighDigit(x: bv8, y: bv8)
    requires IsBcd(x) && IsBcd(y)
    ensures var d := DaaAdjust(x - y, true, SubHalf(x, y, 0), SubCarry(x, y, 0));
            var lowBorrow: bv8 := if LowDigit(y) > LowDigit(x) then 1 else 0;
            var borrow := HighDigit(y) + lowBorrow > HighDigit(x);
            && HighDigit(d.0) == (if borrow then 10 else 0) + HighDigit(x) - HighDigit(y) - lowBorrow
            && HighDigit(d.0) <= 9 && d.1 == borrow
  {
  }

  /** ADD of two BCD bytes followed by DAA is decimal addition: each digit of
      A is the digit sum plus the incoming carry, tens dropped, and C is the
      carry out of the tens digit. */
  lemma {:induction false} DaaAfterAdd(x: bv8, y: bv8, f: bv8)
    requires IsBcd(x) && IsBcd(y)
    ensures var s := Alu(0x80, x, f, y);
            var r := Daa(s.a, s.f);
            var lo := LowDigit(x) + LowDigit(y);
            var hi := HighDigit(x) + HighDigit(y) + (if lo >= 10 then 1 else 0);
            && IsBcd(r.a)
            && LowDigit(r.a) == (if lo >= 10 then lo - 10 else lo)
            && HighDigit(r.a) == (if hi >= 10 then hi - 10 else hi)
            && Has(r.f, FC) == (hi >= 10)
  {
    DaaAddLowDigit(x, y);
    DaaAddHighDigit(x, y);
  }

  /** SUB of two BCD bytes followed by DAA is decimal subtraction: each digit
      of A is the digit difference less the incoming borrow, plus ten on a
      borrow, and C is the borrow out of the tens digit. */
  lemma {:induction false} DaaAfterSub(x: bv8, y: bv8, f: bv8)
    requires IsBcd(x) && IsBcd(y)
    ensures var s := Alu(0x90, x, f, y);
            var r := Daa(s.a, s.f);
            var lowBorrow: bv8 := if LowDigit(y) > LowDigit(x) then 1 else 0;
            var borrow := HighDigit(y) + lowBorrow > HighDigit(x);
            && IsBcd(r.a)
            && LowDigit(r.a) == (if LowDigit(y) > LowDigit(x) then 10 else 0) + LowDigit(x) - LowDigit(y)
            && HighDigit(r.a) == (if borrow then 10 else 0) + HighDigit(x) - HighDigit(y) - lowBorrow
            && Has(r.f, FC) == borrow
  {
    DaaSubLowDigit(x, y);
    DaaSubHighDigit(x, y);
  }

  /** The carry flag followed by the eight bits of a byte: the 9-bit quantity
      that RLA/RRA and RL/RR rotate. */
  function ThroughCarry(v: bv8, f: bv8): bv9 {
    (if Has(f, FC) then 0x100 else 0x000) | (v as bv9)
  }

  /** The value and carry-out of the eight shift/rotate kinds shared by the
      accumulator rotates (kinds 0-3) and CB 0x00-0x3F (RLC, RRC, RL, RR, SLA,
      SRA, SWAP, SRL); `carry` is the incoming C flag. */
  function ShiftValue(kind: bv8, v: bv8, carry: bool): (r: (bv8, bool))
    requires kind < 8
    ensures var f: bv8 := if carry then FC else 0;
            var g: bv8 := if r.1 then FC else 0;
            && (kind == 0 ==> r.0 == v.RotateLeft(1) && r.1 == BitSet(v, 7))
            && (kind == 1 ==> r.0 == v.RotateRight(1) && r.1 == BitSet(v, 0))
            && (kind == 2 ==> ThroughCarry(r.0, g) == ThroughCarry(v, f).RotateLeft(1))
            && (kind == 3 ==> ThroughCarry(r.0, g) == ThroughCarry(v, f).RotateRight(1))
            && (kind == 4 ==> r.0 == v + v && r.1 == BitSet(v, 7))
            && (kind == 5 ==> r.0 + r.0 + (v & 1) == v && r.0 & 0x80 == v & 0x80 && r.1 == BitSet(v, 0))
            && (kind == 6 ==> r.0 == v.RotateLeft(4) && !r.1)
            && (kind == 7 ==> r.0 + r.0 + (v & 1) == v && r.0 < 0x80 && r.1 == BitSet(v, 0))
  {
    if kind < 4 then Rotate(kind, v, carry) else Shift(kind, v)
  }

  /** RLC, RRC, RL and RR. */
  function Rotate(kind: bv8, v: bv8, carry: bool): (r: (bv8, bool))
    requires kind < 4
    ensures var f: bv8 := if carry then FC else 0;
            var g: bv8 := if r.1 then FC else 0;
            && (kind == 0 ==> r.0 == v.RotateLeft(1) && r.1 == BitSet(v, 7))
            && (kind == 1 ==> r.0 == v.RotateRight(1) && r.1 == BitSet(v, 0))
            && (kind == 2 ==> ThroughCarry(r.0, g) == ThroughCarry(v, f).RotateLeft(1))
            && (kind == 3 ==> ThroughCarry(r.0, g) == ThroughCarry(v, f).RotateRight(1))
  {
    if kind == 0 then ((v << 1) | (if v & 0x80 != 0 then 0x01 else 0x00), v & 0x80 != 0)
    else if kind == 1 then ((v >> 1) | (if v & 0x01 != 0 then 0x80 else 0x00), v & 0x01 != 0)
    else if kind == 2 then ((v << 1) | (if carry then 0x01 else 0x00), v & 0x80 != 0)
    else ((v >> 1) | (if carry then 0x80 else 0x00), v & 0x01 != 0)
  }

  /** SLA, SRA, SWAP and SRL. */
  function Shift(kind: bv8, v: bv8): (r: (bv8, bool))
    requires 4 <= kind < 8
    ensures && (kind == 4 ==> r.0 == v + v && r.1 == BitSet(v, 7))
            && (kind == 5 ==> r.0 + r.0 + (v & 1) == v && r.0 & 0x80 == v & 0x80 && r.1 == BitSet(v, 0))
            && (kind == 6 ==> r.0 == v.RotateLeft(4) && !r.1)
            && (kind == 7 ==> r.0 + r.0 + (v & 1) == v && r.0 < 0x80 && r.1 == BitSet(v, 0))
  {
    if kind == 4 then (v << 1, v & 0x80 != 0)
    else if kind == 5 then ((v >> 1) | (v & 0x80), v & 0x01 != 0)
    else if kind == 6 then (((v & 0xF0) >> 4) | ((v & 0x0F) << 4), false)
    else (v >> 1, v & 0x01 != 0)
  }

  /** Opcodes 0x07-0x3F with low bits 111 (`kind` is bits 3-5): RLCA, RRCA,
      RLA, RRA clear Z, N and H and put the bit shifted out in C; then DAA,
      CPL (complement A, set N and H), SCF (set C) and CCF (flip C), the last
      two clearing N and H. */
  function AccOp(kind: bv8, a: bv8, f: bv8): (r: AccF)
    requires kind < 8
    ensures r.f & 0x0F == f & 0x0F
    ensures kind < 4 ==> var s := ShiftValue(kind, a, Has(f, FC));
                         r.a == s.0 && Flags(r.f, false, false, false, s.1)
    ensures kind == 4 ==> r == Daa(a, f)
    ensures kind == 5 ==> r.a == !a && Flags(r.f, Has(f, FZ), true, true, Has(f, FC))
    ensures kind == 6 ==> r.a == a && Flags(r.f, Has(f, FZ), false, false, true)
    ensures kind == 7 ==> r.a == a && Flags(r.f, Has(f, FZ), false, false, !Has(f, FC))
  {
    if kind < 4 then
      var s := ShiftValue(kind, a, Has(f, FC));
      AccF(s.0, WithFlags(f, false, false, false, s.1))
    else if kind == 4 then Daa(a, f)
    else if kind == 5 then AccF(!a, f | FN | FH)
    else if kind == 6 then AccF(a, WithFlags(f, Has(f, FZ), false, false, true))
    else AccF(a, WithFlags(f, Has(f, FZ), false, false, !Has(f, FC)))
  }

  /** RES b: clear bit `b`, keep the others. */
  function ResetBit(v: bv8, b: bv8): (r: bv8)
    requires b < 8
    ensures !BitSet(r, b)
    ensures forall i: bv8 | i < 8 && i != b :: BitSet(r, i) == BitSet(v, i)
  {
    v & !(1 << b)
  }

  /** SET b: set bit `b`, keep the others. */
  function SetBit(v: bv8, b: bv8): (r: bv8)
    requires b < 8
    ensures BitSet(r, b)
    ensures forall i: bv8 | i < 8 && i != b :: BitSet(r, i) == BitSet(v, i)
  {
    v | (1 << b)
  }

  /** The outcome of a CB-prefixed operation on its operand: the new value,
      the new F, and whether the value is written back. */
  datatype CbOut = CbOut(v: bv8, f: bv8, store: bool)

  /** The CB-prefix operations of `run_instruction`: bits 6-7 select the
      shift group (Z from the result, N and H cleared, C the bit shifted
      out), BIT (only flags change), RES or SET (only the value changes);
      bits 3-5 give the shift kind or the bit number. */
  function CbOp(cbcode: bv8, v: bv8, f: bv8): (r: CbOut)
    ensures r.f & 0x0F == f & 0x0F
    ensures var b := (cbcode >> 3) & 7;
            var group := cbcode >> 6;
            && (group == 0 ==>
                  var s := ShiftValue(b, v, Has(f, FC));
                  r.store && r.v == s.0 && Flags(r.f, s.0 == 0, false, false, s.1))
            && (group == 1 ==>
                  !r.store && r.v == v && Flags(r.f, !BitSet(v, b), false, true, Has(f, FC)))
            && (group == 2 ==>
                  && r.store && r.f == f && !BitSet(r.v, b)
                  && forall i: bv8 | i < 8 && i != b :: BitSet(r.v, i) == BitSet(v, i))
            && (group == 3 ==>
                  && r.store && r.f == f && BitSet(r.v, b)
                  && forall i: bv8 | i < 8 && i != b :: BitSet(r.v, i) == BitSet(v, i))
  {
    var b := (cbcode >> 3) & 7;
    var group := cbcode >> 6;
    if group == 0 then
      var s := ShiftValue(b, v, Has(f, FC));
      CbOut(s.0, WithFlags(f, s.0 == 0, false, false, s.1), true)
    else if group == 1 then
      CbOut(v, WithFlags(f, !BitSet(v, b), false, true, Has(f, FC)), false)
    else if group == 2 then
      CbOut(ResetBit(v, b), f, true)
    else
      CbOut(SetBit(v, b), f, true)
  }
}
