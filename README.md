# gbemu core in Dafny

A model of the integer core of the gbemu Game Boy emulator, with proofs
about it.

It covers six parts of the emulator:

- **CPU** (`src/sm83.c`), in four modules:
  - `Sm83Flags` holds the flag arithmetic and the pure operations: `set_flag`, `resolve_flags`, `eval_cond`, `run_alu`, DAA, the rotates, shifts and bit operations.
  - `Sm83Spec` holds every instruction, the interrupt check and `cpu_clock`, written as functions on a machine value. That value holds the register file, the IME/EI/HALT/STOP/ill latches and the part of the machine the CPU touches. That part is an abstract 64 KiB bus, a tick counter, the 16-bit divider and the HDMA flag. Every `read8`/`write8` and every machine cycle adds 4 to the counter.
  - `Sm83` holds the class `Cpu`. Its fields are the registers and latches, and its methods update them in place. Each method is proved to reach the state that the matching `Sm83Spec` function computes.
  - `Sm83Props` holds the properties of those functions: push/pop, interrupts, the illegal-opcode latch, jumps, calls, cycle counts and the flags of 16-bit arithmetic.
- **Cartridge** (`src/cartridge.c`, module `Cartridge`):
  - Header decoding as a function over the ROM bytes, plus the save-file name.
  - The class `Cart`, whose `Write` updates the MBC1/MBC3/MBC5 bank registers and the external RAM in place. Its reads and bank selection are functions.
- **Bus** (`src/gb.c`, module `GbBus`). The class `GameBoy` owns VRAM, WRAM, OAM, the I/O registers, HRAM and IE. It models:
  - the `read8`/`write8` address map, with access blocking and write masks;
  - `read16`/`write16`;
  - the falling-edge timer, the edge-triggered STAT line, the joypad register and OAM DMA;
  - one dot of `tick_gb`: the timer, STAT-line and joypad steps composed in that order (`RegistersTick`), the DMA step, then a dot of the picture and sound units.
- **Picture unit** (`src/ppu.c`, module `Ppu`): the beam position, LY, the LYC coincidence flag, the STAT mode bits and the VBlank and STAT requests.
- **Sound unit** (`src/apu.c`, module `Apu`): the duty, wave and noise samples, the period counters, the noise LFSR, the length, sweep and envelope steps, and the NR52 power switch.
- **Earlier drafts** at the repository root, each in its own module:
  - The CPU draft `sm83.c` is modelled in `DraftSm83Spec` (functions on a state value) and `DraftSm83` (the class `Cpu`). It charges each instruction's whole cost to a countdown up front, has no carry-in in `resolve_flags`, and decodes only the opcodes whose top two bits are 00.
  - The cartridge draft `cartridge.c` is modelled in `DraftCartridge`: the same header decoding, and MBC0 only.

Modules `Bytes` and `Options` hold shared arithmetic and the `Option` type. Several modelling choices hold throughout:

- `u16` values are integers reduced modulo 0x10000, and 8-bit registers are `bv8`.
- C's `& (n-1)` masks on power-of-two counts are written as remainders, and a lemma shows that they agree.
- The host supplies some inputs, and the model takes them as parameters:
  - the ROM file's bytes;
  - the file name;
  - the save file's bytes;
  - the joypad button state;
  - whether a dot falls on the sound unit's emulation speed.

## Model

| member | source | states |
|---|---|---|
| Sm83Flags.SetFlag | src/sm83.c:9-15 | the bits of `flag` become all set or all clear as requested; every other bit of F is kept |
| Sm83Flags.ResolveFlags | src/sm83.c:17-37 | N follows the requested direction; Z (`post == 0`), H (nibble compare, carry-in breaking the tie) and C (byte compare, likewise) change only when requested; the low nibble of F is kept |
| Sm83Flags.AdditionFlags | src/sm83.c:17-37 | with `post = pre + v + c`, the H and C comparisons are exactly the carries out of bit 3 and bit 7 of the addition |
| Sm83Flags.SubtractionFlags | src/sm83.c:17-37 | with `post = pre - v - c`, the H and C comparisons are exactly the borrows into bit 3 and bit 7 of the subtraction |
| Sm83Flags.EvalCond | src/sm83.c:39-51 | bits 3-4 select NZ, Z, NC, C in that order: bit 4 picks Z or C, bit 3 the polarity |
| Sm83Flags.CarryIn | src/sm83.c:146-157 | the ADC/SBC addend is 0 or 1, and 1 exactly when C is set |
| Sm83Flags.AddOp | src/sm83.c:142-149 | ADD/ADC: A becomes `A + v + c` modulo 256; Z tests the result, N clear, H and C are the carries out of bits 3 and 7 |
| Sm83Flags.SubOp | src/sm83.c:150-157 | SUB/SBC: A becomes `A - v - c` modulo 256; Z tests the result, N set, H and C are the borrows |
| Sm83Flags.Alu | src/sm83.c:139-178 | for each of the eight operations, the new A and all four flags: carries for ADD/ADC, borrows for SUB/SBC/CP, AND sets H and clears N and C, XOR/OR clear N, H and C, CP leaves A unchanged |
| Sm83Flags.AluExamples | src/sm83.c:142-153 | ADD 0x0F+0x01 gives 0x10 with only H set; SUB 0x00-0x01 gives 0xFF with N, H and C set |
| Sm83Flags.DaaAdjust | src/sm83.c:322-346 | the adjustment reports a carry exactly when C was set or, after an addition, A > 0x99 |
| Sm83Flags.Daa | src/sm83.c:322-346 | DAA: Z tests the result, H is cleared, N is kept, C is set by the adjustment and never cleared |
| Sm83Flags.DaaAddLowDigit | src/sm83.c:322-346 | after adding two BCD bytes, the adjusted low digit is the decimal sum of the low digits without its tens |
| Sm83Flags.DaaAddHighDigit | src/sm83.c:322-346 | after adding two BCD bytes, the adjusted high digit is the decimal sum of the high digits plus the low carry, and C is its tens |
| Sm83Flags.DaaSubLowDigit | src/sm83.c:322-346 | after subtracting two BCD bytes, the adjusted low digit is the decimal difference of the low digits, borrowing ten when needed |
| Sm83Flags.DaaSubHighDigit | src/sm83.c:322-346 | after subtracting two BCD bytes, the adjusted high digit is the decimal difference with the low borrow, and C is the final borrow |
| Sm83Flags.DaaAfterAdd | src/sm83.c:322-346 | ADD then DAA on BCD operands yields a BCD byte holding the decimal sum modulo 100, with C the decimal carry |
| Sm83Flags.DaaAfterSub | src/sm83.c:322-346 | SUB then DAA on BCD operands yields a BCD byte holding the decimal difference modulo 100, with C the decimal borrow |
| Sm83Flags.ShiftValue | src/sm83.c:495-536 | RLC/RRC are rotations and report the bit rotated out; RL/RR rotate the 9-bit value of C and the operand; SLA doubles; SRA halves keeping bit 7; SWAP exchanges nibbles and clears C; SRL halves with bit 7 clear |
| Sm83Flags.Rotate | src/sm83.c:498-517 | the four rotations, as in ShiftValue |
| Sm83Flags.Shift | src/sm83.c:518-536 | SLA, SRA, SWAP and SRL, as in ShiftValue |
| Sm83Flags.AccOp | src/sm83.c:296-363 | RLCA/RRCA/RLA/RRA: the rotation with Z, N and H cleared; DAA; CPL complements A and sets N and H; SCF sets C; CCF flips C; SCF and CCF clear N and H |
| Sm83Flags.ResetBit | src/sm83.c:544-546 | RES b clears bit b and keeps every other bit |
| Sm83Flags.SetBit | src/sm83.c:547-549 | SET b sets bit b and keeps every other bit |
| Sm83Flags.CbOp | src/sm83.c:487-555 | CB shifts store the shifted value with Z from it; BIT b stores nothing, Z iff bit b is clear, H set, N clear, C kept; RES/SET change only bit b and keep F |
| Sm83Spec.SetR16Mod | src/sm83.c:53-65 | a store through `getr16mod` is read back by it |
| Sm83Spec.SetR16Stack | src/sm83.c:67-79 | a store through `getr16stack` is read back by it |
| Sm83Spec.LowestPending | src/sm83.c:614-616 | the dispatch loop stops at the lowest set bit among bits 0-4 of the pending mask, or at 5 |
| Sm83.Cpu.Read8 | src/gb.c:10-11 | the byte at the address and one machine cycle, as Sm83Spec.Read8 |
| Sm83.Cpu.Write8 | src/gb.c:64-65 | the store and one machine cycle, as Sm83Spec.Write8 |
| Sm83.Cpu.Read16 | src/gb.c:193-195 | two reads, low byte first, as Sm83Spec.Read16 |
| Sm83.Cpu.Write16 | src/gb.c:197-200 | two writes, low byte first, as Sm83Spec.Write16 |
| Sm83.Cpu.FetchByte | src/sm83.c:192 | `read8(PC++)`, as Sm83Spec.FetchByte |
| Sm83.Cpu.FetchWord | src/sm83.c:201-202 | `read16(PC++); PC++`, as Sm83Spec.FetchWord |
| Sm83.Cpu.Push | src/sm83.c:180-183 | SP lowered by 2 and the word written there, as Sm83Spec.Push |
| Sm83.Cpu.Pop | src/sm83.c:185-189 | the word at SP read and SP raised by 2, as Sm83Spec.Pop |
| Sm83.Cpu.SetReg8 | src/sm83.c:117-137 | the register `getr8dest` names takes the value, as Sm83Spec.SetReg8 |
| Sm83.Cpu.GetR8Src | src/sm83.c:95-115 | the register, or the byte at HL for index 6, as Sm83Spec.GetR8Src |
| Sm83.Cpu.PutR8 | src/sm83.c:370-377 | a store through `getr8dest`, or `write8(HL)` for its NULL target, as Sm83Spec.PutR8 |
| Sm83.Cpu.SetR16Mod | src/sm83.c:53-65 | `*getr16mod = w`, as Sm83Spec.SetR16Mod |
| Sm83.Cpu.SetR16Stack | src/sm83.c:67-79 | `*getr16stack = w`, as Sm83Spec.SetR16Stack |
| Sm83.Cpu.R16Addr | src/sm83.c:81-93 | BC, DE, or HL with its post-increment or post-decrement, as Sm83Spec.R16Addr |
| Sm83.Cpu.RunAlu | src/sm83.c:139-178 | A and F become those of Sm83Flags.Alu, and nothing else changes |
| Sm83.Cpu.ExecMisc0 | src/sm83.c:196-227 | NOP, LD (nn),SP, STOP, JR d and JR cc,d, as Sm83Spec.ExecMisc0 |
| Sm83.Cpu.StoreSp | src/sm83.c:200-204 | LD (nn),SP, as Sm83Spec.StoreSp |
| Sm83.Cpu.Stop | src/sm83.c:205-213 | STOP zeroes the divider, then either toggles the KEY1 speed bit or latches `stop`, as Sm83Spec.Stop |
| Sm83.Cpu.JumpRel | src/sm83.c:214-219 | JR d, as Sm83Spec.JumpRel |
| Sm83.Cpu.JumpRelCond | src/sm83.c:220-226 | JR cc,d, as Sm83Spec.JumpRelCond |
| Sm83.Cpu.ExecWide0 | src/sm83.c:229-258 | LD rr,nn, ADD HL,rr, LD (rr),A, LD A,(rr), INC rr and DEC rr, as Sm83Spec.ExecWide0 |
| Sm83.Cpu.LoadPair | src/sm83.c:230-234 | LD rr,nn, as Sm83Spec.LoadPair |
| Sm83.Cpu.AddHL | src/sm83.c:235-241 | ADD HL,rr, as Sm83Spec.AddHL |
| Sm83.Cpu.StoreA | src/sm83.c:242-245 | LD (rr),A, as Sm83Spec.StoreA |
| Sm83.Cpu.LoadA | src/sm83.c:246-249 | LD A,(rr), as Sm83Spec.LoadA |
| Sm83.Cpu.StepPair | src/sm83.c:250-257 | INC rr and DEC rr, as Sm83Spec.StepPair |
| Sm83.Cpu.IncDecReg | src/sm83.c:264-287 | INC r and DEC r on a register: the old value and the value one above or below it, stored in the register |
| Sm83.Cpu.IncDecHL | src/sm83.c:264-287 | INC (HL) and DEC (HL): read, write back, flags, as Sm83Spec.IncDec |
| Sm83.Cpu.ExecIncDec | src/sm83.c:264-287 | INC r and DEC r, as Sm83Spec.ExecIncDec |
| Sm83.Cpu.ExecLdN | src/sm83.c:288-295 | LD r,n, as Sm83Spec.ExecLdN |
| Sm83.Cpu.ExecAcc | src/sm83.c:296-363 | RLCA to CCF, as Sm83Spec.ExecAcc |
| Sm83.Cpu.ExecLd | src/sm83.c:367-378 | HALT latches `halt`; LD r,r' copies, as Sm83Spec.ExecLd |
| Sm83.Cpu.ExecAlu | src/sm83.c:379-381 | ALU A,r, as Sm83Spec.ExecAlu |
| Sm83.Cpu.RetCond | src/sm83.c:385-393 | RET cc, as Sm83Spec.RetCond |
| Sm83.Cpu.AddSp | src/sm83.c:399-408 | ADD SP,d, as Sm83Spec.AddSp |
| Sm83.Cpu.LdHlSp | src/sm83.c:413-421 | LD HL,SP+d, as Sm83Spec.LdHlSp |
| Sm83.Cpu.ExecRet3 | src/sm83.c:384-422 | RET cc, LDH (n),A, ADD SP,d, LDH A,(n) and LD HL,SP+d, as Sm83Spec.ExecRet3 |
| Sm83.Cpu.PopPair | src/sm83.c:425-427 | POP rr, as Sm83Spec.PopPair |
| Sm83.Cpu.Return | src/sm83.c:430-438 | RET and RETI, as Sm83Spec.Return |
| Sm83.Cpu.RetJump | src/sm83.c:428-446 | RET, RETI, JP HL and LD SP,HL, as Sm83Spec.RetJump |
| Sm83.Cpu.ExecPop3 | src/sm83.c:424-447 | POP rr, RET, RETI, JP HL and LD SP,HL, as Sm83Spec.ExecPop3 |
| Sm83.Cpu.ExecJp3 | src/sm83.c:449-477 | JP cc,nn and the loads through (FF00+C) and (nn), as Sm83Spec.ExecJp3 |
| Sm83.Cpu.JumpAbs | src/sm83.c:481-486 | JP nn, as Sm83Spec.JumpAbs |
| Sm83.Cpu.ExecCb | src/sm83.c:487-555 | the CB prefix: Sm83Flags.CbOp on the operand, stored back unless BIT, as Sm83Spec.ExecCb |
| Sm83.Cpu.ExecCtl3 | src/sm83.c:479-565 | JP nn, CB, DI, EI, and the `ill` latch for the remaining codes, as Sm83Spec.ExecCtl3 |
| Sm83.Cpu.ExecCallCc | src/sm83.c:567-575 | CALL cc,nn, as Sm83Spec.ExecCallCc |
| Sm83.Cpu.ExecPush3 | src/sm83.c:576-587 | PUSH rr and CALL nn, as Sm83Spec.ExecPush3 |
| Sm83.Cpu.CallTo | src/sm83.c:591-594 | `push(PC)`, one machine cycle, then PC := target, as Sm83Spec.CallTo |
| Sm83.Cpu.ExecAluN | src/sm83.c:588-590 | ALU A,n, as Sm83Spec.ExecAluN |
| Sm83.Cpu.RunInstruction | src/sm83.c:191-599 | one fetched and executed instruction, as Sm83Spec.Execute |
| Sm83.Cpu.Wake | src/sm83.c:608-610 | `halt` clears, and `stop` clears exactly when IF's joypad bit is set, whatever IE holds (the interrupt check runs it once an enabled request is pending), as Sm83Spec.Wake |
| Sm83.Cpu.FindLowest | src/sm83.c:614-616 | the loop's result is Sm83Spec.LowestPending of the mask |
| Sm83.Cpu.ServiceInterrupt | src/sm83.c:611-623 | two machine cycles, IME off, IF bit i cleared, PC pushed, one cycle, PC at `0x40 \| i << 3`, as Sm83Spec.Service |
| Sm83.Cpu.TakeRequest | src/sm83.c:611-623 | with IME set the lowest request is serviced, otherwise nothing changes |
| Sm83.Cpu.Interrupt | src/sm83.c:608-624 | the interrupt check, as Sm83Spec.Interrupt |
| Sm83.Cpu.Clock | src/sm83.c:601-634 | `cpu_clock`, as Sm83Spec.Clock |
| Sm83Props.SetReg8Frame | src/sm83.c:117-137 | writing a register through its 3-bit index changes that register and no other |
| Sm83Props.Write16Read16 | src/gb.c:193-200 | a word written by `write16` reads back with `read16`; four machine cycles pass and only the two addressed bytes change |
| Sm83Props.PushThenPop | src/sm83.c:180-189 | `pop` after `push` returns the word and restores SP; the registers are untouched and 16 ticks pass |
| Sm83Props.PopMasksF | src/sm83.c:425-427 | POP rr raises SP by 2 and keeps only the high nibble of F, whichever pair was popped; POP BC, DE and HL load the word at SP into that pair, POP AF loads A and the high nibble of F |
| Sm83Props.IllegalOpcodeLatches | src/sm83.c:562-564 | 0xD3, 0xDB, 0xE3 and 0xEB latch `ill`, and only PC and the fetch cycle change besides |
| Sm83Props.IllegalFreezes | src/sm83.c:602 | once `ill` is latched, any number of `cpu_clock` calls change nothing |
| Sm83Props.InterruptWakes | src/sm83.c:608-610 | an enabled pending request ends HALT whatever IME is, and only such a request does; without one the interrupt check changes nothing |
| Sm83Props.ServiceStep | src/sm83.c:611-623 | servicing request i: IME off, IF bit i cleared, the old PC pushed, PC at the vector, five machine cycles |
| Sm83Props.InterruptDispatch | src/sm83.c:608-624 | with IME set, the lowest pending enabled request is the one serviced: its IF bit alone is cleared, PC is pushed and jumps to `0x40 + 8 i` |
| Sm83Props.AddHLCarries | src/sm83.c:235-241 | ADD HL,rr: H is the carry out of bit 11, C the carry out of bit 15, N clear, Z kept |
| Sm83Props.AddHLHalf | src/sm83.c:235-241 | the high-byte nibble compare with the low-byte carry is the carry out of bit 11 |
| Sm83Props.AddHLCarry | src/sm83.c:235-241 | the high-byte compare with the low-byte carry is the carry out of bit 15 |
| Sm83Props.RelativeJump | src/sm83.c:214-219 | JR d moves PC by the signed displacement from the end of the instruction, in three machine cycles |
| Sm83Props.ConditionalRelativeJump | src/sm83.c:220-226 | JR cc,d jumps exactly when the condition holds, and only a taken jump spends the extra cycle |
| Sm83Props.CallToPushes | src/sm83.c:591-594 | a call pushes the return address just below SP, changes no other byte and jumps after three machine cycles |
| Sm83Props.CallPushes | src/sm83.c:580-586 | CALL nn pushes the address of the next instruction and jumps to nn in six machine cycles; only the two stack bytes change |
| Sm83Props.RetPops | src/sm83.c:430-433 | RET pops PC from the stack in four machine cycles |
| Sm83Props.CycleCosts | src/sm83.c:191-599 | machine-cycle counts of representative instructions, each access or internal cycle being 4 ticks |
| Sm83Props.CyclesOfGroup0 | src/sm83.c:196-287 | cycles after the fetch for NOP, LD BC,nn, ADD HL,BC and INC (HL) |
| Sm83Props.CyclesOfLoads | src/sm83.c:367-381 | cycles after the fetch for LD B,C and ADD A,(HL) |
| Sm83Props.CyclesOfGroup3 | src/sm83.c:479-595 | cycles after the fetch for JP nn, PUSH BC, ADD SP,d and RST 38h |
| Sm83Props.SpOffsetFlags | src/sm83.c:399-408 | the flags of SP plus a signed byte: H and C are the carries out of bits 3 and 7 of the low byte plus the displacement byte |
| Sm83Props.AddSpFlags | src/sm83.c:399-408 | ADD SP,d: SP gets the signed sum, H and C are the low-byte carries, Z and N clear, four machine cycles |
| Sm83Props.LdHlSpFlags | src/sm83.c:413-421 | LD HL,SP+d: HL gets the signed sum, SP is kept, flags as ADD SP,d, three machine cycles |
| Sm83Props.IncDecFlags | src/sm83.c:264-287 | INC/DEC r: H is the nibble carry or borrow, Z tests the new value, N gives the direction, C is kept |
| Cartridge.MapperOf | src/cartridge.c:23-52 | a type code is refused exactly when it is above 0x22 or one of 0x04, 0x07, 0x0A, 0x0E, 0x14-0x18, 0x1F, 0x21; every battery code (0x03, 0x06, 0x09, 0x0D, 0x0F, 0x10, 0x13, 0x1B, 0x1E, 0x22) is accepted |
| Cartridge.RomBankCount | src/cartridge.c:53-58 | codes 0-8 give `2 << code` banks (2 to 512, a power of two); any other code fails |
| Cartridge.RamBankCount | src/cartridge.c:59-80 | codes 0-5 give 0, 0, 1, 4, 16, 8 banks (0 or a power of two); any other code fails |
| Cartridge.DecodeHeader | src/cartridge.c:15-96 | a decoded header announces a power-of-two number (at least 2) of ROM banks that the file holds, and 0 or a power-of-two number of RAM banks |
| Cartridge.DecodeHeaderAccepts | src/cartridge.c:22-96 | a file is accepted exactly when the three codes are known and the file holds the ROM banks; the header then has the mapper, the battery flag and the bank counts of the codes, and bit 7 of byte 0x143 |
| Cartridge.LastDot | src/cartridge.c:100-101 | the index of the last '.' of the name, or -1 when there is none |
| Cartridge.SaveNameOf | src/cartridge.c:100-107 | the backward scan and copy give SaveName: the name up to and including its last '.', then "sav" |
| Cartridge.SaveNameReplacesExtension | src/cartridge.c:100-107 | `base.ext` (ext without '.') gets the save name `base.sav` |
| Cartridge.SaveNameWithoutDot | src/cartridge.c:100-107 | a name without '.' gets the save name "sav" |
| Cartridge.MaskBank | src/cartridge.c:159-160 | `bank & (count - 1)` with a power-of-two count is the bank modulo the count, so it names a bank that exists |
| Cartridge.Mbc1Rom0Bank | src/cartridge.c:154-164 | the bank MBC1 shows at 0x0000 exists |
| Cartridge.Mbc1Rom1Bank | src/cartridge.c:165-170 | the bank MBC1 shows at 0x4000 exists |
| Cartridge.Mbc1RamBank | src/cartridge.c:171-178 | the RAM bank MBC1 shows exists |
| Cartridge.Mbc3Rom1Bank | src/cartridge.c:185-189 | the bank MBC3 shows at 0x4000 exists |
| Cartridge.Mbc5Rom1Bank | src/cartridge.c:206-208 | the bank MBC5 shows at 0x4000 exists |
| Cartridge.Mbc1LargeRom | src/cartridge.c:165-170 | above 32 banks, the 2-bit register gives bits 5-6 and the 5-bit register (0 read as 1) the rest, modulo the count |
| Cartridge.Mbc1SmallRom | src/cartridge.c:165-170 | up to 32 banks, only the 5-bit register (0 read as 1) selects |
| Cartridge.Mbc1ZeroIsOne | src/cartridge.c:167 | a 0 in the 5-bit register selects what a 1 selects |
| Cartridge.Mbc1Rom0IsBankZero | src/cartridge.c:154-164 | the low window shows bank 0 unless mode 1 on a ROM of more than 32 banks |
| Cartridge.Mbc3ZeroIsOne | src/cartridge.c:186-189 | a 0 in the MBC3 ROM register selects bank 1 |
| Cartridge.Mbc5Bank | src/cartridge.c:206-208 | the MBC5 bank is `lo + 256 hi` modulo the count, and bank 0 is not remapped; `cur_rom_bank` is read (Mbc5Regs.RomBank) as the bitwise or of the low byte and the high byte shifted by 8, the little-endian union of `cur_rom_bank_l` and `cur_rom_bank_h` |
| Cartridge.Mbc1Write | src/cartridge.c:228-257 | both directions: 0x0000-0x1FFF sets RAM enable to 0x00 or 0x0A when written, 0x2000-0x3FFF sets the 5-bit bank to `data & 0x1F`, 0x4000-0x5FFF the 2-bit bank to `data & 3`, 0x6000-0x7FFF the mode to 0 or 1 when written; a register changes only through its own range; RAM-window writes change none |
| Cartridge.Mbc3Write | src/cartridge.c:258-288 | both directions: 0x0000-0x1FFF sets RAM enable to 0x00 or 0x0A when written, 0x2000-0x3FFF sets the ROM bank to `data & 0x7F`, 0x4000-0x5FFF the RAM/RTC selector to `data & 0x0F`; a register changes only through its own range; the RTC latch range and the RAM window change none |
| Cartridge.Mbc5Write | src/cartridge.c:289-313 | both directions: 0x0000-0x1FFF sets RAM enable when written 0x00 or a byte with low nibble 0xA, 0x2000-0x3FFF sets the low ROM byte, 0x4000-0x5FFF the high ROM bit to `data & 1`, 0x6000-0x7FFF the RAM bank; a register changes only through its own range; RAM-window writes change none |
| Cartridge.Mbc1SwitchRom1 | src/cartridge.c:234-235 | on a ROM of at most 32 banks, writing `data` to 0x2000-0x3FFF makes the window at 0x4000 show bank `data & 0x1F` (0 read as 1) modulo the count |
| Cartridge.Mbc3SwitchRom1 | src/cartridge.c:264-265 | writing `data` to 0x2000-0x3FFF makes the window at 0x4000 show bank `data & 0x7F` (0 read as 1) modulo the count |
| Cartridge.Mbc5SwitchRom1 | src/cartridge.c:295-301 | writing `lo` to 0x2000-0x3FFF and `hi` to 0x4000-0x5FFF makes the window at 0x4000 show bank `lo + 256 (hi & 1)` modulo the count |
| Cartridge.Cart.constructor | src/cartridge.c:81-85 | the cartridge's fields are the header's, its RAM is the given bytes and every bank register is zero |
| Cartridge.Cart.RomBank | src/cartridge.c:141-214 | MBC0, MBC1, MBC3 and MBC5 show an existing ROM bank, and the other mappers none |
| Cartridge.Cart.RamSlot | src/cartridge.c:171-213 | a RAM slot, when the mapper exposes one, lies inside the RAM, which is then present |
| Cartridge.Cart.WriteRam | src/cartridge.c:220-317 | a RAM-window store changes exactly the slot's byte and reads back, or changes nothing and reads 0xFF |
| Cartridge.Cart.WriteMbc1 | src/cartridge.c:228-257 | the registers become exactly Mbc1Write's of the old ones; a ROM-window write leaves RAM alone, and a RAM-window write changes RAM at exactly the slot the old registers select, or nowhere without one |
| Cartridge.Cart.WriteMbc3 | src/cartridge.c:258-288 | the registers become exactly Mbc3Write's of the old ones; a ROM-window write leaves RAM alone, and a RAM-window write changes RAM at exactly the slot the old registers select, or nowhere without one |
| Cartridge.Cart.WriteMbc5 | src/cartridge.c:289-313 | the registers become exactly Mbc5Write's of the old ones; a ROM-window write leaves RAM alone, and a RAM-window write changes RAM at exactly the slot the old registers select, or nowhere without one |
| Cartridge.Cart.Write | src/cartridge.c:220-317 | `cart_write`: the register sets become MappersWrite's, so only the mapper's own set changes, as its MbcNWrite says; RAM changes only at the slot of a RAM-window write and reads back the byte, or 0xFF without a slot |
| Cartridge.Mbc1SwitchedRead | src/cartridge.c:165-170 | after `cart_write` stores `data` into the MBC1 5-bit register of a ROM of at most 32 banks, the window at 0x4000 reads the selected bank of the ROM |
| Cartridge.DisabledRamReadsFF | src/cartridge.c:171-213 | with RAM absent or disabled, or an RTC selector on MBC3, the RAM window has no slot and reads 0xFF |
| Cartridge.UnsupportedReadsFF | src/cartridge.c:215-216 | MBC2, MMM01, MBC6 and MBC7 read 0xFF in every region |
| Cartridge.Resized | src/cartridge.c:111-119 | the save file truncated or zero-extended to the RAM size |
| Cartridge.Create | src/cartridge.c:12-125 | no cartridge exactly when the header is refused; otherwise its fields are the header's and its ROM the announced banks. RAM comes from the resized save file when there is a battery, and is zero-filled otherwise. A save name is produced exactly for battery cartridges with RAM |
| GbBus.IoWrite | src/gb.c:108-183 | write masks: JOYP takes bits 4-5, TAC 3 bits, IF 5 bits, STAT bits 3-6 keeping its low 3 bits, NR14 its length-enable bit; the plain registers take the byte; every other register keeps its value |
| GbBus.Ch1Write | src/gb.c:135-146 | NR13 sets the low byte of channel 1's wavelength, NR14 the high 3 bits, and its trigger bit reloads the counter and restarts the waveform; other registers leave the channel alone |
| GbBus.Nr13Write | src/gb.c:135-137 | NR13 replaces the low byte of the wavelength and keeps the high part |
| GbBus.Nr14Write | src/gb.c:138-146 | NR14 replaces the high bits with `data & 7` and keeps the low byte; a trigger reloads the counter and zeroes the duty index |
| GbBus.Ch1WavelengthWrites | src/gb.c:135-146 | NR13 then NR14 set the wavelength to the 11-bit value they form, whatever it was |
| GbBus.WordOfBytes | src/gb.c:197-200 | the two bytes `write16` stores make up the word |
| GbBus.TimerTick | src/gb.c:227-244 | a timer step increments the divider modulo 0x10000 and keeps TMA and TAC; its TIMA and IF behaviour is stated by TimerPeriod and OverflowReloads |
| GbBus.FallingEdge | src/gb.c:234-242 | the selected divider bit falls on a dot exactly when the incremented divider is a multiple of twice that bit |
| GbBus.TimerPeriod | src/gb.c:227-244 | TIMA moves exactly when the timer is enabled and the new divider is a multiple of the selected period (falling edges only) |
| GbBus.OverflowReloads | src/gb.c:229-243 | an overflow leaves TIMA at 0; on the next dot the timer interrupt is requested and TIMA reloads from TMA, plus one when that dot is itself a falling edge |
| GbBus.StatCheck | src/gb.c:212-225 | the LYC flag mirrors LY == LYC and no other STAT bit changes; IF gains the STAT bit only on a rise of the line |
| GbBus.StatCheckSettles | src/gb.c:212-225 | a line that stays high requests nothing more: a second check changes nothing |
| GbBus.JoypUpdate | src/gb.c:246-259 | the upper nibble of JOYP is kept and the lower becomes the button nibble; IF gains the joypad bit exactly when the new nibble is numerically below the old one |
| GbBus.JoypadButtons | src/gb.c:246-254 | a button's bit reads 0 exactly when it is pressed in a selected group |
| GbBus.DmaCopiesEveryFourDots | src/gb.c:261-289 | from index 0 a transfer has copied k bytes after 4k dots, for k up to 160 |
| GbBus.DmaFourTicks | src/gb.c:262-288 | four dots at a byte boundary copy one byte |
| GbBus.DmaEnds | src/gb.c:262-266 | after 160 bytes, the next dot ends the transfer |
| GbBus.GameBoy.Read8 | src/gb.c:10-62 | one machine cycle, and the byte of the address map (Peek) |
| GbBus.GameBoy.Read16 | src/gb.c:193-195 | two machine cycles and the little-endian word, the high byte at `addr + 1` modulo 0x10000 |
| GbBus.GameBoy.Write8 | src/gb.c:64-191 | one machine cycle; dropped during DMA below 0xFF00 (every region, the divider, DMA and channel 1 kept); otherwise exactly the decoded region changes: VRAM and OAM become the old array with the byte stored when open and stay when locked, WRAM (bank 1 at 0xD000, bank 0 elsewhere and in the echo) and HRAM the old array with the byte stored, cartridge ROM-window writes set the registers to MappersWrite's and keep RAM, RAM-window writes store at the slot or change nothing; 0xFEA0-0xFEFF changes nothing; the I/O register takes IoWrite's value with the DIV, DMA and channel-1 effects and the other registers stay; IE changes only at 0xFFFF, to `data & 0x1F` |
| GbBus.GameBoy.Store | src/gb.c:68-190 | a write that is not dropped: the same per-region new state as Write8, every region other than the decoded one unchanged |
| GbBus.GameBoy.WriteLow | src/gb.c:68-98 | below 0xFE00: cartridge addresses set the registers to MappersWrite's and store RAM-window bytes at the slot; VRAM becomes the old array with the byte stored when open, unchanged when locked; WRAM and its echo take the byte at `addr & 0xFFF` of the right bank; every other region below 0xFE00 is unchanged |
| GbBus.GameBoy.WriteHigh | src/gb.c:99-190 | from 0xFE00: OAM as the old array with the byte stored when open, unchanged when locked; 0xFEA0-0xFEFF changes nothing; I/O registers by IoWrite with the DIV reset, DMA start and channel-1 effects and no other register changed; HRAM stores the byte; IE changes only at 0xFFFF, to `data & 0x1F` |
| GbBus.GameBoy.WriteOam | src/gb.c:99-104 | OAM takes the byte only while open to the CPU |
| GbBus.GameBoy.WriteHram | src/gb.c:186-189 | HRAM takes the byte and reads it back |
| GbBus.GameBoy.WriteCart | src/gb.c:68-86 | the address decodes to region and offset (CartRegion, CartOffset) and the registers become MappersWrite's; ROM-window writes keep RAM; RAM-window writes store at the slot and read back the byte, or change nothing and read 0xFF |
| GbBus.GameBoy.WriteWram | src/gb.c:87-98 | 0xC000 and 0xE000-0xFDFF store into bank 0, 0xD000 into bank 1, at `addr & 0xFFF` |
| GbBus.GameBoy.WriteIo | src/gb.c:108-183 | the register takes IoWrite's value and no other changes; DIV resets the divider, DMA starts a transfer at index 0, NR13/NR14 reach channel 1 |
| GbBus.GameBoy.Write16 | src/gb.c:197-200 | two machine cycles; with no DMA running, a word written within WRAM or within HRAM reads back as the same word (PeekWord); each memory (VRAM, work RAM, OAM, I/O with the divider, DMA state and channel 1, HRAM, the cartridge, IE) is unchanged unless `addr` or `addr + 1` (wrapping) falls in its range (WordIn) |
| GbBus.GameBoy.WriteNext | src/gb.c:199 | the high byte's write: one machine cycle; within WRAM or HRAM the word at `addr` reads as the kept low byte plus 256 times the high byte; each memory outside whose range `addr + 1` (wrapping) falls is unchanged |
| GbBus.GameBoy.ClockTimers | src/gb.c:227-244 | the divider, TIMA, IF and the two timer latches become TimerTick's; no other register changes |
| GbBus.GameBoy.TimerOverflow | src/gb.c:229-233 | a pending overflow requests the timer interrupt and reloads TIMA from TMA, and is cleared |
| GbBus.GameBoy.TimerCount | src/gb.c:235-243 | TIMA increments exactly on a falling edge of the timer input, and an overflow is left exactly when it wraps to 0 |
| GbBus.GameBoy.CheckStatIrq | src/gb.c:212-225 | STAT, IF and the line latch become StatCheck's; no other register changes |
| GbBus.GameBoy.UpdateJoyp | src/gb.c:246-259 | JOYP and IF become JoypUpdate's; no other register changes |
| GbBus.GameBoy.Buttons | src/gb.c:247-254 | the button nibble of the selected groups |
| GbBus.GameBoy.DmaAddr | src/gb.c:268 | the source address is `DMA * 256 + index` |
| GbBus.GameBoy.DmaSource | src/gb.c:270-284 | sources from 0xE000 up give 0xFF |
| GbBus.GameBoy.DmaSeesBus | src/gb.c:270-284 | below 0xE000 DMA reads what the CPU would read with no transfer running, VRAM never being locked for it |
| GbBus.GameBoy.RunDma | src/gb.c:261-289 | the DMA state becomes DmaTick's; on a byte boundary OAM gains the source byte at the index and changes nowhere else |
| GbBus.GameBoy.TickBus | src/gb.c:202-206 | the divider, timer latches, TIMA, STAT, JOYP, IF and the STAT line latch become RegistersTick's (TimerTick, then StatCheck, then JoypUpdate) of the old ones; every other I/O register is kept; the DMA state takes one DmaTick step and OAM gains the source byte on a byte boundary and is otherwise unchanged |
| GbBus.GameBoy.TickRegisters | src/gb.c:203-205 | `clock_timers`, `check_stat_irq`, `update_joyp`: the registers become RegistersTick's of the old ones and no other I/O register changes |
| GbBus.GameBoy.DmaStep | src/gb.c:206 | the DMA state takes one DmaTick step, OAM gains the source byte on a byte boundary and is otherwise unchanged, and the timer, STAT and joypad registers are kept |
| GbBus.RegistersTick | src/gb.c:203-205 | the three register steps of a dot chained through IF: the divider steps modulo 0x10000 and LY, LYC, TMA and TAC are kept (the flag effects are in RegistersTickFlags) |
| GbBus.RegistersTickFlags | src/gb.c:203-205 | after the three register steps STAT's coincidence bit says LY == LYC, JOYP's low nibble shows the selected buttons and its high nibble is kept, and IF only gains bits, only the timer, STAT and joypad ones |
| GbBus.GameBoy.Tick | src/gb.c:202-208 | `tick_gb` without the CPU: the divider, timer latches, TIMA, JOYP and the STAT line latch as RegistersTick computes them; the DMA step and OAM as in TickBus; the beam stays (LCD off) or advances one dot; every I/O register but TIMA, STAT, JOYP, IF, LY, NR52 and the PCM pair is kept; with the sound unit off NR52 becomes 0, its divider, counter and sample index reset, and its channels, status, sweep, envelopes, full flag and PCM pair are kept; with it on NR52 shows the channel enables, the counter advances on an emulation step, the channels become ChannelsTick's of the counted step, the frame sequencer takes a SequencerTick step exactly when the divider is a multiple of SequencerRate and is kept otherwise, and the sample index moves by two (wrapping and marking the buffer full) exactly on a step at a multiple of the sample rate, index, flag and PCM pair being kept otherwise |
| GbBus.GameBoy.TickUnits | src/gb.c:207-208 | one dot of the picture unit, then of the sound unit: the beam position as Ppu.Advance (or kept with the LCD off), every I/O register but STAT, IF, LY, NR52 and the PCM pair kept, and the sound unit's state as Apu.Unit.Clock states it |
| GbBus.AddressMap | src/gb.c:10-61 | during DMA every address below 0xFF00 reads 0xFF; 0xFEA0-0xFEFF and 0xFF4D-0xFF7F read 0xFF; locked VRAM and OAM read 0xFF; DIV reads the divider's high byte; 0xFFFF reads IE |
| GbBus.EchoRam | src/gb.c:37-39 | 0xE000-0xEFFF mirrors 0xC000-0xCFFF; 0xF000-0xFDFF reads bank 0, not the bank 1 at 0xD000 |
| Ppu.Advance | src/ppu.c:34-42 | one dot keeps the dot below 456 and the scanline below 154 |
| Ppu.AdvancesFromStart | src/ppu.c:34-42 | k dots from the start of a frame reach dot `k % 456` of scanline `(k / 456) % 154` |
| Ppu.FrameCycle | src/ppu.c:28-42 | 456 x 154 dots return the beam to the start of the frame, passing the VBlank position exactly once |
| Ppu.VBlankPosition | src/ppu.c:28-33 | within a frame, the beam is at dot 0 of scanline 144 exactly after 144 x 456 dots |
| Ppu.LycCheck | src/ppu.c:12-18 | on LY == LYC the coincidence flag is set, and STAT is requested only if the flag was clear and its interrupt enabled; otherwise nothing changes, and the flag is never cleared |
| Ppu.ModeUpdate | src/ppu.c:19-33 | dot 0 of a visible line sets mode 2; dot 0 of scanline 144 clears the mode and requests VBlank; other dots change nothing; only IF and STAT change |
| Ppu.Unit.constructor | src/ppu.c:5-9 | `init_ppu`: dot 0 of scanline 0 |
| Ppu.Unit.Clock | src/ppu.c:11-43 | the LYC check; with the LCD off nothing else, otherwise the mode update, one dot of movement and LY rewritten from the scanline |
| Ppu.Unit.CheckLyc | src/ppu.c:12-18 | the registers become LycCheck's |
| Ppu.Unit.UpdateMode | src/ppu.c:20-33 | the registers become ModeUpdate's |
| Ppu.Unit.Move | src/ppu.c:34-42 | the beam advances one dot and LY holds the scanline |
| Ppu.ClockKeepsLycFlag | src/ppu.c:12-18 | `ppu_clock` never clears the coincidence flag |
| Apu.DutyShapes | src/apu.c:6 | the four waveforms are high on 7, 6, 4 and 2 of their 8 steps, and repeat every 8 steps |
| Apu.PulseSample | src/apu.c:8-20 | the sample is the volume while the selected waveform is high at the step, else 0 |
| Apu.WaveSample | src/apu.c:22-37 | the nibble of wave RAM byte `(index >> 1) & 15`, high for an even index, shifted by the output level, 0 when muted |
| Apu.WaveRepeats | src/apu.c:22-37 | the wave channel repeats every 32 steps |
| Apu.NoiseSample | src/apu.c:39-41 | the volume while LFSR bit 0 is set, else 0 |
| Apu.PeriodTick | src/apu.c:60-80 | the wavelength is kept, the step advances by at most one, and a counter below 2048 stays below 2048 |
| Apu.PeriodSteps | src/apu.c:68-74 | from a counter c, the counter climbs for `2048 - c - 1` steps and on the next reloads from the wavelength as the waveform steps |
| Apu.NoiseRate | src/apu.c:84-87 | the noise divider is at least 2 |
| Apu.Feedback | src/apu.c:90 | the feedback bit is 0 or 1 |
| Apu.LfsrStep | src/apu.c:90-95 | the feedback lands in bit 14 (and bit 6 in 7-bit mode) after the shift, and the other bits are those of the register shifted right |
| Apu.LfsrLong | src/apu.c:91-95 | in 15-bit mode, after the feedback goes into bit 15 and the register shifts right, bit 14 holds the feedback and bits 0-13 are the old bits 1-14 |
| Apu.LfsrShortMode | src/apu.c:91-95 | in 7-bit mode, with the feedback also in bit 7, the shifted register holds the feedback in bits 14 and 6, the old bits 1-6 in bits 0-5, and stays below 0x8000 |
| Apu.NoiseTick | src/apu.c:82-97 | when the divider plus one reaches the rate (NoiseRate of NR43) it wraps to 0 and the LFSR shifts once (LfsrStep, short mode from NR43 bit 3); otherwise the divider counts up and the LFSR is kept; the divider stays below the rate |
| Apu.EnvelopeTick | src/apu.c:186-198 | when pace is not 0 and the counter plus one (modulo 256) reaches it, the counter restarts at 0 and the volume moves one unit up or down, saturating at 15 and 0; otherwise the counter counts up and the volume is kept; the volume stays within 0-15 |
| Apu.EnvelopeSaturates | src/apu.c:191-197 | a volume at its limit stays there |
| Apu.LengthTick | src/apu.c:135-142 | the channel is switched off exactly when its enabled length counter reaches 64 |
| Apu.WaveLengthTick | src/apu.c:152-157 | the wave channel is switched off exactly when its enabled 8-bit counter wraps to 0 |
| Apu.SweptWavelen | src/apu.c:173-181 | downward sweeps never raise the wavelength; slope 0 gives 0 downward, twice the wavelength upward |
| Apu.SweepTick | src/apu.c:167-185 | when pace is not 0 and the counter plus one reaches it, the counter restarts with the pace from NR10, a non-zero slope sets the wavelength to SweptWavelen, and the channel stays on exactly unless an upward sweep passes 2047; otherwise only the counter moves and the wavelength and enable are kept; the wavelength changes only with a non-zero slope |
| Apu.Nr52 | src/apu.c:52-55 | NR52 reads bit 7 set, bits 0-3 the four channel enables, bits 4-6 clear |
| Apu.LengthsTick | src/apu.c:135-166 | each channel's length and enable take one LengthTick (WaveLengthTick for channel 3) gated by its NRx4 bit 6; the step only ever switches channels off |
| Apu.LengthRunsOut | src/apu.c:136-142 | an enabled length counter started at n keeps the channel on for `63 - n` steps and switches it off on step `64 - n` |
| Apu.ChannelsTick | src/apu.c:57-97 | channel 3 takes a PeriodTick on even counts, channels 1 and 2 on multiples of 4, channel 4 a NoiseTick on multiples of 8, and each is kept otherwise; no wavelength changes |
| Apu.SequencerTick | src/apu.c:130-226 | the sequencer counts up modulo 0x10000; on even values the lengths take a LengthsTick, on multiples of 4 the sweep a SweepTick (whose enable decides channel 1), on multiples of 8 the envelopes an EnvelopeTick, and each part is kept on the other values; channels are only switched off |
| Apu.LengthStep | src/apu.c:135-166 | on even sequencer values the status becomes LengthsTick's, and it is kept on odd ones |
| Apu.SweepStep | src/apu.c:167-185 | on multiples of 4 the sweep, wavelength and enable become SweepTick's, and they are kept on other values |
| Apu.EnvelopeStep | src/apu.c:186-225 | on multiples of 8 each envelope takes an EnvelopeTick, and they are kept on other values |
| Apu.Unit.Clock | src/apu.c:43-227 | with NR52 bit 7 clear: NR52 becomes 0, the divider, sample index and counter reset, and the channels, status, sweep, envelopes and full flag are kept; otherwise NR52 shows the enables, an emulation step advances the counter and sets the channels to ChannelsTick's, and the frame sequencer takes a SequencerTick step exactly when `div` is a multiple of SequencerRate(KEY1), keeping the counted channels but for the swept wavelength; samples move the index by two only on multiples of the sample rate; no register but NR52 and the PCM pair changes |
| Apu.Unit.Run | src/apu.c:57-227 | the part after NR52: the counted step and the sequencer step as Clock states them, relative to the state NR52 was refreshed in |
| Apu.Unit.Count | src/apu.c:57-128 | the counter increments and the channels become ChannelsTick's; a sample moves the index by two, wrapping and marking the buffer full, only on multiples of the sample rate; otherwise the registers, index and full flag are kept |
| Apu.Unit.Samples | src/apu.c:100-103 | each channel sample is below 16 |
| Apu.Unit.Sample | src/apu.c:99-126 | PCM12 and PCM34 get the four samples in pairs, and the sample index advances by two and wraps, marking the buffer full |
| Apu.Unit.Sequence | src/apu.c:130-226 | the sequencer state becomes SequencerTick's |
| Apu.SequencerRate | src/apu.c:130-132 | the frame sequencer's divider period is APU_DIV_RATE, doubled exactly when KEY1 bit 7 (double speed) is set |
| Apu.Mix | src/apu.c:104-105 | two 4-bit samples in one byte, the second in the high nibble |
| DraftSm83Spec.SetPair | sm83.c:44-56 | a store through `getr16g1` is read back by it |
| DraftSm83Spec.AddrPair | sm83.c:58-70 | `getr16g2` gives BC, DE or HL; HL is post-incremented for pair 2 and post-decremented for pair 3; nothing else changes |
| DraftSm83Spec.SetReg8 | sm83.c:94-114 | a store through `getr8dest` is read back by it |
| DraftSm83Spec.AddHLFlags | sm83.c:159-166 | ADD HL,rr: HL gets the 16-bit sum, 8 cycles, N clear, Z kept, C the carry out of bit 15, H the carry out of bit 7 (the low-byte compare) |
| DraftSm83Spec.AddHLHalfCarryDiffers | sm83.c:164 | 0x00FF + 0x0001 sets the draft's H although bit 11 does not carry, where src's flags leave H clear |
| DraftSm83Spec.UndecodedOnlyFetch | sm83.c:283-288 | opcodes with top bits 01, 10 or 11 only move PC past the opcode |
| DraftSm83Spec.StopSkipsByte | sm83.c:132-135 | STOP skips one more byte and sets `stopped`, with no cycles |
| DraftSm83Spec.DaaOnlyCycles | sm83.c:256-259 | DAA adds 4 cycles and changes no register |
| DraftSm83Spec.RotateCircular | sm83.c:228-234 | RLCA rotates A left and puts old bit 7 in C, clearing Z, N and H |
| DraftSm83Spec.RotateCircularRight | sm83.c:235-241 | RRCA rotates A right |
| DraftSm83Spec.RotateCircularRoundTrip | sm83.c:228-241 | RRCA undoes RLCA |
| DraftSm83Spec.RotateThroughCarry | sm83.c:242-255 | RLA puts old bit 7 in C, and RRA after RLA gives back A and the old C |
| DraftSm83Spec.FlagOps | sm83.c:260-276 | CPL twice gives A back; SCF sets C and clears N and H; CCF flips C and clears N and H, twice giving F with N and H cleared |
| DraftSm83Spec.MiscCost | sm83.c:120-149 | NOP 4, LD (nn),SP 20, STOP 0, JR 12, JR cc 8 or 12 when taken; only STOP sets `stopped` |
| DraftSm83Spec.WideCost | sm83.c:151-183 | LD rr,nn 12; ADD HL, LD (rr),A, LD A,(rr), INC rr and DEC rr 8 |
| DraftSm83Spec.ColumnCost | sm83.c:184-279 | INC/DEC r 4 (12 on (HL)), LD r,n 8, the accumulator ops 4 |
| DraftSm83Spec.ExecuteCost | sm83.c:116-290 | every instruction adds its Cost to the countdown, and only STOP sets `stopped` |
| DraftSm83Spec.StoppedIdles | sm83.c:292-293 | while stopped, any number of clocks change nothing |
| DraftSm83Spec.CountdownOnly | sm83.c:292-298 | with a non-zero countdown that lasts, n clocks only count it down by n |
| DraftSm83Spec.NextInstructionAfterCost | sm83.c:292-298 | from a zero countdown, the instruction runs on the first clock and its cost in clocks later the countdown is 0 again |
| DraftSm83Spec.UndecodedStalls | sm83.c:283-298 | an undecoded opcode costs nothing, so the countdown runs below zero and no further instruction ever starts |
| DraftSm83.Cpu.SetFlag | sm83.c:7-13 | F becomes Sm83Flags.SetFlag of the old F |
| DraftSm83.Cpu.ResolveFlags | sm83.c:15-28 | F becomes Sm83Flags.ResolveFlags with no carry-in |
| DraftSm83.Cpu.FetchByte | sm83.c:117 | `read8(PC++)` with no cycles, as DraftSm83Spec.FetchByte |
| DraftSm83.Cpu.FetchWord | sm83.c:128-129 | `read16(PC++); PC++`, as DraftSm83Spec.FetchWord |
| DraftSm83.Cpu.SetReg8 | sm83.c:94-114 | `*getr8dest = v`, as DraftSm83Spec.SetReg8 |
| DraftSm83.Cpu.SetPair | sm83.c:44-56 | `*getr16g1 = w`, as DraftSm83Spec.SetPair |
| DraftSm83.Cpu.AddrPair | sm83.c:58-70 | `getr16g2` with its HL post-step, as DraftSm83Spec.AddrPair |
| DraftSm83.Cpu.StoreSp | sm83.c:126-131 | LD (nn),SP, as DraftSm83Spec.StoreSp |
| DraftSm83.Cpu.Stop | sm83.c:132-135 | STOP, as DraftSm83Spec.Stop |
| DraftSm83.Cpu.Jr | sm83.c:136-140 | JR d, as DraftSm83Spec.Jr |
| DraftSm83.Cpu.JrCond | sm83.c:142-149 | JR cc,d, as DraftSm83Spec.JrCond |
| DraftSm83.Cpu.ExecMisc | sm83.c:120-149 | NOP, LD (nn),SP, STOP, JR and JR cc, as DraftSm83Spec.ExecMisc |
| DraftSm83.Cpu.LoadPair | sm83.c:153-158 | LD rr,nn, as DraftSm83Spec.LoadPair |
| DraftSm83.Cpu.AddHL | sm83.c:159-166 | ADD HL,rr, as DraftSm83Spec.AddHL |
| DraftSm83.Cpu.AddHLFlags | sm83.c:163-165 | the three `set_flag` calls of ADD HL,rr |
| DraftSm83.Cpu.StoreA | sm83.c:167-170 | LD (rr),A, as DraftSm83Spec.StoreA |
| DraftSm83.Cpu.LoadA | sm83.c:171-174 | LD A,(rr), as DraftSm83Spec.LoadA |
| DraftSm83.Cpu.StepPair | sm83.c:175-182 | INC rr and DEC rr, as DraftSm83Spec.StepPair |
| DraftSm83.Cpu.ExecWide | sm83.c:151-183 | the 16-bit group, as DraftSm83Spec.ExecWide |
| DraftSm83.Cpu.IncDecReg | sm83.c:189-216 | INC r and DEC r on a register, as DraftSm83Spec.IncDec |
| DraftSm83.Cpu.IncDecHL | sm83.c:189-216 | INC (HL) and DEC (HL), as DraftSm83Spec.IncDec |
| DraftSm83.Cpu.LoadImm | sm83.c:217-225 | LD r,n, as DraftSm83Spec.LoadImm |
| DraftSm83.Cpu.ExecAccumulator | sm83.c:226-278 | RLCA to CCF with 4 cycles, as DraftSm83Spec.ExecAccumulator |
| DraftSm83.Cpu.Rotate | sm83.c:228-255 | the four accumulator rotates, as DraftSm83Spec.Accumulator |
| DraftSm83.Cpu.FlagOp | sm83.c:256-276 | DAA, CPL, SCF and CCF, as DraftSm83Spec.Accumulator |
| DraftSm83.Cpu.Rlca | sm83.c:228-234 | RLCA, as DraftSm83Spec.Rlca |
| DraftSm83.Cpu.Rrca | sm83.c:235-241 | RRCA, as DraftSm83Spec.Rrca |
| DraftSm83.Cpu.Rla | sm83.c:242-248 | RLA, as DraftSm83Spec.Rla |
| DraftSm83.Cpu.Rra | sm83.c:249-255 | RRA, as DraftSm83Spec.Rra |
| DraftSm83.Cpu.Scf | sm83.c:265-270 | SCF, as DraftSm83Spec.Scf |
| DraftSm83.Cpu.Ccf | sm83.c:271-276 | CCF, as DraftSm83Spec.Ccf |
| DraftSm83.Cpu.RunInstruction | sm83.c:116-290 | one instruction, as DraftSm83Spec.Execute |
| DraftSm83.Cpu.Clock | sm83.c:292-298 | `clock`: nothing while stopped, an instruction when the countdown is 0, then a count down, as DraftSm83Spec.Clock |
| DraftCartridge.Decode | cartridge.c:8-70 | a decoded header announces at least 2 ROM banks that the file holds, and its mapper is MBC0 exactly for type codes 0x00, 0x08 and 0x09 |
| DraftCartridge.RomBanksAgree | cartridge.c:31-36 | the draft's `2 << code` gives src's ROM bank counts |
| DraftCartridge.DecodeAgrees | cartridge.c:18-58 | the draft accepts exactly the files src accepts, with the same mapper and bank counts |
| DraftCartridge.Cart.constructor | cartridge.c:59-71 | the header's fields, the file's ROM, and `ram_banks` zero-filled RAM banks |
| DraftCartridge.Cart.Write | cartridge.c:100-110 | only an MBC0 RAM-window write with RAM present changes RAM, at that byte, which then reads back; any other write changes nothing |
| DraftCartridge.WriteCart | cartridge.c:100-110 | a missing cartridge ignores the write; otherwise as Cart.Write |
| DraftCartridge.Create | cartridge.c:8-73 | no cartridge exactly when Decode refuses the file; otherwise the header's fields, the announced ROM banks and zero-filled RAM |
| DraftCartridge.UnmappedReadsFF | cartridge.c:82-98 | a mapper other than MBC0, and the RAM window of MBC0 without RAM, read 0xFF |
| DraftCartridge.Mbc0ReadsAgree | cartridge.c:85-94 | on MBC0 the draft reads what src's cartridge with the same ROM and RAM reads |

## Findings

| source | as written | input that shows it | evidently intended | confidence | as-written member | corrected member |
|---|---|---|---|---|---|---|
| sm83.c:164 | the draft's ADD HL,rr sets H when the low bytes of the sum carry out of bit 7 | HL = 0x00FF, BC = 0x0001, ADD HL,BC: H set, yet bit 11 does not carry | H is the carry out of bit 11, as src/sm83.c:235-241 computes it | not executed; high | DraftSm83Spec.AddHLHalfCarryDiffers | Sm83Props.AddHLCarries |

## Where the code differs from documented hardware behaviour

The model follows the code in each of these places:

- Opcodes 0xE4, 0xEC, 0xF4 and 0xFC run as CALL cc, and 0xDD, 0xED and 0xFD run as CALL nn (src/sm83.c:567-587). Only 0xD3, 0xDB, 0xE3 and 0xEB latch `ill`.
- Every POP rr clears the low nibble of F, not only POP AF (src/sm83.c:425-427).
- The joypad interrupt is requested when the new button nibble is numerically below the old one. It is not requested for each newly pressed bit (src/gb.c:255).
- The duty table is the complement of the usual one: duty 0 is high on 7 of its 8 steps (src/apu.c:6).
- The echo region 0xE000-0xFDFF always mirrors WRAM bank 0, so 0xF000-0xFDFF does not show bank 1 (src/gb.c:37-38).
- A STAT write cannot set bit 7 (src/gb.c:151-152).
- The only sound registers with write effects are NR13 and NR14 (src/gb.c:129-146). The other sound registers ignore writes.
- The draft's ADD HL takes H from the low byte; see Findings.
- The draft's DAA only spends 4 cycles (sm83.c:256-259).

## Left out

- `cpu_clock` is not called from `GameBoy.Tick`. The CPU runs on its own abstract bus, `Sm83Spec.Memory`. Each of its accesses costs 4 ticks, like `read8`/`write8`. How the whole machine interleaves within one tick is not modelled.
- `gb_m_cycle` is not part of this model. It is modelled as adding 4 to the tick counter.
- Cycle counters are unbounded integers. The C `int` overflow of `cycles` is not modelled, in src or in the draft.
- Several placeholders with no logic are left out: the RTC registers of MBC3 (read 0xFF, writes ignored), HDMA (an opaque flag that stalls the CPU), and the sprite search and pixel pipeline of the picture unit.
- Sound output is only partly modelled:
  - The float scaling of samples into the sample buffer is left out.
  - The NR50/NR51 panning sums are left out.
  - The emulation-speed test `gbemu.cycle % gbemu.speed == 0` is a boolean parameter.
- Host code is left out: SDL, windows, audio and controller setup, `gb_handle_event`, the emulator loop, save states, `print_cpu_state` and `main`.
- File handling is left out. The model does not cover opening, reading, `ftruncate`/`mmap` of the save file, or `cart_destroy`. `cart_create` takes the file's bytes, its name and the save file's bytes as parameters.
- Constants the headers lack are taken from the hardware register map. These are KEY1, the wave RAM, NR21-NR52, and the NR10/NR43 field masks.
- Cartridge.Mbc5Regs.RomBank: src/cartridge.h declares only MBC1's registers, so the MBC5 layout is assumed: `cur_rom_bank` overlays `cur_rom_bank_l` (low byte) and `cur_rom_bank_h` (high byte) in a little-endian union, giving `lo | hi << 8`.
- GbBus.GameBoy.Write16: the read-back is stated for words inside WRAM or inside HRAM with no DMA running. For a word that straddles two regions, or lands in VRAM, OAM, the cartridge or I/O, only the region frames are stated (WordIn); the contents written there are stated byte by byte by Write8. The full little-endian round trip on any address is proved on the CPU's bus by Sm83Props.Write16Read16.
- GbBus.TimerTick: the contract states the divider step and the kept TMA/TAC. Its TIMA and IF behaviour is proved in GbBus.TimerPeriod and GbBus.OverflowReloads.
- Cartridge.HasBattery: a predicate with no contract of its own; MapperOf states that every battery code is an accepted mapper code, and DecodeHeaderAccepts that the decoded header carries it.
- GbBus.GameBoy.Tick: STAT, IF and LY after the picture unit's dot are not composed into Tick's contract. TickBus states them after the bus's registers, and Ppu.Unit.Clock states the picture unit's changes to them.
- Apu.Unit.Clock: the PCM12/PCM34 values of a sample are stated by Apu.Unit.Sample and not repeated in Clock, which states only that no other register changes and how the sample index moves.
- DraftSm83.Cpu.Clock: the draft's `stopped` is never cleared, since nothing in the draft clears it.
- Sm83Flags.EvalCond: the draft's `eval_cond` is the same code as src's, so the draft uses Sm83Flags.EvalCond.
- The RET-after-CALL round trip over two instructions is not stated. CallPushes and RetPops state each half.
