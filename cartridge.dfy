/** The cartridge of src/cartridge.c: decoding of the three header bytes
    `cart_create` reads (0x147 mapper code, 0x148 ROM size code, 0x149 RAM
    size code) and the CGB flag, the save-file name, and the bank
    switching of `cart_read`/`cart_write` for MBC0, MBC1, MBC3 and MBC5.
    The other mappers are recognised but read 0xFF and ignore writes. */
module Cartridge {
  import opened Bytes
  import opened Options

  const ROM_BANK_SIZE: nat := 0x4000
  const RAM_BANK_SIZE: nat := 0x2000

  /** Offsets of the header bytes read by `cart_create`. */
  const CGB_FLAG: nat := 0x143
  const CART_TYPE: nat := 0x147
  const ROM_SIZE: nat := 0x148
  const RAM_SIZE: nat := 0x149

  datatype Mbc = MBC0 | MBC1 | MBC2 | MMM01 | MBC3 | MBC5 | MBC6 | MBC7

  /** `enum cart_region`: the two ROM windows and the external RAM window. */
  datatype Region = Rom0 | Rom1 | Ram

  /** Offsets inside a region are below its window size (the bus masks them). */
  function RegionSize(region: Region): nat {
    if region == Ram then RAM_BANK_SIZE else ROM_BANK_SIZE
  }

  // ------------------------------------------------------------- header

  /** The mapper a cartridge-type code selects, or None for a code
      `cart_create` refuses. */
  function MapperOf(code: bv8): (m: Option<Mbc>)
    ensures m.None? <==> code > 0x22 || code in {0x04, 0x07, 0x0A, 0x0E, 0x14, 0x15, 0x16, 0x17, 0x18, 0x1F, 0x21}
    ensures HasBattery(code) ==> m.Some?
  {
    if code == 0x00 || code == 0x08 || code == 0x09 then Some(MBC0)
    else if 0x01 <= code <= 0x03 then Some(MBC1)
    else if code == 0x05 || code == 0x06 then Some(MBC2)
    else if 0x0B <= code <= 0x0D then Some(MMM01)
    else if 0x0F <= code <= 0x13 then Some(MBC3)
    else if 0x19 <= code <= 0x1E then Some(MBC5)
    else if code == 0x20 then Some(MBC6)
    else if code == 0x22 then Some(MBC7)
    else None
  }

  /** The cartridge-type codes whose cartridge has a battery. */
  predicate HasBattery(code: bv8) {
    code in {0x03, 0x06, 0x09, 0x0D, 0x0F, 0x10, 0x13, 0x1B, 0x1E, 0x22}
  }

  /** The bank counts a power of two can take here (1 to 512). */
  predicate PowerOfTwo(n: nat) {
    n in {1, 2, 4, 8, 16, 32, 64, 128, 256, 512}
  }

  /** `2 << code` ROM banks for codes 0 to 8, None otherwise. */
  function RomBankCount(code: bv8): (r: Option<nat>)
    ensures r.Some? <==> code <= 8
    ensures r.Some? ==> 2 <= r.value <= 512 && PowerOfTwo(r.value)
  {
    if code <= 8 then
      Pow2Table(code as nat);
      Some(2 * Pow2(code as nat))
    else None
  }

  /** RAM bank counts 0, 0, 1, 4, 16, 8 for codes 0 to 5, None otherwise. */
  function RamBankCount(code: bv8): (r: Option<nat>)
    ensures r.Some? <==> code <= 5
    ensures r.Some? ==> r.value == 0 || PowerOfTwo(r.value)
  {
    if code <= 1 then Some(0)
    else if code == 2 then Some(1)
    else if code == 3 then Some(4)
    else if code == 4 then Some(16)
    else if code == 5 then Some(8)
    else None
  }

  datatype Header = Header(mapper: Mbc, battery: bool, romBanks: nat, ramBanks: nat, cgbCompat: bool)

  /** What `cart_create` learns from the ROM file, or None where it returns
      NULL: the file is too short for the header or for the ROM banks the
      header announces, or a code is unknown. */
  function DecodeHeader(file: seq<bv8>): (r: Option<Header>)
    ensures r.Some? ==> |file| >= r.value.romBanks * ROM_BANK_SIZE
    ensures r.Some? ==> 2 <= r.value.romBanks && PowerOfTwo(r.value.romBanks)
    ensures r.Some? ==> r.value.ramBanks == 0 || PowerOfTwo(r.value.ramBanks)
  {
    if |file| < RAM_SIZE + 1 then None
    else
      var code := file[CART_TYPE];
      var mapper := MapperOf(code);
      var rom := RomBankCount(file[ROM_SIZE]);
      var ram := RamBankCount(file[RAM_SIZE]);
      if mapper.None? || rom.None? || ram.None? then None
      else if |file| < rom.value * ROM_BANK_SIZE then None
      else Some(Header(mapper.value, HasBattery(code), rom.value, ram.value, file[CGB_FLAG] & 0x80 != 0))
  }

  /** `cart_create` accepts a file exactly when it holds the header bytes,
      all three codes are known and the file holds the `2 << code` ROM banks
      announced; the header then carries the mapper of the type code, the
      battery flag of that code, the RAM bank count of its table and bit 7
      of the CGB byte. */
  lemma DecodeHeaderAccepts(file: seq<bv8>)
    ensures DecodeHeader(file).Some? <==>
              && |file| > RAM_SIZE && MapperOf(file[CART_TYPE]).Some?
              && file[ROM_SIZE] <= 8 && file[RAM_SIZE] <= 5
              && |file| >= 2 * Pow2(file[ROM_SIZE] as nat) * ROM_BANK_SIZE
    ensures DecodeHeader(file).Some? ==>
              var h := DecodeHeader(file).value;
              && Some(h.mapper) == MapperOf(file[CART_TYPE])
              && h.battery == HasBattery(file[CART_TYPE])
              && h.romBanks == 2 * Pow2(file[ROM_SIZE] as nat)
              && Some(h.ramBanks) == RamBankCount(file[RAM_SIZE])
              && h.cgbCompat == (file[CGB_FLAG] & 0x80 != 0)
  {
  }

  // ---------------------------------------------------------- save name

  /** The index of the last '.' of `s`, or -1. */
  function LastDot(s: string): (i: int)
    ensures -1 <= i < |s|
    ensures i >= 0 ==> s[i] == '.'
    ensures forall j | i < j < |s| :: s[j] != '.'
  {
    if |s| == 0 then -1
    else if s[|s| - 1] == '.' then |s| - 1
    else LastDot(s[..|s| - 1])
  }

  /** The save-file name: the ROM name up to and including its last '.',
      then "sav". */
  function SaveName(filename: string): string {
    filename[..LastDot(filename) + 1] + "sav"
  }

  /** The scan of `cart_create` for the last '.', then the copy. */
  method SaveNameOf(filename: string) returns (name: string)
    ensures name == SaveName(filename)
  {
    var i := |filename| - 1;
    while i >= 0 && filename[i] != '.'
      invariant -1 <= i < |filename|
      invariant forall j | i < j < |filename| :: filename[j] != '.'
      decreases i + 1
    {
      i := i - 1;
    }
    LastDotIsUnique(filename, i);
    name := filename[..i + 1] + "sav";
  }

  /** The last '.' is the only index with a '.' and none after it. */
  lemma {:induction false} LastDotIsUnique(s: string, i: int)
    requires -1 <= i < |s|
    requires i >= 0 ==> s[i] == '.'
    requires forall j | i < j < |s| :: s[j] != '.'
    ensures i == LastDot(s)
  {
    if |s| > 0 && s[|s| - 1] != '.' {
      LastDotIsUnique(s[..|s| - 1], i);
    }
  }

  /** A name with an extension gets "sav" in place of it. */
  lemma {:induction false} SaveNameReplacesExtension(base: string, ext: string)
    requires '.' !in ext
    ensures SaveName(base + "." + ext) == base + ".sav"
  {
    var s := base + "." + ext;
    LastDotIsUnique(s, |base|);
    assert s[..|base| + 1] == base + ".";
  }

  /** A name without a '.' becomes just "sav". */
  lemma {:induction false} SaveNameWithoutDot(s: string)
    requires '.' !in s
    ensures SaveName(s) == "sav"
  {
    LastDotIsUnique(s, -1);
  }

  // --------------------------------------------------- bank arithmetic

  /** `bank & (count - 1)`: with a power-of-two count this is the bank
      modulo the count, so it is always a bank that exists. */
  function MaskBank(bank: nat, count: nat): (r: nat)
    requires PowerOfTwo(count)
    ensures r == bank % count && r < count
  {
    var k: nat := if count == 1 then 0 else if count == 2 then 1 else if count == 4 then 2
      else if count == 8 then 3 else if count == 16 then 4 else if count == 32 then 5
      else if count == 64 then 6 else if count == 128 then 7 else if count == 256 then 8 else 9;
    assert Pow2(k) == count;
    AndLowMask(bank, k);
    BitAnd(bank, count - 1)
  }

  /** MBC1: RAM-enable byte, the 5-bit and 2-bit bank registers, the mode. */
  datatype Mbc1Regs = Mbc1Regs(ramEnable: bv8, bank5: bv8, bank2: bv8, mode: bv8)
  {
    /** The values `cart_write` can leave in the registers. */
    predicate Valid() {
      (ramEnable == 0 || ramEnable == 0x0A) && bank5 < 32 && bank2 < 4 && mode < 2
    }
  }

  /** MBC3: RAM-enable byte, the 7-bit ROM bank, the 4-bit RAM/RTC selector. */
  datatype Mbc3Regs = Mbc3Regs(ramEnable: bv8, romBank: bv8, ramBank: bv8)
  {
    predicate Valid() {
      (ramEnable == 0 || ramEnable == 0x0A) && romBank < 0x80 && ramBank < 0x10
    }
  }

  /** MBC5: RAM-enable byte, the 9-bit ROM bank in two halves, the RAM bank. */
  datatype Mbc5Regs = Mbc5Regs(ramEnable: bv8, romLo: bv8, romHi: bv8, ramBank: bv8)
  {
    predicate Valid() {
      romHi < 2
    }
    /** `cur_rom_bank`: the low byte and bit 8. */
    function RomBank(): nat {
      BitOr(romLo as nat, romHi as nat * 256)
    }
  }

  /** The bank MBC1 maps at 0x0000-0x3FFF: bank 0, unless mode 1 on a ROM
      of more than 32 banks selects the 2-bit register's bank `<< 5`. */
  function Mbc1Rom0Bank(r: Mbc1Regs, romBanks: nat): (b: nat)
    requires PowerOfTwo(romBanks)
    ensures b < romBanks
  {
    if r.mode == 0 then 0
    else if romBanks > 32 then MaskBank(r.bank2 as nat * 32, romBanks)
    else 0
  }

  /** The bank MBC1 maps at 0x4000-0x7FFF: the 5-bit register, 0 read as 1,
      with the 2-bit register `<< 5` on top for ROMs above 32 banks. */
  function Mbc1Rom1Bank(r: Mbc1Regs, romBanks: nat): (b: nat)
    requires PowerOfTwo(romBanks)
    ensures b < romBanks
  {
    var low := if r.bank5 != 0 then r.bank5 as nat else 1;
    MaskBank(BitOr(low, if romBanks > 32 then r.bank2 as nat * 32 else 0), romBanks)
  }

  /** The RAM bank MBC1 maps: bank 0 in mode 0 or on a large ROM, else the
      2-bit register. */
  function Mbc1RamBank(r: Mbc1Regs, romBanks: nat, ramBanks: nat): (b: nat)
    requires PowerOfTwo(ramBanks)
    ensures b < ramBanks
  {
    if r.mode == 0 || romBanks > 32 then 0 else MaskBank(r.bank2 as nat, ramBanks)
  }

  /** The bank MBC3 maps at 0x4000-0x7FFF: the 7-bit register, 0 read as 1. */
  function Mbc3Rom1Bank(r: Mbc3Regs, romBanks: nat): (b: nat)
    requires PowerOfTwo(romBanks)
    ensures b < romBanks
  {
    MaskBank(if r.romBank != 0 then r.romBank as nat else 1, romBanks)
  }

  /** The bank MBC5 maps at 0x4000-0x7FFF: the 9-bit register as it is. */
  function Mbc5Rom1Bank(r: Mbc5Regs, romBanks: nat): (b: nat)
    requires PowerOfTwo(romBanks)
    ensures b < romBanks
  {
    MaskBank(r.RomBank(), romBanks)
  }

  /** MBC1 on a ROM of more than 32 banks: the 2-bit register supplies bits
      5-6 of the bank number, the 5-bit register (0 read as 1) the rest. */
  lemma Mbc1LargeRom(r: Mbc1Regs, romBanks: nat)
    requires r.Valid() && PowerOfTwo(romBanks) && romBanks > 32
    ensures Mbc1Rom1Bank(r, romBanks) ==
            ((if r.bank5 != 0 then r.bank5 as nat else 1) + 32 * r.bank2 as nat) % romBanks
  {
    assert Pow2(5) == 32;
    OrDisjoint(if r.bank5 != 0 then r.bank5 as nat else 1, r.bank2 as nat, 5);
  }

  /** MBC1 on a ROM of at most 32 banks: only the 5-bit register counts. */
  lemma Mbc1SmallRom(r: Mbc1Regs, romBanks: nat)
    requires PowerOfTwo(romBanks) && romBanks <= 32
    ensures Mbc1Rom1Bank(r, romBanks) == (if r.bank5 != 0 then r.bank5 as nat else 1) % romBanks
  {
  }

  /** MBC1: a 0 in the 5-bit register selects what a 1 would. */
  lemma Mbc1ZeroIsOne(r: Mbc1Regs, romBanks: nat)
    requires PowerOfTwo(romBanks)
    ensures Mbc1Rom1Bank(r.(bank5 := 0), romBanks) == Mbc1Rom1Bank(r.(bank5 := 1), romBanks)
  {
  }

  /** MBC1: the low window shows bank 0 unless mode 1 on a ROM of more than
      32 banks. */
  lemma Mbc1Rom0IsBankZero(r: Mbc1Regs, romBanks: nat)
    requires PowerOfTwo(romBanks) && (r.mode == 0 || romBanks <= 32)
    ensures Mbc1Rom0Bank(r, romBanks) == 0
  {
  }

  /** MBC3: a 0 in the ROM register selects bank 1. */
  lemma Mbc3ZeroIsOne(r: Mbc3Regs, romBanks: nat)
    requires PowerOfTwo(romBanks)
    ensures Mbc3Rom1Bank(r.(romBank := 0), romBanks) == Mbc3Rom1Bank(r.(romBank := 1), romBanks)
  {
  }

  /** MBC5: the two halves form bank `lo + 256 hi`, and bank 0 is not
      remapped. */
  lemma Mbc5Bank(r: Mbc5Regs, romBanks: nat)
    requires r.Valid() && PowerOfTwo(romBanks)
    ensures Mbc5Rom1Bank(r, romBanks) == (r.romLo as nat + 256 * r.romHi as nat) % romBanks
  {
    assert Pow2(8) == 256;
    OrDisjoint(r.romLo as nat, r.romHi as nat, 8);
  }

  /** The MBC1 registers after a write to a ROM window: 0x0000-0x1FFF
      enables or disables RAM (only 0x0A and 0x00 are taken), 0x2000-0x3FFF
      the 5-bit bank, 0x4000-0x5FFF the 2-bit bank, 0x6000-0x7FFF the mode
      (only 0 and 1 are taken). A RAM-window write leaves them alone. */
  function Mbc1Write(r: Mbc1Regs, addr: nat, region: Region, data: bv8): (s: Mbc1Regs)
    ensures r.Valid() ==> s.Valid()
    ensures region == Ram ==> s == r
    ensures s.ramEnable != r.ramEnable ==> region == Rom0 && addr < 0x2000 && (data == 0x00 || data == 0x0A)
    ensures s.bank5 != r.bank5 ==> region == Rom0 && addr >= 0x2000 && s.bank5 == data & 0x1F
    ensures s.bank2 != r.bank2 ==> region == Rom1 && addr < 0x2000 && s.bank2 == data & 0x03
    ensures s.mode != r.mode ==> region == Rom1 && addr >= 0x2000 && (data == 0x00 || data == 0x01)
    ensures region == Rom0 && addr < 0x2000 && (data == 0x00 || data == 0x0A) ==> s.ramEnable == data
    ensures region == Rom0 && addr >= 0x2000 ==> s.bank5 == data & 0x1F
    ensures region == Rom1 && addr < 0x2000 ==> s.bank2 == data & 0x03
    ensures region == Rom1 && addr >= 0x2000 && (data == 0x00 || data == 0x01) ==> s.mode == data
  {
    match region
    case Rom0 =>
      if addr < 0x2000 then
        if data == 0x0A || data == 0x00 then r.(ramEnable := data) else r
      else r.(bank5 := data & 0x1F)
    case Rom1 =>
      if addr < 0x2000 then r.(bank2 := data & 0x03)
      else if data == 0x01 || data == 0x00 then r.(mode := data) else r
    case Ram => r
  }

  /** The MBC3 registers after a write to a ROM window: RAM enable, the
      7-bit ROM bank, the 4-bit RAM/RTC selector; 0x6000-0x7FFF (the RTC
      latch) and the RAM window leave them alone. */
  function Mbc3Write(r: Mbc3Regs, addr: nat, region: Region, data: bv8): (s: Mbc3Regs)
    ensures r.Valid() ==> s.Valid()
    ensures region == Ram || (region == Rom1 && addr >= 0x2000) ==> s == r
    ensures s.ramEnable != r.ramEnable ==> region == Rom0 && addr < 0x2000 && (data == 0x00 || data == 0x0A)
    ensures s.romBank != r.romBank ==> region == Rom0 && addr >= 0x2000 && s.romBank == data & 0x7F
    ensures s.ramBank != r.ramBank ==> region == Rom1 && addr < 0x2000 && s.ramBank == data & 0x0F
    ensures region == Rom0 && addr < 0x2000 && (data == 0x00 || data == 0x0A) ==> s.ramEnable == data
    ensures region == Rom0 && addr >= 0x2000 ==> s.romBank == data & 0x7F
    ensures region == Rom1 && addr < 0x2000 ==> s.ramBank == data & 0x0F
  {
    match region
    case Rom0 =>
      if addr < 0x2000 then
        if data == 0x0A || data == 0x00 then r.(ramEnable := data) else r
      else r.(romBank := data & 0x7F)
    case Rom1 =>
      if addr < 0x2000 then r.(ramBank := data & 0x0F) else r
    case Ram => r
  }

  /** The MBC5 registers after a write to a ROM window: RAM enable (any
      byte whose low nibble is 0xA, or 0), the low byte and bit 8 of the ROM
      bank, the RAM bank. */
  function Mbc5Write(r: Mbc5Regs, addr: nat, region: Region, data: bv8): (s: Mbc5Regs)
    ensures r.Valid() ==> s.Valid()
    ensures region == Ram ==> s == r
    ensures s.ramEnable != r.ramEnable ==> region == Rom0 && addr < 0x2000 && (data == 0x00 || data & 0x0F == 0x0A)
    ensures s.romLo != r.romLo ==> region == Rom0 && addr >= 0x2000 && s.romLo == data
    ensures s.romHi != r.romHi ==> region == Rom1 && addr < 0x2000 && s.romHi == data & 0x01
    ensures s.ramBank != r.ramBank ==> region == Rom1 && addr >= 0x2000 && s.ramBank == data
    ensures region == Rom0 && addr < 0x2000 && (data == 0x00 || data & 0x0F == 0x0A) ==> s.ramEnable == data
    ensures region == Rom0 && addr >= 0x2000 ==> s.romLo == data
    ensures region == Rom1 && addr < 0x2000 ==> s.romHi == data & 0x01
    ensures region == Rom1 && addr >= 0x2000 ==> s.ramBank == data
  {
    match region
    case Rom0 =>
      if addr < 0x2000 then
        if data & 0x0F == 0x0A || data == 0x00 then r.(ramEnable := data) else r
      else r.(romLo := data)
    case Rom1 =>
      if addr < 0x2000 then r.(romHi := data & 0x01) else r.(ramBank := data)
    case Ram => r
  }

  /** MBC1 bank switching: a write to 0x2000-0x3FFF on a ROM of at most 32
      banks selects bank `data & 0x1F` (0 read as 1) at 0x4000. */
  lemma Mbc1SwitchRom1(r: Mbc1Regs, addr: nat, data: bv8, romBanks: nat)
    requires PowerOfTwo(romBanks) && romBanks <= 32 && addr >= 0x2000
    ensures var b := data & 0x1F;
            Mbc1Rom1Bank(Mbc1Write(r, addr, Rom0, data), romBanks) == (if b != 0 then b as nat else 1) % romBanks
  {
    Mbc1SmallRom(Mbc1Write(r, addr, Rom0, data), romBanks);
  }

  /** MBC3 bank switching: a write to 0x2000-0x3FFF selects bank
      `data & 0x7F` (0 read as 1) at 0x4000. */
  lemma Mbc3SwitchRom1(r: Mbc3Regs, addr: nat, data: bv8, romBanks: nat)
    requires PowerOfTwo(romBanks) && addr >= 0x2000
    ensures var b := data & 0x7F;
            Mbc3Rom1Bank(Mbc3Write(r, addr, Rom0, data), romBanks) == (if b != 0 then b as nat else 1) % romBanks
  {
  }

  /** MBC5 bank switching: the low byte written to 0x2000-0x2FFF and bit 0
      of the byte written to 0x3000-0x3FFF select bank `lo + 256 (hi & 1)`. */
  lemma Mbc5SwitchRom1(r: Mbc5Regs, addrLo: nat, lo: bv8, addrHi: nat, hi: bv8, romBanks: nat)
    requires r.Valid() && PowerOfTwo(romBanks) && addrLo >= 0x2000 && addrHi < 0x2000
    ensures var s := Mbc5Write(Mbc5Write(r, addrLo, Rom0, lo), addrHi, Rom1, hi);
            Mbc5Rom1Bank(s, romBanks) == (lo as nat + 256 * (hi & 0x01) as nat) % romBanks
  {
    Mbc5Bank(Mbc5Write(Mbc5Write(r, addrLo, Rom0, lo), addrHi, Rom1, hi), romBanks);
  }

  /** The three register sets, and `cart_write`'s effect on them: only the
      set of the cartridge's own mapper changes. */
  datatype Mappers = Mappers(mbc1: Mbc1Regs, mbc3: Mbc3Regs, mbc5: Mbc5Regs)

  function MappersWrite(mapper: Mbc, m: Mappers, addr: nat, region: Region, data: bv8): Mappers {
    match mapper
    case MBC1 => m.(mbc1 := Mbc1Write(m.mbc1, addr, region, data))
    case MBC3 => m.(mbc3 := Mbc3Write(m.mbc3, addr, region, data))
    case MBC5 => m.(mbc5 := Mbc5Write(m.mbc5, addr, region, data))
    case _ => m
  }

  // ---------------------------------------------------------- cartridge

  /** A cartridge: the decoded header, the ROM image, the external RAM and
      the mapper registers `cart_write` updates (the source overlays them in
      one union; only the mapper's own set is ever used). */
  class Cart {
    const mapper: Mbc
    const battery: bool
    const romBanks: nat
    const ramBanks: nat
    const cgbCompat: bool
    const rom: seq<bv8>
    const ram: array<bv8>
    var mbc1: Mbc1Regs
    var mbc3: Mbc3Regs
    var mbc5: Mbc5Regs

    ghost predicate Valid()
      reads this
    {
      PowerOfTwo(romBanks) && romBanks >= 2 && |rom| == romBanks * ROM_BANK_SIZE &&
      (ramBanks == 0 || PowerOfTwo(ramBanks)) && ram.Length == ramBanks * RAM_BANK_SIZE &&
      mbc1.Valid() && mbc3.Valid() && mbc5.Valid()
    }

    /** The cartridge `cart_create` builds: registers zeroed by `calloc`,
        RAM from `ramInit`. */
    constructor (h: Header, romImage: seq<bv8>, ramInit: seq<bv8>)
      requires 2 <= h.romBanks && PowerOfTwo(h.romBanks) && (h.ramBanks == 0 || PowerOfTwo(h.ramBanks))
      requires |romImage| == h.romBanks * ROM_BANK_SIZE && |ramInit| == h.ramBanks * RAM_BANK_SIZE
      ensures Valid() && fresh(ram)
      ensures mapper == h.mapper && battery == h.battery && romBanks == h.romBanks
      ensures ramBanks == h.ramBanks && cgbCompat == h.cgbCompat
      ensures rom == romImage && ram[..] == ramInit
      ensures mbc1 == Mbc1Regs(0, 0, 0, 0) && mbc3 == Mbc3Regs(0, 0, 0) && mbc5 == Mbc5Regs(0, 0, 0, 0)
    {
      mapper, battery, romBanks, ramBanks, cgbCompat := h.mapper, h.battery, h.romBanks, h.ramBanks, h.cgbCompat;
      rom := romImage;
      ram := new bv8[|ramInit|](i requires 0 <= i < |ramInit| => ramInit[i]);
      mbc1, mbc3, mbc5 := Mbc1Regs(0, 0, 0, 0), Mbc3Regs(0, 0, 0), Mbc5Regs(0, 0, 0, 0);
    }

    function Registers(): Mappers
      reads this
    {
      Mappers(mbc1, mbc3, mbc5)
    }

    /** The ROM bank a ROM window shows, or None for the mappers without
        support, which read 0xFF. */
    function RomBank(region: Region): (b: Option<nat>)
      requires Valid() && region != Ram
      reads this
      ensures b.Some? ==> b.value < romBanks
      ensures b.Some? <==> mapper in {MBC0, MBC1, MBC3, MBC5}
    {
      match mapper
      case MBC0 => Some(if region == Rom0 then 0 else 1)
      case MBC1 => Some(if region == Rom0 then Mbc1Rom0Bank(mbc1, romBanks) else Mbc1Rom1Bank(mbc1, romBanks))
      case MBC3 => Some(if region == Rom0 then 0 else Mbc3Rom1Bank(mbc3, romBanks))
      case MBC5 => Some(if region == Rom0 then 0 else Mbc5Rom1Bank(mbc5, romBanks))
      case _ => None
    }

    /** The byte of external RAM an access at `addr` in the RAM window
        reaches, or None when the RAM is absent, disabled, or (MBC3) the
        selector names an RTC register. Reads and writes agree on it. */
    function RamSlot(addr: nat): (i: Option<nat>)
      requires Valid() && addr < RAM_BANK_SIZE
      reads this
      ensures i.Some? ==> i.value < ram.Length
      ensures i.Some? ==> ramBanks > 0
    {
      match mapper
      case MBC0 => if ramBanks != 0 then Some(addr) else None
      case MBC1 =>
        if ramBanks != 0 && mbc1.ramEnable != 0 then
          Some(Mbc1RamBank(mbc1, romBanks, ramBanks) * RAM_BANK_SIZE + addr)
        else None
      case MBC3 =>
        if mbc3.ramEnable != 0 && mbc3.ramBank & 0x08 == 0 && ramBanks != 0 then
          Some(MaskBank(mbc3.ramBank as nat, ramBanks) * RAM_BANK_SIZE + addr)
        else None
      case MBC5 =>
        if ramBanks != 0 && mbc5.ramEnable != 0 then
          Some(MaskBank(mbc5.ramBank as nat, ramBanks) * RAM_BANK_SIZE + addr)
        else None
      case _ => None
    }

    /** `cart_read`: the byte the mapper shows at `addr` of `region`. */
    function Read(addr: nat, region: Region): bv8
      requires Valid() && addr < RegionSize(region)
      reads this, ram
    {
      if region == Ram then
        match RamSlot(addr)
        case Some(i) => ram[i]
        case None => 0xFF
      else
        match RomBank(region)
        case Some(b) => rom[b * ROM_BANK_SIZE + addr]
        case None => 0xFF
    }

    /** A store into the RAM window, dropped when there is no slot. */
    method WriteRam(addr: nat, data: bv8)
      requires Valid() && addr < RAM_BANK_SIZE
      modifies ram
      ensures RamSlot(addr).Some? ==> ram[..] == old(ram[..])[RamSlot(addr).value := data]
      ensures RamSlot(addr).None? ==> ram[..] == old(ram[..])
      ensures Read(addr, Ram) == if RamSlot(addr).Some? then data else 0xFF
    {
      var slot := RamSlot(addr);
      if slot.Some? {
        ram[slot.value] := data;
      }
    }

    /** `cart_write` for MBC1, MBC3 and MBC5: a RAM-window write stores
        through `WriteRam`, any other write sets the mapper's registers. */
    method WriteMbc1(addr: nat, region: Region, data: bv8)
      requires Valid() && mapper == MBC1 && addr < RegionSize(region)
      modifies this`mbc1, ram
      ensures Valid() && mbc1 == Mbc1Write(old(mbc1), addr, region, data)
      ensures region != Ram ==> ram[..] == old(ram[..])
      ensures region == Ram && old(RamSlot(addr)).Some? ==>
                ram[..] == old(ram[..])[old(RamSlot(addr)).value := data]
      ensures region == Ram && old(RamSlot(addr)).None? ==> ram[..] == old(ram[..])
    {
      if region == Rom0 {
        if addr < 0x2000 {
          if data == 0x0A || data == 0x00 {
            mbc1 := mbc1.(ramEnable := data);
          }
        } else {
          mbc1 := mbc1.(bank5 := data & 0x1F);
        }
      } else if region == Rom1 {
        if addr < 0x2000 {
          mbc1 := mbc1.(bank2 := data & 0x03);
        } else if data == 0x01 || data == 0x00 {
          mbc1 := mbc1.(mode := data);
        }
      } else {
        WriteRam(addr, data);
      }
    }

    /** The RTC registers are not modelled, so their writes change nothing. */
    method WriteMbc3(addr: nat, region: Region, data: bv8)
      requires Valid() && mapper == MBC3 && addr < RegionSize(region)
      modifies this`mbc3, ram
      ensures Valid() && mbc3 == Mbc3Write(old(mbc3), addr, region, data)
      ensures region != Ram ==> ram[..] == old(ram[..])
      ensures region == Ram && old(RamSlot(addr)).Some? ==>
                ram[..] == old(ram[..])[old(RamSlot(addr)).value := data]
      ensures region == Ram && old(RamSlot(addr)).None? ==> ram[..] == old(ram[..])
    {
      if region == Rom0 {
        if addr < 0x2000 {
          if data == 0x0A || data == 0x00 {
            mbc3 := mbc3.(ramEnable := data);
          }
        } else {
          mbc3 := mbc3.(romBank := data & 0x7F);
        }
      } else if region == Rom1 {
        if addr < 0x2000 {
          mbc3 := mbc3.(ramBank := data & 0x0F);
        }
      } else {
        WriteRam(addr, data);
      }
    }

    method WriteMbc5(addr: nat, region: Region, data: bv8)
      requires Valid() && mapper == MBC5 && addr < RegionSize(region)
      modifies this`mbc5, ram
      ensures Valid() && mbc5 == Mbc5Write(old(mbc5), addr, region, data)
      ensures region != Ram ==> ram[..] == old(ram[..])
      ensures region == Ram && old(RamSlot(addr)).Some? ==>
                ram[..] == old(ram[..])[old(RamSlot(addr)).value := data]
      ensures region == Ram && old(RamSlot(addr)).None? ==> ram[..] == old(ram[..])
    {
      if region == Rom0 {
        if addr < 0x2000 {
          if data & 0x0F == 0x0A || data == 0x00 {
            mbc5 := mbc5.(ramEnable := data);
          }
        } else {
          mbc5 := mbc5.(romLo := data);
        }
      } else if region == Rom1 {
        if addr < 0x2000 {
          mbc5 := mbc5.(romHi := data & 0x01);
        } else {
          mbc5 := mbc5.(ramBank := data);
        }
      } else {
        WriteRam(addr, data);
      }
    }

    /** `cart_write`: the mapper's registers or its RAM; MBC0 stores only
        into RAM, the unsupported mappers ignore the write. */
    method Write(addr: nat, region: Region, data: bv8)
      requires Valid() && addr < RegionSize(region)
      modifies this`mbc1, this`mbc3, this`mbc5, ram
      ensures Valid()
      ensures mbc1 == if mapper == MBC1 then Mbc1Write(old(mbc1), addr, region, data) else old(mbc1)
      ensures mbc3 == if mapper == MBC3 then Mbc3Write(old(mbc3), addr, region, data) else old(mbc3)
      ensures mbc5 == if mapper == MBC5 then Mbc5Write(old(mbc5), addr, region, data) else old(mbc5)
      ensures Registers() == MappersWrite(mapper, old(Registers()), addr, region, data)
      ensures region != Ram ==> ram[..] == old(ram[..])
      ensures region == Ram && old(RamSlot(addr)).Some? ==>
                ram[..] == old(ram[..])[old(RamSlot(addr)).value := data]
      ensures region == Ram && old(RamSlot(addr)).None? ==> ram[..] == old(ram[..])
      ensures region == Ram ==> Read(addr, Ram) == if old(RamSlot(addr)).Some? then data else 0xFF
    {
      match mapper
      case MBC0 =>
        if region == Ram {
          WriteRam(addr, data);
        }
      case MBC1 => WriteMbc1(addr, region, data);
      case MBC3 => WriteMbc3(addr, region, data);
      case MBC5 => WriteMbc5(addr, region, data);
      case _ =>
    }
  }

  /** After `cart_write` has stored `data` into the MBC1 5-bit register
      (the registers are then Mbc1Write's, as Cart.Write ensures), the
      window at 0x4000 reads the selected bank of the ROM. */
  lemma Mbc1SwitchedRead(c: Cart, prev: Mbc1Regs, addr: nat, data: bv8, a: nat)
    requires c.Valid() && c.mapper == MBC1 && c.romBanks <= 32 && addr >= 0x2000 && a < ROM_BANK_SIZE
    requires c.mbc1 == Mbc1Write(prev, addr, Rom0, data)
    ensures var b := data & 0x1F;
            c.Read(a, Rom1) == c.rom[((if b != 0 then b as nat else 1) % c.romBanks) * ROM_BANK_SIZE + a]
  {
    Mbc1SwitchRom1(prev, addr, data, c.romBanks);
  }

  /** With the RAM absent or disabled, a read of the RAM window gives 0xFF. */
  lemma DisabledRamReadsFF(c: Cart, addr: nat)
    requires c.Valid() && addr < RAM_BANK_SIZE
    requires c.ramBanks == 0 ||
             (c.mapper == MBC1 && c.mbc1.ramEnable == 0) ||
             (c.mapper == MBC3 && (c.mbc3.ramEnable == 0 || c.mbc3.ramBank & 0x08 != 0)) ||
             (c.mapper == MBC5 && c.mbc5.ramEnable == 0)
    ensures c.RamSlot(addr).None? && c.Read(addr, Ram) == 0xFF
  {
  }

  /** MBC2, MMM01, MBC6 and MBC7 show 0xFF everywhere. */
  lemma UnsupportedReadsFF(c: Cart, addr: nat, region: Region)
    requires c.Valid() && addr < RegionSize(region)
    requires c.mapper in {MBC2, MMM01, MBC6, MBC7}
    ensures c.Read(addr, region) == 0xFF
  {
  }

  /** `cart_read` on a possibly missing cartridge: none reads 0xFF. */
  function ReadCart(c: Cart?, addr: nat, region: Region): bv8
    requires c != null ==> c.Valid()
    requires addr < RegionSize(region)
    reads c, if c == null then {} else {c.ram}
  {
    if c == null then 0xFF else c.Read(addr, region)
  }

  /** The external RAM a save file of `saved` bytes gives once truncated or
      zero-extended to `n` bytes (`ftruncate`, then `mmap`). */
  function Resized(saved: seq<bv8>, n: nat): (r: seq<bv8>)
    ensures |r| == n
    ensures forall i | 0 <= i < n :: r[i] == if i < |saved| then saved[i] else 0
  {
    if |saved| >= n then saved[..n] else saved + seq(n - |saved|, _ => 0)
  }

  /** `cart_create` after reading the file: None where it returns NULL;
      otherwise the cartridge over the first `romBanks` banks of the file,
      with zeroed RAM, or for a battery cartridge with RAM the RAM mapped
      from the save file whose name is returned. */
  method Create(file: seq<bv8>, filename: string, saved: seq<bv8>) returns (c: Cart?, save: Option<string>)
    ensures c == null <==> DecodeHeader(file).None?
    ensures c != null ==> fresh(c) && fresh(c.ram) && c.Valid()
    ensures c != null ==>
              var h := DecodeHeader(file).value;
              c.mapper == h.mapper && c.battery == h.battery && c.romBanks == h.romBanks &&
              c.ramBanks == h.ramBanks && c.cgbCompat == h.cgbCompat &&
              c.rom == file[..h.romBanks * ROM_BANK_SIZE] &&
              c.ram[..] == (if h.battery && h.ramBanks > 0 then Resized(saved, h.ramBanks * RAM_BANK_SIZE)
                            else seq(h.ramBanks * RAM_BANK_SIZE, _ => 0))
    ensures save.Some? <==> c != null && c.ramBanks > 0 && c.battery
    ensures save.Some? ==> save.value == SaveName(filename)
  {
    var h := DecodeHeader(file);
    if h.None? {
      return null, None;
    }
    var hd := h.value;
    var size := hd.ramBanks * RAM_BANK_SIZE;
    save := None;
    var init := seq(size, _ => 0);
    if hd.ramBanks > 0 && hd.battery {
      var name := SaveNameOf(filename);
      save := Some(name);
      init := Resized(saved, size);
    }
    c := new Cart(hd, file[..hd.romBanks * ROM_BANK_SIZE], init);
  }
}
