/** The cartridge of the root draft cartridge.c: the same three header
    bytes as src/cartridge.c, but no battery, no CGB flag and no save file;
    only MBC0 is mapped, every other mapper reads 0xFF and ignores writes.
    The lemmas at the end relate it to module Cartridge. */
module DraftCartridge {
  import opened Bytes
  import opened Options
  import C = Cartridge

  // ------------------------------------------------------------- header

  /** The draft's mapper table (the same codes as src). */
  function MapperOf(code: bv8): Option<C.Mbc> {
    if code == 0x00 || code == 0x08 || code == 0x09 then Some(C.MBC0)
    else if 0x01 <= code <= 0x03 then Some(C.MBC1)
    else if code == 0x05 || code == 0x06 then Some(C.MBC2)
    else if 0x0B <= code <= 0x0D then Some(C.MMM01)
    else if 0x0F <= code <= 0x13 then Some(C.MBC3)
    else if 0x19 <= code <= 0x1E then Some(C.MBC5)
    else if code == 0x20 then Some(C.MBC6)
    else if code == 0x22 then Some(C.MBC7)
    else None
  }

  /** `2 << code` ROM banks for codes 0 to 8, as a shift. */
  function RomBanks(code: bv8): Option<nat> {
    if code <= 8 then Some(((2 as bv16) << code) as nat) else None
  }

  /** The draft's `switch` on the RAM size code. */
  function RamBanks(code: bv8): Option<nat> {
    match code
    case 0 => Some(0)
    case 1 => Some(0)
    case 2 => Some(1)
    case 3 => Some(4)
    case 4 => Some(16)
    case 5 => Some(8)
    case _ => None
  }

  datatype Header = Header(mapper: C.Mbc, romBanks: nat, ramBanks: nat)

  /** What the draft's `cart_create` learns from the file, or None where it
      returns NULL: fewer than three header bytes, an unknown code, or fewer
      ROM banks in the file than the header announces. */
  function Decode(file: seq<bv8>): (r: Option<Header>)
    ensures r.Some? ==> 2 <= r.value.romBanks && |file| >= r.value.romBanks * C.ROM_BANK_SIZE
    ensures r.Some? ==> (file[C.CART_TYPE] in {0x00, 0x08, 0x09} <==> r.value.mapper == C.MBC0)
  {
    if |file| < C.RAM_SIZE + 1 then None
    else
      var mapper := MapperOf(file[C.CART_TYPE]);
      var rom := RomBanks(file[C.ROM_SIZE]);
      var ram := RamBanks(file[C.RAM_SIZE]);
      RomBanksAgree(file[C.ROM_SIZE]);
      if mapper.None? || rom.None? || ram.None? then None
      else if |file| < rom.value * C.ROM_BANK_SIZE then None
      else Some(Header(mapper.value, rom.value, ram.value))
  }

  /** The shift gives the same counts as src's table: 2, 4, ..., 512. */
  lemma RomBanksAgree(code: bv8)
    ensures RomBanks(code) == C.RomBankCount(code)
  {
    if code <= 8 {
      Pow2Table(code as nat);
      var table: seq<nat> := [2, 4, 8, 16, 32, 64, 128, 256, 512];
      assert ((2 as bv16) << code) as nat == table[code];
    }
  }

  /** The draft decodes a file exactly when src does, to the same mapper
      and bank counts. */
  lemma DecodeAgrees(file: seq<bv8>)
    ensures Decode(file).Some? <==> C.DecodeHeader(file).Some?
    ensures Decode(file).Some? ==>
              var d, h := Decode(file).value, C.DecodeHeader(file).value;
              d.mapper == h.mapper && d.romBanks == h.romBanks && d.ramBanks == h.ramBanks
  {
    if |file| >= C.RAM_SIZE + 1 {
      RomBanksAgree(file[C.ROM_SIZE]);
    }
  }

  // ---------------------------------------------------------- cartridge

  /** A cartridge of the draft: no mapper registers, the RAM is one bank
      window over `ram`. */
  class Cart {
    const mapper: C.Mbc
    const romBanks: nat
    const ramBanks: nat
    const rom: seq<bv8>
    const ram: array<bv8>

    ghost predicate Valid()
      reads this
    {
      romBanks >= 2 && |rom| == romBanks * C.ROM_BANK_SIZE && ram.Length == ramBanks * C.RAM_BANK_SIZE
    }

    /** `calloc`: RAM of `ramBanks` zeroed banks (none when the count is 0). */
    constructor (h: Header, image: seq<bv8>)
      requires h.romBanks >= 2 && |image| == h.romBanks * C.ROM_BANK_SIZE
      ensures Valid() && fresh(ram)
      ensures mapper == h.mapper && romBanks == h.romBanks && ramBanks == h.ramBanks && rom == image
      ensures ram[..] == seq(h.ramBanks * C.RAM_BANK_SIZE, _ => 0)
    {
      mapper, romBanks, ramBanks, rom := h.mapper, h.romBanks, h.ramBanks, image;
      ram := new bv8[h.ramBanks * C.RAM_BANK_SIZE](_ => 0);
    }

    /** The draft's `cart_read`: MBC0 shows bank 0, bank 1 and RAM bank 0
        (0xFF without RAM); every other mapper shows 0xFF. */
    function Read(addr: nat, region: C.Region): bv8
      requires Valid() && addr < C.RegionSize(region)
      reads this, ram
    {
      if mapper != C.MBC0 then 0xFF
      else
        match region
        case Rom0 => rom[addr]
        case Rom1 => rom[C.ROM_BANK_SIZE + addr]
        case Ram =>
          if ramBanks != 0 then
            MulAtLeast(ramBanks, C.RAM_BANK_SIZE);
            ram[addr]
          else 0xFF
    }

    /** The draft's `cart_write`: only an MBC0 RAM store with RAM present
        changes anything. */
    method Write(addr: nat, region: C.Region, val: bv8)
      requires Valid() && addr < C.RegionSize(region)
      modifies ram
      ensures Stores(region) ==> ram[..] == old(ram[..])[addr := val] && Read(addr, region) == val
      ensures !Stores(region) ==> ram[..] == old(ram[..])
    {
      if mapper == C.MBC0 {
        if region == C.Ram && ramBanks != 0 {
          MulAtLeast(ramBanks, C.RAM_BANK_SIZE);
          ram[addr] := val;
        }
      }
    }

    /** The writes that reach RAM. */
    predicate Stores(region: C.Region)
      reads this
    {
      mapper == C.MBC0 && region == C.Ram && ramBanks != 0
    }
  }

  /** `cart_read` on a possibly missing cartridge: none reads 0xFF. */
  function ReadCart(c: Cart?, addr: nat, region: C.Region): bv8
    requires c != null ==> c.Valid()
    requires addr < C.RegionSize(region)
    reads c, if c == null then {} else {c.ram}
  {
    if c == null then 0xFF else c.Read(addr, region)
  }

  /** `cart_write` on a possibly missing cartridge: none ignores it. */
  method WriteCart(c: Cart?, addr: nat, region: C.Region, val: bv8)
    requires c != null ==> c.Valid()
    requires addr < C.RegionSize(region)
    modifies if c == null then {} else {c.ram}
    ensures c != null && c.Stores(region) ==> c.ram[..] == old(c.ram[..])[addr := val]
    ensures c != null && !c.Stores(region) ==> c.ram[..] == old(c.ram[..])
  {
    if c == null {
      return;
    }
    c.Write(addr, region, val);
  }

  /** The draft's `cart_create` after reading the file. */
  method Create(file: seq<bv8>) returns (c: Cart?)
    ensures c == null <==> Decode(file).None?
    ensures c != null ==>
              var h := Decode(file).value;
              fresh(c) && fresh(c.ram) && c.Valid() &&
              c.mapper == h.mapper && c.romBanks == h.romBanks && c.ramBanks == h.ramBanks &&
              c.rom == file[..h.romBanks * C.ROM_BANK_SIZE] &&
              c.ram[..] == seq(h.ramBanks * C.RAM_BANK_SIZE, _ => 0)
  {
    var h := Decode(file);
    if h.None? {
      return null;
    }
    c := new Cart(h.value, file[..h.value.romBanks * C.ROM_BANK_SIZE]);
  }

  // --------------------------------------------------------- properties

  /** Mappers other than MBC0 show 0xFF everywhere, and so does the RAM
      window of an MBC0 cartridge without RAM. */
  lemma UnmappedReadsFF(c: Cart, addr: nat, region: C.Region)
    requires c.Valid() && addr < C.RegionSize(region)
    requires c.mapper != C.MBC0 || (region == C.Ram && c.ramBanks == 0)
    ensures c.Read(addr, region) == 0xFF
  {
  }

  /** On an MBC0 cartridge the draft reads what src/cartridge.c reads from
      a cartridge with the same ROM and RAM. */
  lemma Mbc0ReadsAgree(d: Cart, s: C.Cart, addr: nat, region: C.Region)
    requires d.Valid() && s.Valid() && addr < C.RegionSize(region)
    requires d.mapper == C.MBC0 && s.mapper == C.MBC0
    requires d.rom == s.rom && d.ramBanks == s.ramBanks && d.ram[..] == s.ram[..]
    ensures d.Read(addr, region) == s.Read(addr, region)
  {
    if region == C.Ram && d.ramBanks != 0 {
      MulAtLeast(d.ramBanks, C.RAM_BANK_SIZE);
      assert d.ram[addr] == d.ram[..][addr];
      assert s.ram[addr] == s.ram[..][addr];
    }
  }
}
