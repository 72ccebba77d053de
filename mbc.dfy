/** The only memory-bank controller of src/mbc.rs, `RomOnly`: a flat read of
    the cartridge data with an inert RAM window. It keeps no mutable state,
    so its writes return the controller unchanged. */
module Mbc {
  import opened Common
  import Rom

  /** `RomOnly { rom }`; the bus only holds one built from a parsed
      cartridge, whose data is at least 32 KiB long. */
  datatype RomOnly = RomOnly(rom: Rom.Rom)

  /** `RomOnly::new`: wraps a cartridge that `Rom::new` accepted. */
  function NewRomOnly(file: seq<bv8>): (m: RomOnly)
    requires Rom.Header(file).Ok?
    ensures m.rom == Rom.Header(file).value
    ensures m.rom.data == file && |m.rom.data| >= 0x8000
  {
    Rom.HeaderFields(file);
    RomOnly(Rom.Header(file).value)
  }

  /** `read_rom`: the data byte at the address (the source panics past the end). */
  function ReadRom(m: RomOnly, addr: Addr): bv8
    requires addr < |m.rom.data|
  {
    m.rom.data[addr]
  }

  /** `read_ram`: there is no cartridge RAM, every read gives 0. */
  function ReadRam(m: RomOnly, addr: Addr): bv8 {
    0
  }

  /** `write_rom`: ignored. */
  function WriteRom(m: RomOnly, addr: Addr, val: bv8): RomOnly {
    m
  }

  /** `write_ram`: ignored. */
  function WriteRam(m: RomOnly, addr: Addr, val: bv8): RomOnly {
    m
  }

  /** The two cartridge windows the bus routes to the controller. */
  predicate IsRomAddr(addr: Addr) { addr <= 0x7FFF }
  predicate IsRamAddr(addr: Addr) { 0xA000 <= addr <= 0xBFFF }

  /** The bus-side routing: 0x0000-0x7FFF reads the ROM, 0xA000-0xBFFF the RAM. */
  function Read(m: RomOnly, addr: Addr): (r: bv8)
    requires IsRomAddr(addr) || IsRamAddr(addr)
    requires |m.rom.data| >= 0x8000
    ensures IsRomAddr(addr) ==> r == m.rom.data[addr]
    ensures IsRamAddr(addr) ==> r == 0
  {
    if IsRomAddr(addr) then ReadRom(m, addr) else ReadRam(m, addr)
  }

  /** The bus-side routing of writes, to `write_rom` or `write_ram`. */
  function Write(m: RomOnly, addr: Addr, val: bv8): (m': RomOnly)
    requires IsRomAddr(addr) || IsRamAddr(addr)
    ensures m' == m
  {
    if IsRomAddr(addr) then WriteRom(m, addr, val) else WriteRam(m, addr, val)
  }

  /** A bus write into a cartridge window. */
  datatype CartWrite = CartWrite(addr: Addr, val: bv8)

  predicate ValidWrites(ws: seq<CartWrite>) {
    forall k :: 0 <= k < |ws| ==> IsRomAddr(ws[k].addr) || IsRamAddr(ws[k].addr)
  }

  /** The controller after a sequence of writes, in order. */
  function ApplyWrites(m: RomOnly, ws: seq<CartWrite>): RomOnly
    requires ValidWrites(ws)
  {
    if ws == [] then m else ApplyWrites(Write(m, ws[0].addr, ws[0].val), ws[1..])
  }

  /** ROM reads after any sequence of writes equal the original data. */
  lemma {:induction false} ReadAfterWrites(m: RomOnly, ws: seq<CartWrite>, addr: Addr)
    requires ValidWrites(ws)
    requires IsRomAddr(addr) && |m.rom.data| >= 0x8000
    ensures |ApplyWrites(m, ws).rom.data| >= 0x8000
    ensures Read(ApplyWrites(m, ws), addr) == m.rom.data[addr]
  {
    if ws != [] {
      ReadAfterWrites(Write(m, ws[0].addr, ws[0].val), ws[1..], addr);
    }
  }
}
