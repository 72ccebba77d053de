# A verified model of the mj-hd/gb Game Boy emulator core

This project models the emulated machine of the Rust Game Boy emulator
`gb`. It covers the memory bus with its address decoder, the timer, the
picture processing unit (PPU), the joypad, the partial CPU, the cartridge
header parser, the ROM-only cartridge controller and the hex formatter.
It then proves properties of that model in Dafny.

There is one module per source file:

| module | file | source |
|---|---|---|
| `Common` | `common.dfy` | shared wrappers for `anyhow::Result`: `Option`, `Result`, `Outcome`; bit helpers for the `bitfield`/`bitmatch` macros |
| `Utils` | `utils.dfy` | `src/utils.rs` |
| `Rom` | `rom.dfy` | `src/rom.rs` |
| `Mbc` | `mbc.dfy` | `src/mbc.rs` |
| `Timer` | `timer.dfy` | `src/timer.rs` |
| `Joypad` | `joypad.dfy` | `src/joypad.rs` |
| `Ppu` | `ppu.dfy` | `src/ppu.rs` |
| `Bus` | `bus.dfy` | `src/bus.rs` |
| `Cpu` | `cpu.dfy` | `src/cpu.rs` |

Each struct that the Rust code updates in place becomes a Dafny `class`:
`Timer`, `Joypad`, `Ppu`, `Bus` and `Cpu`.

- Each class keeps the source's fields. Fixed-size Rust arrays that are written element by element become Dafny `array`s: RAM, HRAM, VRAM, OAM, both line buffers and the frame. `cur_bg` is always assigned whole, so it is a sequence, and the sprite buffer `Vec` is a sequence too. The PPU's scalar registers and beam counters are grouped into two record fields, `regs` and `beam`.
- Each class has a `State()` view of its fields as a datatype value.
- Each method is proved to leave `State()` equal to a pure function of the old state (`Timer.Ticked`, `Bus.ByteWritten`, `Cpu.Ticked`, ...).
- The properties the source promises are lemmas about those functions.
- The pure code becomes functions: `Rom::new`'s tables, palettes, tile decoding and `bytes_to_hex`.
- `Rom::new` is a method proved equal to the function `Rom.Header`. Its checksum loop is a method proved equal to the fold `Rom.Checksum`.

Rust integer arithmetic is modelled with release-build wrap-around:

- `pc += 1` and `addr + 1` wrap at 2^16.
- The sprite row in `oam_to_colors` wraps at 2^8.
- The timer counter, TIMA and the checksum fold wrap explicitly, as written in the source.

Some accesses would panic in Rust. Each one is modelled as a precondition:

- **Cartridge index.** `Mbc.ReadRom` requires an index below the data length.
- **VRAM bound.** `Ppu.VramRead` and `Ppu.VramWritten` require `addr < 0xA000`, so the index stays inside the 0x2000-byte `vram`.
- **VRAM underflow.** The PPU computes the `u16` subtraction `addr - 0x8000` in `read` and `write`. It would underflow below its base, which panics in a debug build, so the VRAM accessors require `0x8000 <= addr`.
- **OAM underflow.** `read_oam` and `write_oam` compute `addr - 0xFE00`, so the OAM accessors require `0xFE00 <= addr`.

The bus only calls these accessors inside those ranges. No OAM address at or above 0xFE00 indexes past the table; `Ppu.OamRead` proves this. Every other `Result::Err` is modelled as an error value.

Some code is modelled as written although it is evidently unfinished:

- **Register getters.** The 8-bit high-half getters `a()`, `b()`, `d()` and `h()` compute `((pair & 0xF0) >> 8) as u8`, which is always 0. The low-half getters keep only the low nibble.
- **Flag accessors.** `flag_nz` tests bit 5 of the high byte, which is the half-carry flag, not the zero flag. The flag setters only OR bits in.
- **LD r,A.** The LD r,r arm of `do_mnemonic` lists no load whose source is A, apart from LD A,A. Bytes `0x47`, `0x4F`, `0x57`, `0x5F`, `0x67`, `0x6F` and `0x77` are therefore unimplemented opcodes.
- **RAM sizes.** The RAM-size table is in MiB, as written.
- **ROM sizes 0x52-0x54.** These codes take the truncated values of the f64 products 1.1, 1.2 and 1.5 MiB: 1153433, 1258291 and 1572864.
- **Cartridge routing.** The bus calls `mbc.read`/`mbc.write`, which the `Mbc` trait does not define. `Mbc.Read` and `Mbc.Write` are the routing the trait implies: 0x0000-0x7FFF goes to `read_rom`/`write_rom`, 0xA000-0xBFFF to `read_ram`/`write_ram`.

## Model

| member | source | states |
|---|---|---|
| Utils.Digit | src/utils.rs:4 | a nibble's digit is 0-9 or A-F: '0' + n below 10, 'A' + n - 10 from 10 |
| Utils.ByteToHex | src/utils.rs:4 | `{:02X}` of a byte is exactly two characters, the high nibble's digit first |
| Utils.BytesToHex | src/utils.rs:1-6 | the output is twice as long as the input |
| Utils.BytesToHexAt | src/utils.rs:1-6 | characters 2i and 2i+1 are the digits of the high and low nibble of byte i |
| Utils.BytesToHexAppend | src/utils.rs:1-6 | formatting a concatenation is concatenating the formatted parts |
| Utils.BytesToHexIsUpperHex | src/utils.rs:4 | every output character is 0-9 or A-F |
| Rom.MbcTypeFromByte | src/rom.rs:9-25 | a byte decodes to a cartridge type exactly when it is one of the 14 listed codes, and to the type with that code |
| Rom.MbcTypeRoundTrip | src/rom.rs:9-25 | every cartridge type decodes back from its own code |
| Rom.DestinationFromByte | src/rom.rs:166-172 | only 0x00 (Japanese) and 0x01 (non-Japanese) are destination codes |
| Rom.SgbFromByte | src/rom.rs:125-132 | the SGB byte is 0x00 (false) or 0x03 (true); any other byte is rejected |
| Rom.RomSizeFromCode | src/rom.rs:141-151 | code n in 0..8 gives 32768 * 2^n bytes; 0x52-0x54 are also accepted; every other code is rejected |
| Rom.RamSizeFromCode | src/rom.rs:153-164 | exactly codes 0-5 have a RAM size |
| Rom.ChecksumStep | src/rom.rs:200-208 | one more byte of input is one more wrapping `x - b - 1` step of the checksum fold |
| Rom.HeaderOkIff | src/rom.rs:105-232 | parsing succeeds if and only if the file holds the whole header, the five enumerated bytes are valid, byte 0x14D equals the checksum of 0x134-0x14C, and the length equals the declared ROM size |
| Rom.HeaderFields | src/rom.rs:110-231 | an accepted cartridge takes every field from its fixed offset, keeps the whole file as data, and its ROM size is the data length (at least 32 KiB) |
| Rom.ShortFileIsEof | src/rom.rs:110-196 | input shorter than 0x150 bytes is always rejected, as truncated or as an invalid enumerated byte, never as a checksum or length error |
| Rom.HeaderChecksum | src/rom.rs:198-208 | the checksum loop computes the fold over bytes 0x134-0x14C |
| Rom.New | src/rom.rs:105-232 | the field-by-field cursor parse gives exactly `Header(file)`, error for error |
| Mbc.NewRomOnly | src/mbc.rs:15-19 | the controller wraps the parsed cartridge, whose data is the whole file and at least 32 KiB long |
| Mbc.Read | src/mbc.rs:21-28 | the ROM window reads the data byte at the address; the RAM window always reads 0 |
| Mbc.Write | src/mbc.rs:30-36 | writes to either window leave the controller unchanged |
| Mbc.ReadAfterWrites | src/mbc.rs:21-37 | `Mbc.Write` lifted to any sequence of writes: afterwards, ROM reads give the original data |
| Timer.ClockFromCode | src/timer.rs:5-11 | a clock code decodes exactly when it is 0-3, to the clock of that code |
| Timer.TickCounter | src/timer.rs:66-72 | a tick moves the counter one on modulo 2^16 and leaves TMA, enable and clock alone |
| Timer.TimaChangesOnlyOnFallingEdge | src/timer.rs:39-64 | TIMA changes only when `prev` is set and the selected bit (9, 3, 5 or 7; clear when disabled) is now clear; `prev` always becomes that level; without the edge nothing else changes |
| Timer.FallingEdgeIncrements | src/timer.rs:53-61 | on a falling edge the interrupt is raised exactly when TIMA was 0xFF on a counter divisible by 4, in which case TIMA becomes TMA; otherwise TIMA increments |
| Timer.SyncKeepsInterrupt | src/timer.rs:39-64 | `sync` never clears a raised interrupt |
| Timer.InterruptNeverCleared | src/timer.rs:39-122 | no timer operation clears a raised interrupt |
| Timer.DivRoundTrip | src/timer.rs:74-80 | after a DIV write, DIV reads 0 whatever value was written |
| Timer.TacRoundTrip | src/timer.rs:102-122 | TAC reads back the low three bits of the value written |
| Timer.TimaTmaWrites | src/timer.rs:86-100 | TIMA reads the written value after its sync; TMA holds the written value after the sync it runs |
| Timer.FourTicks | src/bus.rs:53-56 | helper for `Bus.TickFanOut`: `Ticks(s, 4)` is the bus's four `tick` calls in a row |
| Timer.TicksCounter | src/timer.rs:66-72 | n ticks move the counter n on, modulo 2^16 |
| Timer.TicksWithinBlock | src/timer.rs:39-72 | on clock 0 from a multiple of 1024 with `prev` clear, the first 1023 ticks change only the counter and `prev` |
| Timer.TicksBlock | src/timer.rs:39-72 | on clock 0, TIMA increments exactly once per 1024 ticks (with the TMA reload and interrupt on overflow) and the next block starts in the same condition |
| Timer.LastTickOfBlock | src/timer.rs:39-72 | the 1024th tick of a block lets bit 9 fall and moves TIMA |
| Timer.Timer.constructor | src/timer.rs:24-36 | `Timer::default()`: everything 0 or false, clock 4096 |
| Timer.Timer.SetInterrupt | src/bus.rs:82-84 | the bus sets the timer interrupt and nothing else |
| Timer.Timer.Sync | src/timer.rs:39-64 | `sync` is the edge detector `Synced` |
| Timer.Timer.Tick | src/timer.rs:66-72 | `tick` is `Ticked` |
| Timer.Timer.ReadDiv | src/timer.rs:74-76 | DIV is the counter's high byte |
| Timer.Timer.WriteDiv | src/timer.rs:78-80 | a DIV write resets the counter |
| Timer.Timer.ReadTima | src/timer.rs:82-84 | TIMA is returned |
| Timer.Timer.WriteTima | src/timer.rs:86-90 | sync, then store TIMA |
| Timer.Timer.ReadTma | src/timer.rs:92-94 | TMA is returned |
| Timer.Timer.WriteTma | src/timer.rs:96-100 | store TMA, then sync |
| Timer.Timer.ReadTac | src/timer.rs:102-108 | TAC is "00000ess" |
| Timer.Timer.WriteTac | src/timer.rs:110-122 | bit 2 sets the enable, bits 1-0 the clock |
| Joypad.SetKey | src/joypad.rs:53-111 | setting one latch changes no other latch, no select line and not the interrupt |
| Joypad.ReadShowsHeldKey | src/joypad.rs:113-147 | a key of the selected group reads 0 on its bit exactly while it is held |
| Joypad.ReadFixedBits | src/joypad.rs:113-147 | bits 7-6 always read 1; the direction group has bit 4 low and bit 5 the inverted button select; the button group has bit 5 low and bit 4 high; with no group selected the read is 0xFF |
| Joypad.WriteThenRead | src/joypad.rs:137-156 | after a P1 write, bit 4 low selects the directions, else bit 5 low the buttons, else the read is 0xFF |
| Joypad.PressRelease | src/joypad.rs:53-111 | press sets the latch and the interrupt; release clears the latch and keeps the interrupt; a release after a press of a key that was up restores every latch |
| Joypad.SetKeySame | src/joypad.rs:53-111 | setting a latch to its current value changes nothing |
| Joypad.PressIdempotent | src/joypad.rs:53-111 | pressing twice is pressing once, and so is releasing |
| Joypad.KeysIndependent | src/joypad.rs:53-111 | pressing or releasing a key never changes another key's latch |
| Joypad.Joypad.constructor | src/joypad.rs:32-50 | `Joypad::default()`: everything false |
| Joypad.Joypad.SetInterrupt | src/bus.rs:98-100 | the bus sets the joypad interrupt and nothing else |
| Joypad.Joypad.Press | src/joypad.rs:53-82 | `press` is `Pressed` |
| Joypad.Joypad.Release | src/joypad.rs:84-111 | `release` is `Released` |
| Joypad.Joypad.ReadButton | src/joypad.rs:113-123 | the byte "110dseba" with every field inverted |
| Joypad.Joypad.ReadDirection | src/joypad.rs:125-135 | the byte "11b0dulr" with every field inverted |
| Joypad.Joypad.Read | src/joypad.rs:137-147 | `read` is `P1`: direction group, else button group, else 0xFF |
| Joypad.Joypad.Write | src/joypad.rs:149-156 | bit 4 low selects directions, bit 5 low selects buttons |
| Ppu.PaletteByteRoundTrip | src/ppu.rs:46-67 | converting a byte to a palette and back gives the byte |
| Ppu.PaletteEntries | src/ppu.rs:46-67 | palette entry i is bits 2i+1:2i of the byte, and a palette converts to a byte and back unchanged |
| Ppu.ColorToPixel | src/ppu.rs:189-197 | every pixel is opaque, and exactly the values from 4 up are white |
| Ppu.ShadesDarken | src/ppu.rs:189-197 | the four shades are distinct and less green as the shade grows |
| Ppu.TileRow | src/ppu.rs:201-235 | a tile row has 8 colour indexes; index j takes its high bit from bit 7 - j of the first byte and its low bit from the second |
| Ppu.PlaneAt | src/ppu.rs:201-235 | bit 7 - j of a re-encoded plane is the corresponding bit of index j |
| Ppu.TileRowDecodesPlanes | src/ppu.rs:201-235 | decoding the two planes of a row of indexes gives the row back |
| Ppu.BitsDetermineByte | src/ppu.rs:201-235 | two bytes that agree on all eight bits are equal |
| Ppu.FirstBit | src/ppu.rs:201-235 | each bit of the re-encoded first plane matches the first byte |
| Ppu.SecondBit | src/ppu.rs:201-235 | each bit of the re-encoded second plane matches the second byte |
| Ppu.FirstPlaneEncodes | src/ppu.rs:201-235 | re-encoding a decoded row's first plane gives the first byte |
| Ppu.SecondPlaneEncodes | src/ppu.rs:201-235 | re-encoding a decoded row's second plane gives the second byte |
| Ppu.PlanesEncodeTileRow | src/ppu.rs:201-235 | tile-row decoding loses nothing: both plane bytes are recovered |
| Ppu.SignedTile | src/ppu.rs:201-235 | `tile as i8` lies in -128..127 and is congruent to the tile number mod 256 |
| Ppu.TileAddress | src/ppu.rs:201-235 | the row's two bytes lie inside VRAM; for rows 0-7, unsigned addressing stays within the tile's 16 bytes from tile * 16 and signed addressing within 0x800-0x17FF |
| Ppu.TileToIndexes | src/ppu.rs:201-235 | a decoded tile row has 8 indexes |
| Ppu.TileToIndexesBits | src/ppu.rs:201-235 | index j has bit 7 - j of VRAM at the row address as its high bit and bit 7 - j of the next byte as its low bit |
| Ppu.TileMapAddress | src/ppu.rs:237-251 | an entry of the low map lies in 0x1800-0x1BFF and of the high map in 0x1C00-0x1FFF |
| Ppu.TileMapToColors | src/ppu.rs:237-251 | a tile-map row has 8 indexes |
| Ppu.TileMapSelectsTile | src/ppu.rs:237-251 | the row is the decoded pair of bytes of the tile the map entry names; LCDC bit 4 set selects unsigned tile data at tile * 16 + row * 2, clear selects signed data within 0x0800-0x17FF |
| Ppu.FromIndexes | src/ppu.rs:104-118 | each sprite pixel keeps its index, takes its shade from the palette and carries the blend flag |
| Ppu.SpriteRow | src/ppu.rs:253-284 | the row is a byte; 8x16 sprites use `tile | 1` for rows from 8 and `tile & 0x7E` otherwise |
| Ppu.SpriteRowInRange | src/ppu.rs:253-284 | for a sprite covering the line, the row is the distance from its top, folded for 8x16 and mirrored by the Y flip, and always 0-7 |
| Ppu.NextBeam | src/ppu.rs:374-419 | the dot counter step keeps the beam invariant: cycles 0-455, lines 0-153, the mode following the dot, x and y in range |
| Ppu.BeamDotDetermines | src/ppu.rs:374-386 | the dot number within the frame determines line and cycle |
| Ppu.NextBeamMovesOneDot | src/ppu.rs:374-386 | each step moves the beam one dot on, modulo 456 * 154 |
| Ppu.NextBeamMode | src/ppu.rs:396-419 | after a step, visible lines are in OamScan, Drawing or HBlank by cycle, and lines 144-153 are in VBlank |
| Ppu.InitialInv | src/ppu.rs:159-187 | `Ppu::new()` satisfies the invariant |
| Ppu.Advance | src/ppu.rs:374-419 | the counter half of `tick` keeps the invariant and moves the beam by `NextBeam` |
| Ppu.FetchedRow | src/ppu.rs:302-344 | a new tile row is fetched only at a tile boundary or at x = 0 |
| Ppu.Fetched | src/ppu.rs:302-344 | a fetch changes only the current row and the background line |
| Ppu.DrawnBg | src/ppu.rs:302-319 | `draw_bg` changes only the current row and the background line, and does nothing once the window is drawing |
| Ppu.DrawnWindow | src/ppu.rs:321-344 | the window latch becomes set exactly when it was set or the window starts here; without it nothing changes |
| Ppu.FetchedPixel | src/ppu.rs:302-344 | a fetch writes background pixel x from the new row and leaves every other pixel |
| Ppu.OamToColors | src/ppu.rs:253-284 | a sprite row has 8 pixels, each with the sprite's priority as blend and its shade from OBP0 or OBP1 by the palette flag |
| Ppu.XFlipMirrors | src/ppu.rs:253-284 | setting the X flip reverses the sprite row and changes nothing else |
| Ppu.CopyInto | src/ppu.rs:346-356 | 8 colours are written from the given position; the rest of the line is kept |
| Ppu.SpritesOver | src/ppu.rs:346-356 | drawing sprites changes only the 8 pixels from x |
| Ppu.SpritesOverStep | src/ppu.rs:346-356 | the sprites up to buffer entry i are those before it, then entry i |
| Ppu.DrawnSprites | src/ppu.rs:346-356 | `draw_sprite` changes only the sprite line |
| Ppu.LastSpriteWins | src/ppu.rs:346-356 | the last buffered sprite at X position x + 8 is the one that shows |
| Ppu.NoSpriteNoChange | src/ppu.rs:346-356 | with no buffered sprite at X position x + 8 the sprite line is unchanged |
| Ppu.PixelPut | src/ppu.rs:358-371 | `put_pixels` writes exactly pixel (x, y) of the frame, with the composed shade |
| Ppu.SpriteChoosesPixel | src/ppu.rs:358-371 | a pixel shows the sprite colour exactly when the sprite index is non-zero and it is not blended or the background index is 0; otherwise the background palette's shade |
| Ppu.Scanned | src/ppu.rs:286-300 | `scan_oam(i)` appends entry i exactly when it covers the line, has X above 8 and fewer than 10 are buffered |
| Ppu.DrawnLine | src/ppu.rs:421-444 | the Drawing arm changes only the line buffers and the window latch; with window and background enabled a starting window sets the latch |
| Ppu.DrawnLineEnables | src/ppu.rs:421-444 | LCDC bit 1 clear leaves the sprite line unchanged; bit 0 clear leaves the background line and the window latch unchanged |
| Ppu.BgPixel | src/ppu.rs:302-319 | at a fetch, `draw_bg` puts into pixel x the map entry at (x + SCX, y + SCY) mod 256 of the map LCDC bit 3 selects |
| Ppu.WindowPixel | src/ppu.rs:321-344 | once the window has started, at a fetch, `draw_window` puts into pixel x the map entry at (x - WX, y - WY) mod 256 of the map LCDC bit 6 selects |
| Ppu.Render | src/ppu.rs:421-444 | the drawing half of `tick` keeps the invariant, changes only the line, sprite and frame buffers and the window latch, touches the latch only in Drawing and the OAM buffer only in OamScan |
| Ppu.Ticked | src/ppu.rs:373-447 | `tick` keeps the invariant and moves the beam by `NextBeam` |
| Ppu.Ticks | src/ppu.rs:373-447 | any number of ticks keeps the invariant |
| Ppu.TickMovesOneDot | src/ppu.rs:374-386 | one tick moves the beam one dot on, modulo a frame |
| Ppu.TicksMoveDots | src/ppu.rs:374-386 | n ticks move the beam n dots on, modulo a frame |
| Ppu.FrameReturns | src/ppu.rs:374-386 | 456 * 154 ticks bring cycle and line back to where they started |
| Ppu.TickModes | src/ppu.rs:396-419 | after a tick the mode follows the dot on visible lines and is VBlank below; the V-blank interrupt is set on every tick that ends on line 144, and otherwise keeps its old value |
| Ppu.TickBuffer | src/ppu.rs:286-300 | the sprite buffer never holds more than 10 entries; it is emptied when a new line starts, so after that dot it holds at most the one entry scanned on it |
| Ppu.WindowLatch | src/ppu.rs:302-344 | the window latch is cleared only on entering HBlank; while it is set `draw_bg` does nothing |
| Ppu.VramRoundTrip | src/ppu.rs:449-457 | a VRAM write is read back; other VRAM bytes and everything else are unchanged |
| Ppu.WithOamField | src/ppu.rs:474-496 | one field of an OAM entry is replaced and the other three are kept |
| Ppu.OamRead | src/ppu.rs:459-472 | an OAM read returns field (addr - 0xFE00) % 4 of entry (addr - 0xFE00) / 4, which is always a table entry |
| Ppu.OamRoundTrip | src/ppu.rs:459-496 | an OAM write is read back; every other OAM byte and everything else are unchanged |
| Ppu.RegisterWritten | src/ppu.rs:498-590 | a register write changes only the registers |
| Ppu.StoredReadBack | src/ppu.rs:498-590 | a stored register reads back the byte written, palettes included |
| Ppu.StoredOthers | src/ppu.rs:498-590 | a register write leaves the other registers |
| Ppu.RegisterWriteKeepsInv | src/ppu.rs:498-590 | register writes keep the invariant |
| Ppu.RegisterRoundTrip | src/ppu.rs:498-590 | every register but LY reads back what was written and leaves the others |
| Ppu.Ppu.constructor | src/ppu.rs:159-187 | `Ppu::new()` is the all-zero state in VBlank |
| Ppu.Ppu.AdvanceCounters | src/ppu.rs:374-419 | the counter updates of `tick` are `Advance` |
| Ppu.Ppu.Fetch | src/ppu.rs:302-344 | the shared tile fetch of `draw_bg` and `draw_window` |
| Ppu.Ppu.DrawBg | src/ppu.rs:302-319 | `draw_bg` is `DrawnBg` |
| Ppu.Ppu.DrawWindow | src/ppu.rs:321-344 | `draw_window` is `DrawnWindow` |
| Ppu.Ppu.DrawSprite | src/ppu.rs:346-356 | the loop over the buffer computes `SpritesOver` |
| Ppu.Ppu.CopySprite | src/ppu.rs:346-356 | the 8-pixel copy into the sprite line is `CopyInto` |
| Ppu.Ppu.Draw | src/ppu.rs:421-444 | the Drawing arm is `DrawnLine` |
| Ppu.Ppu.PutPixels | src/ppu.rs:358-371 | `put_pixels` is `PixelPut` |
| Ppu.Ppu.ScanOam | src/ppu.rs:286-300 | `scan_oam` is `Scanned` |
| Ppu.Ppu.Tick | src/ppu.rs:373-447 | `tick` is `Ticked` and keeps the invariant |
| Ppu.Ppu.SetInterrupts | src/bus.rs:62-76 | the bus sets the two PPU interrupt flags and nothing else |
| Ppu.Ppu.Read | src/ppu.rs:449-451 | `read` is `VramRead` |
| Ppu.Ppu.Write | src/ppu.rs:453-457 | `write` is `VramWritten` |
| Ppu.Ppu.ReadOam | src/ppu.rs:459-472 | `read_oam` is `OamRead` |
| Ppu.Ppu.WriteOam | src/ppu.rs:474-496 | `write_oam` is `OamWritten` |
| Ppu.Ppu.ReadRegister | src/ppu.rs:498-590 | the `read_*` register accessors are `RegisterRead` |
| Ppu.Ppu.WriteRegister | src/ppu.rs:498-590 | the `write_*` register accessors are `RegisterWritten` |
| Bus.InterruptBit | src/bus.rs:9-18 | the bit of every interrupt source is one of bits 0-4 |
| Bus.IeSetGet | src/bus.rs:9-18 | an `Ie` setter is read back by its getter and leaves the other sources |
| Bus.RegionOf | src/bus.rs:102-134 | the address map: cartridge at 0x0000-0x7FFF and 0xA000-0xBFFF, VRAM, work RAM and its echo at the same offset, OAM, the unusable range, HRAM and IE, each exactly on its range |
| Bus.Initial | src/bus.rs:36-48 | a new bus satisfies the invariant |
| Bus.IrqFlagSetGet | src/bus.rs:62-100 | each `set_irq_*` is read back by its `irq_*` getter and leaves the other flags |
| Bus.IrqReadBits | src/bus.rs:143-157 | bit k of the flag byte is the flag of source k, and bits 5-7 are 0 |
| Bus.IrqRoundTrip | src/bus.rs:143-254 | reading the flag byte after writing x gives x & 0x1F |
| Bus.IrqWriteFrame | src/bus.rs:239-254 | writing the flag byte sets exactly the five flags from bits 0-4 |
| Bus.SerialEdge | src/bus.rs:262-290 | the serial interrupt is raised exactly on a 1-to-0 change of bit 7, never cleared here, and bit 7 is always recorded; nothing else changes |
| Bus.ByteWritten | src/bus.rs:169-227 | every write keeps the bus invariant |
| Bus.WordOf | src/bus.rs:136-141 | a word's low byte is the first byte and its high byte the second |
| Bus.LowByte | src/bus.rs:229-237 | the low byte of a word is its value modulo 256 |
| Bus.HighByte | src/bus.rs:229-237 | the high byte of a word is its value divided by 256 |
| Bus.SplitJoin | src/bus.rs:136-237 | joining the two bytes of a word gives the word back |
| Bus.WordWritten | src/bus.rs:229-237 | a word write keeps the bus invariant |
| Bus.ReadAfterWrite | src/bus.rs:102-227 | VRAM, work RAM and echo, OAM, TIMA, TMA, every LCD register but LY, HRAM and IE read back the byte just written |
| Bus.EchoMirrors | src/bus.rs:107-108 | 0xE000-0xFDFF reads the work-RAM cell 0x2000 lower |
| Bus.EchoWrites | src/bus.rs:174-181 | a write through the echo is read at the work-RAM address, and the other way round |
| Bus.StorageFrame | src/bus.rs:169-227 | a write to work RAM, HRAM or IE leaves every other storage byte but its echo twin |
| Bus.StorageWriteFrame | src/bus.rs:169-227 | a write to work RAM, HRAM or IE changes nothing outside RAM, HRAM and IE |
| Bus.IgnoredWrites | src/bus.rs:169-227 | writes to the unusable range, the serial data port, LY and every unlisted address change nothing |
| Bus.ZeroReads | src/bus.rs:102-167 | the unusable range, both serial ports and every unlisted address read 0 |
| Bus.LyReadOnly | src/bus.rs:102-227 | LY reads the PPU's line counter and a write to it changes nothing |
| Bus.WordRoundTrip | src/bus.rs:136-237 | on work RAM, HRAM and IE below 0xFFFF, a word read after a word write returns the word |
| Bus.Ticked | src/bus.rs:50-60 | a bus tick keeps the invariant |
| Bus.TickFanOut | src/bus.rs:50-60 | a bus tick is exactly two PPU ticks and four timer ticks, and nothing else changes |
| Bus.TickDots | src/bus.rs:50-60 | a bus tick moves the beam two dots on |
| Bus.TickCounter | src/bus.rs:50-60 | a bus tick moves the timer counter four on, modulo 2^16 |
| Bus.Bus.constructor | src/bus.rs:36-48 | `Bus::new` zeroes RAM, HRAM and IE with default joypad and timer |
| Bus.Bus.Tick | src/bus.rs:50-60 | `tick` is `Ticked` |
| Bus.Bus.TickTimer | src/bus.rs:53-56 | the four timer ticks of `tick` change only the timer |
| Bus.Bus.IrqIsFlag | src/bus.rs:62-100 | the `irq_*` getters read the flags of the bus state |
| Bus.Bus.SetIrq | src/bus.rs:62-100 | the `set_irq_*` setters are `IrqFlagSet` |
| Bus.Bus.ReadIrq | src/bus.rs:143-157 | `read_irq` is `IrqRead` |
| Bus.Bus.WriteIrq | src/bus.rs:239-254 | `write_irq` is `IrqWritten` |
| Bus.Bus.WriteSerialCtrl | src/bus.rs:262-290 | `write_serial_ctrl` is `SerialCtrlWritten` |
| Bus.Bus.Read | src/bus.rs:102-134 | `read` is `ByteRead` |
| Bus.Bus.ReadWord | src/bus.rs:136-141 | `read_word` is `WordRead` |
| Bus.Bus.Write | src/bus.rs:169-227 | `write` is `ByteWritten` |
| Bus.Bus.WritePort | src/bus.rs:184-216 | the I/O-port arms of `write` |
| Bus.Bus.WriteTimer | src/bus.rs:190-205 | the timer-port arms of `write` change only the timer |
| Bus.Bus.WriteWord | src/bus.rs:229-237 | `write_word` is `WordWritten` |
| Cpu.LeftSlot | src/cpu.rs:569-571 | the left operand slot is bits 3-5, a value 0-7 |
| Cpu.RightSlot | src/cpu.rs:569-571 | the right operand slot is bits 0-2, a value 0-7 |
| Cpu.Decode | src/cpu.rs:569-650 | each handler arm receives the opcode's left slot (and its right slot for LD r,r) |
| Cpu.HandledAreOpcodes | src/cpu.rs:6-252 | every byte with a handler is an `Opecode` value |
| Cpu.ImmAndIncPatterns | src/cpu.rs:573-646 | the LD r,imm8 list is the pattern 00rrr110 and the INC r list is 00rrr100 |
| Cpu.LoadRegPattern | src/cpu.rs:583-638 | the LD r,r list is 01dddsss without HALT and without sources in A (apart from LD A,A) |
| Cpu.HighOf | src/cpu.rs:408-438 | the high-half getters always give 0 |
| Cpu.LowOf | src/cpu.rs:408-438 | the low-half getters give a value below 16, the pair's low nibble |
| Cpu.WithHigh | src/cpu.rs:440-478 | a high-half setter puts the byte in bits 8-15 and keeps only the low nibble below |
| Cpu.WithLow | src/cpu.rs:440-478 | a low-half setter clears bits 8-15; the new low byte is the pair's old bits 4-7 ORed with the value |
| Cpu.FlagMask | src/cpu.rs:529-567 | the flags live in bits 12-15 of `af` |
| Cpu.FlagOf | src/cpu.rs:529-543 | `flag_z`, `flag_n`, `flag_h` and `flag_c` test bits 15, 14, 13 and 12 |
| Cpu.NotFlags | src/cpu.rs:545-551 | `flag_nz` is the negation of the half-carry flag and `flag_nc` of the carry flag |
| Cpu.FlagSetGet | src/cpu.rs:553-567 | a flag setter ORs its flag in: the flag afterwards is the old flag or the value |
| Cpu.FlagSetOther | src/cpu.rs:553-567 | a flag setter leaves the other flags and clears no bit of `af` |
| Cpu.WithPair | src/cpu.rs:346-357 | a pair update changes only that pair |
| Cpu.Initial | src/cpu.rs:360-371 | `Cpu::new` keeps the bus with AF, BC, DE, HL, SP, PC and the stall count all 0 |
| Cpu.AfterReset | src/cpu.rs:373-381 | `reset` keeps the bus, sets PC to 0x0100 and AF, BC, DE, HL, SP and the stall count to 0 |
| Cpu.ResetForgets | src/cpu.rs:373-381 | after a reset the state depends on the bus alone, and a second reset changes nothing |
| Cpu.Set | src/cpu.rs:440-478 | register setters leave SP, PC, stalls and the bus |
| Cpu.SetGet | src/cpu.rs:408-478 | after a setter its getter sees 0 for a high half and the low nibble for a low half; a high setter stores the whole byte in the pair |
| Cpu.SetOther | src/cpu.rs:408-478 | a setter leaves every other 8-bit getter, the other half of the pair included |
| Cpu.LowSetClearsHigh | src/cpu.rs:445-478 | a low-half setter clears the pair's high byte, and so `set_f` clears every flag |
| Cpu.SlotReg | src/cpu.rs:480-492 | slots 0, 2, 4 and 7 are high halves; no slot names F |
| Cpu.SlotRead | src/cpu.rs:480-492 | `r8` fails exactly on slots above 7 |
| Cpu.SlotWritten | src/cpu.rs:494-527 | `set_r8` fails exactly on slots above 7 and keeps the bus invariant |
| Cpu.SetR8Frame | src/cpu.rs:494-527 | a register slot changes only its register, slot 6 only the bus at HL, a bad slot nothing |
| Cpu.SlotRoundTrip | src/cpu.rs:480-527 | a slot reads back the byte at a writable HL, the low nibble for C, E and L, and 0 for B, D, H and A |
| Cpu.LoadImmStep | src/cpu.rs:656-664 | LD r,imm8 fails exactly on a bad slot |
| Cpu.LoadRegStep | src/cpu.rs:666-671 | LD r,r fails exactly when either slot is bad |
| Cpu.IncStep | src/cpu.rs:673-685 | INC r fails exactly on a bad slot |
| Cpu.JumpStep | src/cpu.rs:687-692 | JP a16 always succeeds |
| Cpu.Executed | src/cpu.rs:569-650 | `do_mnemonic` fails exactly on opcodes without a handler |
| Cpu.BusTicked | src/cpu.rs:403 | the bus tick changes only the bus |
| Cpu.Run | src/cpu.rs:399-405 | executing a fetched opcode keeps the bus invariant; `TickRuns` states its result |
| Cpu.Finished | src/cpu.rs:401-405 | finishing an instruction keeps the bus invariant |
| Cpu.Ticked | src/cpu.rs:383-406 | `tick` keeps the bus invariant; the tick lemmas below state what it does |
| Cpu.IncFlagsOr | src/cpu.rs:673-685 | INC ORs in zero on wrap to 0, half-carry from bit 3, carry on overflow, and never changes subtract |
| Cpu.IncRegister | src/cpu.rs:673-685 | INC on B-L stores the byte plus one (wrapping) and ORs the flags in |
| Cpu.LoadRegCopies | src/cpu.rs:666-671 | LD between registers gives the destination what its getter makes of the source and leaves every other register |
| Cpu.StallTick | src/cpu.rs:386-390 | with stalls, a tick only counts the stall down: no fetch, no PC change, no bus tick |
| Cpu.UnknownOpcodeTick | src/cpu.rs:392-395 | a byte that is not an `Opecode` fails the tick and changes nothing |
| Cpu.UnimplementedTick | src/cpu.rs:392-401 | an opcode without a handler fails as unimplemented after PC has moved on, without a bus tick |
| Cpu.NopTick | src/cpu.rs:383-406 | NOP moves PC one on and ticks the bus once |
| Cpu.TickRuns | src/cpu.rs:392-405 | an implemented instruction runs after PC moves on and is followed by exactly one bus tick |
| Cpu.LoadImmExecuted | src/cpu.rs:656-664 | the LD r,imm8 arm writes the byte at PC into its slot and moves PC on |
| Cpu.LoadImmTick | src/cpu.rs:656-664 | LD r,imm8 consumes exactly one operand byte: the slot receives the byte after the opcode, PC moves two on, the bus ticks once |
| Cpu.JumpTick | src/cpu.rs:687-692 | JP a16 sets PC to the little-endian word after the opcode and ticks the bus once |
| Cpu.Cpu.constructor | src/cpu.rs:360-371 | `Cpu::new` is `Initial`: every register and the stall count 0 |
| Cpu.Cpu.Reset | src/cpu.rs:373-381 | `reset` is `AfterReset`: PC 0x0100, every other register and the stall count 0 |
| Cpu.Cpu.Reg | src/cpu.rs:408-438 | the high-half getters give 0 and the low-half getters the pair's low nibble |
| Cpu.Cpu.SetReg | src/cpu.rs:440-478 | the setters are `Set` |
| Cpu.Cpu.Flag | src/cpu.rs:529-543 | a flag getter tests its bit among 12-15 of `af` |
| Cpu.Cpu.FlagNz | src/cpu.rs:545-547 | `flag_nz` is the negated half-carry flag |
| Cpu.Cpu.FlagNc | src/cpu.rs:549-551 | `flag_nc` is the negated carry flag |
| Cpu.Cpu.SetFlag | src/cpu.rs:553-567 | the flag setters are `FlagSet` |
| Cpu.Cpu.R8 | src/cpu.rs:480-492 | `r8` is `SlotRead` |
| Cpu.Cpu.SetR8 | src/cpu.rs:494-527 | `set_r8` is `SlotWritten` |
| Cpu.Cpu.Nop | src/cpu.rs:652-654 | `nop` succeeds |
| Cpu.Cpu.LoadR8Im8 | src/cpu.rs:656-664 | `load_8_r_im8` is `LoadImmStep` |
| Cpu.Cpu.LoadR8R8 | src/cpu.rs:666-671 | `load_8_r_r` is `LoadRegStep` |
| Cpu.Cpu.IncR8 | src/cpu.rs:673-685 | `inc_8_r` is `IncStep` |
| Cpu.Cpu.SetIncFlags | src/cpu.rs:679-682 | the four flag writes of `inc_8_r` are `IncFlags` |
| Cpu.Cpu.Jp16 | src/cpu.rs:687-692 | `jp_16` is `JumpStep` |
| Cpu.Cpu.DoMnemonic | src/cpu.rs:569-650 | `do_mnemonic` is `Executed` |
| Cpu.Cpu.TickBus | src/cpu.rs:403 | the bus tick is `BusTicked` |
| Cpu.Cpu.Advance | src/cpu.rs:399 | PC moves one on, wrapping |
| Cpu.Cpu.Finish | src/cpu.rs:401-405 | a failure is returned as is; a success ticks the bus |
| Cpu.Cpu.RunOpcode | src/cpu.rs:399-405 | advance, execute and finish are `Run` |
| Cpu.Cpu.Tick | src/cpu.rs:383-406 | `tick` is `Ticked` |

## Left out

- src/main.rs, src/board.rs, src/debugger.rs and src/gb.rs are not part of this model. They hold the window, the REPL, the event loop, the GPIO cartridge bridge, the breakpoint list and the construction wiring, all of which are I/O or glue.
- CPU interrupt dispatch does not exist in the source (a TODO in `tick`), so it is not modelled.
- Opcodes other than NOP, LD r,imm8, LD r,r, INC r and JP a16 have no handler. They are modelled as the unimplemented error they produce.
- CB-prefixed execution does not exist either. The `PrefixedOpecode` enum appears only as the set `Cpu.IsPrefixedOpcode`, which nothing uses.
- MBC1/MBC3 banking is absent from the source; only `RomOnly` is modelled.
- `Rom::new` works on the whole file as a byte sequence instead of a `BufReader`. Read errors of the underlying file are therefore not modelled.
- Images are modelled as shades. The frame is a 160 x 144 array of shade indices rather than an `RgbaImage`, and `color_to_pixel` is the table `Ppu.ColorToPixel`. The model's power-on frame is all shade 0, the lightest green (0xD8, 0xF7, 0xD7) through `color_to_pixel`. The source's `ImageBuffer::new` starts with every byte 0, i.e. transparent black, which is no shade's pixel. The model therefore does not capture that the frame is transparent before its first `put_pixels`.
- `render`, the byte copy of that image into the window's buffer, is left out as window I/O.
- Logging is not modelled. `println!` and `eprintln!` in the cpu, bus and timer, including the serial data port's log line, have no counterpart.
- The `bitmatch` and `bitfield` macros are replaced by explicit shifts and masks.
- The bus and PPU methods that return `Result` but always succeed are modelled as plain functions and methods, without a result.
- Overflow panics of a debug build are not modelled, apart from the two PPU address subtractions above. Arithmetic wraps, as in a release build.
- Some specification functions carry no `ensures` of their own, because lemmas and class members state their properties. They are listed here by module.
  - Timer (src/timer.rs:39-122):
    - Timer.Synced, Timer.Ticked and Timer.Increment: stated by TimaChangesOnlyOnFallingEdge, FallingEdgeIncrements, TickCounter and TicksBlock.
    - Timer.Div and Timer.DivWritten: stated by DivRoundTrip.
    - Timer.TimaWritten and Timer.TmaWritten: stated by TimaTmaWrites.
    - Timer.Tac and Timer.TacWritten: stated by TacRoundTrip.
    - Timer.SelectedBit, Timer.CounterBit and Timer.Level, the bit choice of `sync`: stated by TimaChangesOnlyOnFallingEdge, Bit9Below and TicksWithinBlock.
    - Timer.Ticks, repeated `tick`: stated by TicksCounter, TicksBlock and FourTicks.
    - Timer.BlockStart, the start of a clock-0 block: the precondition of TicksWithinBlock and TicksBlock.
  - Joypad (src/joypad.rs:53-156):
    - Joypad.Held and Joypad.IsDirection, the key latches and groups: stated by SetKey and ReadShowsHeldKey.
    - Joypad.Pressed and Joypad.Released: stated by SetKey, PressRelease, PressIdempotent and KeysIndependent.
    - Joypad.ButtonByte, Joypad.DirectionByte, Joypad.P1 and Joypad.P1Written: stated by ReadShowsHeldKey, ReadFixedBits and WriteThenRead.
  - Ppu (src/ppu.rs:46-590):
    - Ppu.PaletteFrom and Ppu.PaletteByte: stated by PaletteByteRoundTrip and PaletteEntries.
    - Ppu.Crumb, Ppu.PlaneBit and Ppu.Plane: stated by TileRow and PlanesEncodeTileRow.
    - Ppu.WindowStarts: stated by DrawnWindow and DrawnLine.
    - Ppu.Visible: stated by Scanned.
    - Ppu.PixelShade: stated by SpriteChoosesPixel.
    - Ppu.VramRead and Ppu.VramWritten: stated by VramRoundTrip.
    - Ppu.OamWritten and Ppu.OamField, the field choice of `read_oam`/`write_oam`: stated by OamRead, WithOamField and OamRoundTrip.
    - The `LcdControl` and `SpriteFlags` bitfield getters:
      - Ppu.BgWinEnable and Ppu.SpriteEnable: stated by DrawnLineEnables.
      - Ppu.BgTileMapSelect: stated by BgPixel.
      - Ppu.WindowTileMapSelect: stated by WindowPixel.
      - Ppu.WindowDisplayEnable: stated by DrawnLine.
      - Ppu.TileDataSelect: stated by TileMapSelectsTile.
      - Ppu.SpriteSize and Ppu.YFlip: stated by SpriteRow and SpriteRowInRange.
      - Ppu.XFlip: stated by XFlipMirrors.
      - Ppu.PaletteNum and Ppu.Priority: stated by OamToColors.
    - Ppu.ModeOf, Ppu.BeamInv, Ppu.BeamDot and Ppu.Dot, the mode by dot and the beam invariant: stated by NextBeam, NextBeamMode, BeamDotDetermines, TickModes and TicksMoveDots.
    - Ppu.Shape and Ppu.Inv, the buffer sizes and the PPU invariant: stated by InitialInv, Ticked and RegisterWriteKeepsInv.
    - Ppu.RegisterRead, Ppu.StoredRead and Ppu.StoredWritten: stated by StoredReadBack, StoredOthers and RegisterRoundTrip.
  - Bus (src/bus.rs:9-290):
    - Bus.IeEnabled and Bus.IeSet: stated by IeSetGet.
    - Bus.IrqFlag, Bus.IrqFlagSet, Bus.IrqRead and Bus.IrqWritten: stated by IrqFlagSetGet, IrqReadBits, IrqRoundTrip and IrqWriteFrame.
    - Bus.SerialCtrlWritten: stated by SerialEdge.
    - Bus.Inv, Bus.Storage, Bus.Writable and Bus.IsPort, the bus invariant and address classes: stated by Initial, ByteWritten, ReadAfterWrite and StorageFrame.
    - Bus.TimerRead, Bus.TimerWritten, Bus.ByteRead and Bus.WordRead: stated by ReadAfterWrite, ZeroReads, IgnoredWrites, LyReadOnly and WordRoundTrip.
  - Cpu (src/cpu.rs:6-685):
    - Cpu.Unused and Cpu.IsOpcode, the `Opecode` enum as a set of bytes: stated by HandledAreOpcodes and UnknownOpcodeTick.
    - Cpu.NzOf, Cpu.NcOf and Cpu.FlagSet: stated by NotFlags, FlagSetGet and FlagSetOther.
    - Cpu.IncFlags: stated by IncFlagsOr.
    - Cpu.Get: stated by SetGet, SetOther and HighOf/LowOf.
    - Cpu.PairOf, a register pair: stated by WithPair.
    - Cpu.LoadImmOp, Cpu.LoadRegOp and Cpu.IncOp, the opcode lists of `do_mnemonic`: stated by ImmAndIncPatterns and LoadRegPattern.
    - Cpu.Inv, the bus invariant carried by the CPU: stated by SlotWritten, Executed and Ticked.
  - Rom (src/rom.rs:105-232):
    - Rom.Header and Rom.Checksum: stated by HeaderOkIff, HeaderFields, ShortFileIsEof, ChecksumStep and New.
    - Rom.MbcTypeCode, the cartridge-type table: stated by MbcTypeFromByte and MbcTypeRoundTrip.
    - Rom.DefaultRom (`Rom::default`, src/rom.rs:62-81), the record `Rom::new` fills in: stated by New, which is proved equal to Header.
- Mbc.ReadRom, Mbc.ReadRam, Mbc.WriteRom and Mbc.WriteRam carry no `ensures` of their own. `Mbc.Read`, `Mbc.Write` and `Mbc.ReadAfterWrites` state what they do.
- Mbc.IsRomAddr and Mbc.IsRamAddr, the two cartridge windows, and Mbc.ValidWrites and Mbc.ApplyWrites, a write sequence and its effect, carry no `ensures` either. Mbc.Read and Mbc.ReadAfterWrites state them.
- Utils.IsUpperHex, the character class 0-9/A-F, is stated by Digit and BytesToHexIsUpperHex. Common.Bit, bit i of a byte, is stated by BitIf.
- The classes' `State()`, `Repr()`, `Valid()` and `Separate()` and `Bus.Bus.Irq` are views of the fields and frames that the methods' contracts are written in. They model no separate operation.
- Some helpers have their own small `ensures` but no row, because they state arithmetic or sequence facts rather than behaviour of the source. Their results are used by the lemmas above:
  - Common.Pow2 and Common.BitIf;
  - Timer.ClockCode, Timer.WrapSucc, Timer.Bit9Below and Timer.NextBlock;
  - Joypad.KeyBit;
  - Ppu.Reverse (stated by XFlipMirrors), Ppu.Filled, Ppu.BlankLine, Ppu.BlankSprites, Ppu.ModSucc, Ppu.ModFrame, Ppu.SameBit and Ppu.WholeFramesReturn (the proof of FrameReturns).
