/** The picture processing unit of src/ppu.rs: 8 KiB of video RAM, 160 OAM
    entries, the LCD registers, and the dot/line state machine that scans
    OAM, composes background, window and sprite colour indexes into one
    256-entry line, and writes the visible 160 x 144 frame as 2-bit shades. */
module Ppu {
  import opened Common

  const VisibleWidth := 160
  const VisibleHeight := 144
  /** Length of the composed background and sprite lines (`WIDTH`). */
  const LineWidth := 256
  const VramSize := 0x2000
  const OamCount := 0xA0
  const DotsPerLine := 456
  const LinesPerFrame := 154
  const FrameDots := 456 * 154

  /** A 2-bit colour number produced by tile decoding (`ColorIndex`). */
  type ColorIndex = b: bv8 | b < 4
  /** A 2-bit shade, the entries of a palette. */
  type Shade = b: bv8 | b < 4
  /** `Palette([u8; 4])`: the shade of each colour index. */
  type Palette = p: seq<Shade> | |p| == 4 witness [0, 0, 0, 0]

  // ---- LCDC (`LcdControl`) and sprite flag (`SpriteFlags`) bits ----

  predicate BgWinEnable(lcdc: bv8) { lcdc & 0x01 != 0 }
  predicate SpriteEnable(lcdc: bv8) { lcdc & 0x02 != 0 }
  predicate SpriteSize(lcdc: bv8) { lcdc & 0x04 != 0 }
  predicate BgTileMapSelect(lcdc: bv8) { lcdc & 0x08 != 0 }
  predicate TileDataSelect(lcdc: bv8) { lcdc & 0x10 != 0 }
  predicate WindowDisplayEnable(lcdc: bv8) { lcdc & 0x20 != 0 }
  predicate WindowTileMapSelect(lcdc: bv8) { lcdc & 0x40 != 0 }

  predicate PaletteNum(flags: bv8) { flags & 0x10 != 0 }
  predicate XFlip(flags: bv8) { flags & 0x20 != 0 }
  predicate YFlip(flags: bv8) { flags & 0x40 != 0 }
  predicate Priority(flags: bv8) { flags & 0x80 != 0 }

  // ---- palettes ----

  /** `Palette::from`: the byte `ddccbbaa` gives the entries [a, b, c, d]. */
  function PaletteFrom(val: bv8): (p: Palette) {
    [val & 3, (val >> 2) & 3, (val >> 4) & 3, (val >> 6) & 3]
  }

  /** `u8::from(Palette)`: entry i packed into bits 2i+1..2i. */
  function PaletteByte(p: Palette): (r: bv8) {
    (p[0] as bv8) | ((p[1] as bv8) << 2) | ((p[2] as bv8) << 4) | ((p[3] as bv8) << 6)
  }

  /** Packing a palette read from a byte gives the byte back. */
  lemma PaletteByteRoundTrip(val: bv8)
    ensures PaletteByte(PaletteFrom(val)) == val
  {
  }

  /** Entry i of the palette read from a byte is that byte's bits 2i+1..2i,
      and reading a packed palette gives the palette back. */
  lemma PaletteEntries(val: bv8, p: Palette)
    ensures PaletteFrom(val)[0] == val & 0x03
    ensures (PaletteFrom(val)[1] as bv8) << 2 == val & 0x0C
    ensures (PaletteFrom(val)[2] as bv8) << 4 == val & 0x30
    ensures (PaletteFrom(val)[3] as bv8) << 6 == val & 0xC0
    ensures PaletteFrom(PaletteByte(p)) == p
  {
    var q := PaletteFrom(PaletteByte(p));
    assert q[0] == p[0] && q[1] == p[1] && q[2] == p[2] && q[3] == p[3];
  }

  // ---- the RGBA table ----

  datatype Rgba = Rgba(r: bv8, g: bv8, b: bv8, a: bv8)

  /** `color_to_pixel`: the four greens, and opaque white for any other value. */
  function ColorToPixel(color: bv8): (p: Rgba)
    ensures p.a == 0xFF
    ensures color >= 4 <==> p == Rgba(0xFF, 0xFF, 0xFF, 0xFF)
  {
    if color == 0 then Rgba(0xD8, 0xF7, 0xD7, 0xFF)
    else if color == 1 then Rgba(0x6C, 0xA6, 0x6B, 0xFF)
    else if color == 2 then Rgba(0x20, 0x59, 0x4A, 0xFF)
    else if color == 3 then Rgba(0x00, 0x14, 0x1B, 0xFF)
    else Rgba(0xFF, 0xFF, 0xFF, 0xFF)
  }

  /** The four shades are distinct and get darker (less green) as the shade grows. */
  lemma ShadesDarken(c: Shade, d: Shade)
    requires c < d
    ensures ColorToPixel(c).g > ColorToPixel(d).g
    ensures ColorToPixel(c) != ColorToPixel(d)
  {
  }

  // ---- tile decoding ----

  /** One pixel of a tile row: bit `7 - j` of the first plane byte gives the
      high bit of the colour index, bit `7 - j` of the second the low bit
      (the `aabbccdd...` interleave of `tile_to_indexes`). */
  function Crumb(first: bv8, second: bv8, j: nat): (c: ColorIndex)
    requires j < 8
  {
    (((first >> (7 - j)) & 1) << 1) | ((second >> (7 - j)) & 1)
  }

  /** The 8 colour indexes of a tile row, left to right. */
  function TileRow(first: bv8, second: bv8): (r: seq<ColorIndex>)
    ensures |r| == 8
    ensures forall j :: 0 <= j < 8 ==>
      (r[j] >= 2 <==> Bit(first, 7 - j)) && (r[j] & 1 == 1 <==> Bit(second, 7 - j))
  {
    seq(8, j requires 0 <= j < 8 => Crumb(first, second, j))
  }

  /** Bit `7 - i` of a plane byte for colour index `c` at position `i`:
      the high bit of `c` for the first plane, the low bit for the second. */
  function PlaneBit(c: ColorIndex, i: nat, first: bool): (b: bv8)
    requires i < 8
  {
    if (if first then c >= 2 else c & 1 == 1) then 0x80 >> i else 0
  }

  /** One plane byte of a row of 8 colour indexes: the high bits of the
      indexes for the first plane, the low bits for the second. */
  function Plane(r: seq<ColorIndex>, first: bool): (b: bv8)
    requires |r| == 8
  {
    PlaneBit(r[0], 0, first) | PlaneBit(r[1], 1, first) | PlaneBit(r[2], 2, first) | PlaneBit(r[3], 3, first)
      | PlaneBit(r[4], 4, first) | PlaneBit(r[5], 5, first) | PlaneBit(r[6], 6, first) | PlaneBit(r[7], 7, first)
  }

  lemma PlaneAt(r: seq<ColorIndex>, first: bool, j: nat)
    requires |r| == 8 && j < 8
    ensures (Plane(r, first) >> (7 - j)) & 1 == if (if first then r[j] >= 2 else r[j] & 1 == 1) then 1 else 0
  {
  }

  /** Decoding the two planes of a row gives the row back. */
  lemma TileRowDecodesPlanes(r: seq<ColorIndex>)
    requires |r| == 8
    ensures TileRow(Plane(r, true), Plane(r, false)) == r
  {
    var t := TileRow(Plane(r, true), Plane(r, false));
    forall j | 0 <= j < 8 ensures t[j] == r[j] {
      PlaneAt(r, true, j);
      PlaneAt(r, false, j);
    }
  }

  /** Bit i of `a` and `b` agree. */
  predicate SameBit(a: bv8, b: bv8, i: nat)
    requires i < 8
  {
    (a >> i) & 1 == (b >> i) & 1
  }

  /** Two bytes that agree on every bit are equal. */
  lemma BitsDetermineByte(a: bv8, b: bv8)
    requires SameBit(a, b, 0) && SameBit(a, b, 1) && SameBit(a, b, 2) && SameBit(a, b, 3)
    requires SameBit(a, b, 4) && SameBit(a, b, 5) && SameBit(a, b, 6) && SameBit(a, b, 7)
    ensures a == b
  {
  }

  /** Bit 7 - j of each re-encoded plane is bit 7 - j of the plane byte. */
  lemma FirstBit(first: bv8, second: bv8, j: nat)
    requires j < 8
    ensures SameBit(Plane(TileRow(first, second), true), first, 7 - j)
  {
    PlaneAt(TileRow(first, second), true, j);
  }

  lemma SecondBit(first: bv8, second: bv8, j: nat)
    requires j < 8
    ensures SameBit(Plane(TileRow(first, second), false), second, 7 - j)
  {
    PlaneAt(TileRow(first, second), false, j);
  }

  lemma FirstPlaneEncodes(first: bv8, second: bv8)
    ensures Plane(TileRow(first, second), true) == first
  {
    FirstBit(first, second, 0); FirstBit(first, second, 1); FirstBit(first, second, 2); FirstBit(first, second, 3);
    FirstBit(first, second, 4); FirstBit(first, second, 5); FirstBit(first, second, 6); FirstBit(first, second, 7);
    BitsDetermineByte(Plane(TileRow(first, second), true), first);
  }

  lemma SecondPlaneEncodes(first: bv8, second: bv8)
    ensures Plane(TileRow(first, second), false) == second
  {
    SecondBit(first, second, 0); SecondBit(first, second, 1); SecondBit(first, second, 2); SecondBit(first, second, 3);
    SecondBit(first, second, 4); SecondBit(first, second, 5); SecondBit(first, second, 6); SecondBit(first, second, 7);
    BitsDetermineByte(Plane(TileRow(first, second), false), second);
  }

  /** Encoding a decoded row gives the two plane bytes back. */
  lemma PlanesEncodeTileRow(first: bv8, second: bv8)
    ensures Plane(TileRow(first, second), true) == first
    ensures Plane(TileRow(first, second), false) == second
  {
    FirstPlaneEncodes(first, second);
    SecondPlaneEncodes(first, second);
  }

  /** `tile_num as i8`. */
  function SignedTile(tile: bv8): (t: int)
    ensures -128 <= t < 128
    ensures t % 256 == tile as int
  {
    if tile < 0x80 then tile as int else tile as int - 256
  }

  /** The VRAM offset of the first plane byte of row `row` of a tile: tiles
      of 16 bytes from 0x0000 by unsigned number, or around 0x1000 by signed
      number. Every row an 8-bit value can name stays inside VRAM. */
  function TileAddress(tile: bv8, row: int, signed: bool): (a: int)
    requires 0 <= row < 256
    ensures 0 <= a && a + 1 < VramSize
    ensures !signed && row < 8 ==> tile as int * 16 <= a < tile as int * 16 + 16
    ensures signed && row < 8 ==> 0x800 <= a < 0x1800
  {
    if signed then 0x1000 + row * 2 + SignedTile(tile) * 16
    else row * 2 + tile as int * 16
  }


  /** `tile_to_indexes`: the row of the tile decoded from the two bytes at
      its tile-data address. */
  function TileToIndexes(vram: seq<bv8>, tile: bv8, row: int, signed: bool): (r: seq<ColorIndex>)
    requires |vram| == VramSize && 0 <= row < 256
    ensures |r| == 8
  {
    var a := TileAddress(tile, row, signed);
    TileRow(vram[a], vram[a + 1])
  }

  /** Colour index j of a decoded tile row has bit 7 - j of the first byte
      at the row's address as its high bit and bit 7 - j of the second byte
      as its low bit. */
  lemma TileToIndexesBits(vram: seq<bv8>, tile: bv8, row: int, signed: bool, j: int)
    requires |vram| == VramSize && 0 <= row < 256 && 0 <= j < 8
    ensures var a := TileAddress(tile, row, signed);
      (TileToIndexes(vram, tile, row, signed)[j] >= 2 <==> Bit(vram[a], 7 - j)) &&
      (TileToIndexes(vram, tile, row, signed)[j] & 1 == 1 <==> Bit(vram[a + 1], 7 - j))
  {
  }

  /** The VRAM offset of entry (tileX, tileY) of the tile map at 0x9800 or 0x9C00. */
  function TileMapAddress(tileX: int, tileY: int, high: bool): (a: int)
    requires 0 <= tileX < 32 && 0 <= tileY < 32
    ensures (if high then 0x1C00 else 0x1800) <= a < (if high then 0x2000 else 0x1C00)
  {
    (if high then 0x1C00 else 0x1800) + tileX + tileY * 32
  }

  /** `tile_map_to_colors`: the tile number comes from the map; LCDC bit 4
      clear selects signed tile numbers. */
  function TileMapToColors(vram: seq<bv8>, lcdc: bv8, tileX: int, tileY: int, row: int, high: bool): (r: seq<ColorIndex>)
    requires |vram| == VramSize && 0 <= tileX < 32 && 0 <= tileY < 32 && 0 <= row < 8
    ensures |r| == 8
  {
    TileToIndexes(vram, vram[TileMapAddress(tileX, tileY, high)], row, !TileDataSelect(lcdc))
  }

  /** The map entry picks the tile: with LCDC bit 4 set the entry is an
      unsigned number into 0x8000-0x8FFF, with it clear a signed number
      around 0x9000, so the row's bytes lie in 0x8800-0x97FF. */
  lemma TileMapSelectsTile(vram: seq<bv8>, lcdc: bv8, tileX: int, tileY: int, row: int, high: bool)
    requires |vram| == VramSize && 0 <= tileX < 32 && 0 <= tileY < 32 && 0 <= row < 8
    ensures var tile := vram[TileMapAddress(tileX, tileY, high)];
      var a := TileAddress(tile, row, !TileDataSelect(lcdc));
      TileMapToColors(vram, lcdc, tileX, tileY, row, high) == TileRow(vram[a], vram[a + 1]) &&
      (TileDataSelect(lcdc) ==> a == tile as int * 16 + row * 2) &&
      (!TileDataSelect(lcdc) ==> 0x800 <= a < 0x1800)
  {
  }

  // ---- sprites ----

  datatype Oam = Oam(yPos: Byte, xPos: Byte, tileNum: bv8, flags: bv8)

  /** One sprite pixel: its colour index, its shade, and whether it sits
      behind non-zero background (`blend`). */
  datatype OamColor = OamColor(index: ColorIndex, color: Shade, blend: bool)

  const NoColor := OamColor(0, 0, false)

  /** `OamColor::from_indexes`. */
  function FromIndexes(indexes: seq<ColorIndex>, blend: bool, palette: Palette): (r: seq<OamColor>)
    ensures |r| == |indexes|
    ensures forall j :: 0 <= j < |r| ==>
      r[j].index == indexes[j] && r[j].color == palette[indexes[j]] && r[j].blend == blend
  {
    seq(|indexes|, j requires 0 <= j < |indexes| => OamColor(indexes[j], palette[indexes[j]], blend))
  }

  function Reverse<T>(s: seq<T>): (r: seq<T>)
    ensures |r| == |s|
    ensures forall i :: 0 <= i < |s| ==> r[i] == s[|s| - 1 - i]
  {
    if s == [] then [] else Reverse(s[1..]) + [s[0]]
  }

  /** The row within the sprite's tile that screen line `y` shows, and the
      tile number used, as `oam_to_colors` works them out with wrapping
      8-bit arithmetic. */
  function SpriteRow(lcdc: bv8, y: int, yPos: Byte, tileNum: bv8, yFlip: bool): (rt: (int, bv8))
    requires 0 <= y < 144
    ensures 0 <= rt.0 < 256
    ensures var row := (y + 16 - yPos) % 256;
      (SpriteSize(lcdc) && row >= 8 ==> rt.1 == tileNum | 1) &&
      (!(SpriteSize(lcdc) && row >= 8) ==> rt.1 == tileNum & 0x7E)
  {
    var row := (y + 16 - yPos) % 256;
    var tall := SpriteSize(lcdc) && row >= 8;
    var r1 := if tall then row - 8 else row;
    var tile := if tall then tileNum | 1 else tileNum & 0x7E;
    (if yFlip then (7 - r1) % 256 else r1, tile)
  }

  /** For a sprite covering line `y` (what `scan_oam` buffers), the row is
      the distance from the sprite's top, folded into the lower tile for 8x16
      sprites and mirrored by the Y flip; it always names a row 0..7. */
  lemma SpriteRowInRange(lcdc: bv8, y: int, o: Oam)
    requires 0 <= y < 144
    requires o.yPos <= y + 16 < o.yPos + (if SpriteSize(lcdc) then 16 else 8)
    ensures var d := y + 16 - o.yPos; var r := if d >= 8 then d - 8 else d;
      SpriteRow(lcdc, y, o.yPos, o.tileNum, YFlip(o.flags)).0 == (if YFlip(o.flags) then 7 - r else r)
    ensures SpriteRow(lcdc, y, o.yPos, o.tileNum, YFlip(o.flags)).0 < 8
  {
  }

  // ---- the PPU state ----

  datatype Mode = HBlank | VBlank | OamScan | Drawing

  /** The beam: the mode, the dot within the line (`cycles`), the line
      (`lines`, LY), and the pixel position (x, y) being composed. */
  datatype Beam = Beam(mode: Mode, cycles: int, lines: int, x: int, y: int)

  /** The LCD registers that are plain stored bytes, palettes decoded. */
  datatype Registers = Registers(
    lcdControl: bv8, lcdStatus: bv8, scrollY: Byte, scrollX: Byte, linesCompare: Byte,
    windowY: Byte, windowX: Byte, bgPalette: Palette, objPalette0: Palette, objPalette1: Palette)

  datatype PpuState = PpuState(
    vram: seq<bv8>,
    regs: Registers,
    beam: Beam,
    intVBlank: bool, intLcdStat: bool,
    oam: seq<Oam>, buffer: seq<Oam>,
    bgLine: seq<ColorIndex>, oamLine: seq<OamColor>, curBg: seq<ColorIndex>,
    drawingWindow: bool,
    /** The frame, row-major: pixel (x, y) at `y * 160 + x`. */
    pixels: seq<Shade>)

  /** `n` copies of `v` (the `[v; n]` array initialisers). */
  function Filled<T>(n: nat, v: T): (r: seq<T>)
    ensures |r| == n && forall i :: 0 <= i < n ==> r[i] == v
  {
    seq(n, _ => v)
  }

  function BlankLine(): (r: seq<ColorIndex>)
    ensures |r| == LineWidth
  {
    Filled(LineWidth, 0)
  }

  function BlankSprites(): (r: seq<OamColor>)
    ensures |r| == LineWidth
  {
    Filled(LineWidth, NoColor)
  }

  const InitialRegisters := Registers(0, 0, 0, 0, 0, 0, 0, PaletteFrom(0), PaletteFrom(0), PaletteFrom(0))

  /** `Ppu::new()`: every counter and register 0, in VBlank. */
  const Initial := PpuState(
    Filled(VramSize, 0), InitialRegisters, Beam(VBlank, 0, 0, 0, 0), false, false,
    Filled(OamCount, Oam(0, 0, 0, 0)), [], BlankLine(), BlankSprites(), [0, 0, 0, 0, 0, 0, 0, 0],
    false, Filled(VisibleWidth * VisibleHeight, 0))

  /** The mode a dot of a visible line is in. */
  function ModeOf(cycles: int): Mode {
    if cycles < 80 then OamScan else if cycles < 240 then Drawing else HBlank
  }

  /** What `tick` keeps true of the beam: the counters in range, the mode
      following the dot on visible lines and VBlank on lines 144-153, `y`
      the line on visible lines and `x` the dot minus 80 while drawing. Dot
      0 of line 0 is also the power-on state, in VBlank. */
  predicate BeamInv(b: Beam) {
    0 <= b.cycles < DotsPerLine && 0 <= b.lines < LinesPerFrame &&
    0 <= b.x < VisibleWidth && 0 <= b.y < VisibleHeight &&
    (b.lines >= 144 ==> b.mode == VBlank) &&
    (b.lines < 144 ==> b.y == b.lines) &&
    (b.lines < 144 && b.cycles > 0 ==> b.mode == ModeOf(b.cycles)) &&
    (b.lines < 144 && b.cycles == 0 ==> b.mode == OamScan || b.mode == VBlank) &&
    (b.lines < 144 && 80 <= b.cycles < 240 ==> b.x == b.cycles - 80)
  }

  /** The counter part of `tick`: the next dot, wrapping into the next line
      and the next frame; x restarts at dot 80 and counts while drawing, y
      follows the line, the mode follows the dot on visible lines, and line
      144 is VBlank. */
  function NextBeam(b: Beam): (r: Beam)
    requires BeamInv(b)
    ensures BeamInv(r)
  {
    var c := if b.cycles + 1 >= DotsPerLine then 0 else b.cycles + 1;
    var l := if b.cycles + 1 < DotsPerLine then b.lines
      else if b.lines + 1 >= LinesPerFrame then 0 else b.lines + 1;
    var x := if c == 80 then 0 else b.x;
    if l == 144 then Beam(VBlank, c, l, x, b.y)
    else if l > 144 then Beam(b.mode, c, l, x, b.y)
    else if c < 80 then Beam(OamScan, c, l, x, l)
    else if c == 80 then Beam(Drawing, c, l, x, l)
    else if c < 240 then Beam(b.mode, c, l, x + 1, l)
    else Beam(HBlank, c, l, x, l)
  }

  /** The position of the beam: the count of dots since dot 0 of line 0. */
  function BeamDot(b: Beam): int {
    b.lines * DotsPerLine + b.cycles
  }

  /** The dot position of a beam in range names its line and dot. */
  lemma BeamDotDetermines(b: Beam, c: Beam)
    requires BeamInv(b) && BeamInv(c) && BeamDot(b) == BeamDot(c)
    ensures b.lines == c.lines && b.cycles == c.cycles
  {
  }

  /** Counting on one after reducing modulo a frame is counting on one. */
  lemma ModSucc(a: int)
    ensures (a % FrameDots + 1) % FrameDots == (a + 1) % FrameDots
  {
    var q, r := a / FrameDots, a % FrameDots;
    assert a == q * FrameDots + r;
    if r + 1 < FrameDots {
      assert a + 1 == q * FrameDots + (r + 1);
    } else {
      assert a + 1 == (q + 1) * FrameDots;
    }
  }

  /** A whole frame more of dots is the same dot. */
  lemma ModFrame(a: int)
    requires 0 <= a < FrameDots
    ensures (a + FrameDots) % FrameDots == a
  {
  }

  /** Each step moves the beam one dot on, wrapping after 456 dots per line
      and 154 lines per frame. */
  lemma NextBeamMovesOneDot(b: Beam)
    requires BeamInv(b)
    ensures BeamDot(NextBeam(b)) == (BeamDot(b) + 1) % FrameDots
  {
  }

  /** After a step, visible lines are in the mode their dot gives (0-79
      OamScan, 80-239 Drawing, 240-455 HBlank) and lines 144-153 in VBlank. */
  lemma NextBeamMode(b: Beam)
    requires BeamInv(b)
    ensures NextBeam(b).lines < 144 ==> NextBeam(b).mode == ModeOf(NextBeam(b).cycles)
    ensures NextBeam(b).lines >= 144 ==> NextBeam(b).mode == VBlank
  {
  }

  /** The sizes of the buffers and the beam's pixel position in the frame. */
  predicate Shape(s: PpuState) {
    |s.vram| == VramSize && |s.oam| == OamCount && |s.buffer| <= 10 &&
    |s.bgLine| == LineWidth && |s.oamLine| == LineWidth && |s.curBg| == 8 &&
    |s.pixels| == VisibleWidth * VisibleHeight &&
    0 <= s.beam.x < VisibleWidth && 0 <= s.beam.y < VisibleHeight
  }

  predicate Inv(s: PpuState) {
    Shape(s) && BeamInv(s.beam)
  }

  lemma InitialInv()
    ensures Inv(Initial)
  {
  }

  /** Lines 374-419 of `tick`: the beam steps; a new line empties the
      sprite buffer and both composed lines; HBlank of a visible line ends
      the window; line 144 requests the VBlank interrupt. */
  function Advance(s: PpuState): (r: PpuState)
    requires Inv(s)
    ensures Inv(r)
    ensures r.beam == NextBeam(s.beam)
  {
    var b := NextBeam(s.beam);
    var newLine := s.beam.cycles + 1 >= DotsPerLine;
    s.(beam := b,
       buffer := if newLine then [] else s.buffer,
       bgLine := if newLine then BlankLine() else s.bgLine,
       oamLine := if newLine then BlankSprites() else s.oamLine,
       drawingWindow := if b.lines < 144 && b.cycles >= 240 then false else s.drawingWindow,
       intVBlank := if b.lines == 144 then true else s.intVBlank)
  }

  // ---- line composition ----

  /** The tile row `draw_bg` and `draw_window` hold in `cur_bg` for map
      position (cx, cy): fetched anew when a tile starts or at x = 0. */
  function FetchedRow(s: PpuState, cx: int, cy: int, high: bool): (cur: seq<ColorIndex>)
    requires Shape(s) && 0 <= cx < 256 && 0 <= cy < 256
    ensures |cur| == 8
    ensures !(cx % 8 == 0 || s.beam.x == 0) ==> cur == s.curBg
  {
    if cx % 8 == 0 || s.beam.x == 0
    then TileMapToColors(s.vram, s.regs.lcdControl, cx / 8, cy / 8, cy % 8, high)
    else s.curBg
  }

  /** The shared tail of `draw_bg` and `draw_window`: `cur_bg` becomes the
      fetched row and column cx % 8 of it is stored at `bg_line[x]`. */
  function Fetched(s: PpuState, cx: int, cy: int, high: bool): (r: PpuState)
    requires Shape(s) && 0 <= cx < 256 && 0 <= cy < 256
    ensures Shape(r) && r == s.(curBg := r.curBg, bgLine := r.bgLine)
  {
    var cur := FetchedRow(s, cx, cy, high);
    s.(curBg := cur, bgLine := s.bgLine[s.beam.x := cur[cx % 8]])
  }

  /** `draw_bg`: skipped once the window has started on this line, otherwise
      the background map scrolled by (SCX, SCY), wrapping at 256. */
  function DrawnBg(s: PpuState): (r: PpuState)
    requires Shape(s)
    ensures Shape(r) && r == s.(curBg := r.curBg, bgLine := r.bgLine)
    ensures s.drawingWindow ==> r == s
  {
    if s.drawingWindow then s
    else Fetched(s, (s.beam.x + s.regs.scrollX) % 256, (s.beam.y + s.regs.scrollY) % 256,
                 BgTileMapSelect(s.regs.lcdControl))
  }

  /** The condition on which `draw_window` starts the window on this line. */
  predicate WindowStarts(s: PpuState) {
    s.beam.x + 7 == s.regs.windowX && s.beam.y >= s.regs.windowY
  }

  /** `draw_window`: once started the window latches `drawing_window` and
      draws the window map from (x - WX, y - WY), wrapping at 256. */
  function DrawnWindow(s: PpuState): (r: PpuState)
    requires Shape(s)
    ensures Shape(r) && r == s.(curBg := r.curBg, bgLine := r.bgLine, drawingWindow := r.drawingWindow)
    ensures r.drawingWindow <==> s.drawingWindow || WindowStarts(s)
    ensures !r.drawingWindow ==> r == s
  {
    if !s.drawingWindow && !WindowStarts(s) then s
    else Fetched(s.(drawingWindow := true), (s.beam.x - s.regs.windowX) % 256,
                 (s.beam.y - s.regs.windowY) % 256, WindowTileMapSelect(s.regs.lcdControl))
  }

  /** One composed pixel: column x of the line takes column cx % 8 of the
      tile at map position (cx / 8, cy / 8), row cy % 8, whenever that tile
      is fetched at x; the rest of the line is untouched. */
  lemma FetchedPixel(s: PpuState, cx: int, cy: int, high: bool)
    requires Shape(s) && 0 <= cx < 256 && 0 <= cy < 256
    requires cx % 8 == 0 || s.beam.x == 0
    ensures Fetched(s, cx, cy, high).bgLine[s.beam.x] ==
      TileMapToColors(s.vram, s.regs.lcdControl, cx / 8, cy / 8, cy % 8, high)[cx % 8]
    ensures forall i :: 0 <= i < LineWidth && i != s.beam.x ==> Fetched(s, cx, cy, high).bgLine[i] == s.bgLine[i]
  {
  }

  /** `oam_to_colors`: the sprite's row decoded from unsigned tile data,
      coloured by OBP0 or OBP1, mirrored by the X flip. */
  function OamToColors(s: PpuState, o: Oam): (r: seq<OamColor>)
    requires Shape(s)
    ensures |r| == 8
    ensures forall j :: 0 <= j < 8 ==>
      r[j].blend == Priority(o.flags) &&
      r[j].color == (if PaletteNum(o.flags) then s.regs.objPalette1 else s.regs.objPalette0)[r[j].index]
  {
    var rt := SpriteRow(s.regs.lcdControl, s.beam.y, o.yPos, o.tileNum, YFlip(o.flags));
    var palette := if PaletteNum(o.flags) then s.regs.objPalette1 else s.regs.objPalette0;
    var colors := FromIndexes(TileToIndexes(s.vram, rt.1, rt.0, false), Priority(o.flags), palette);
    if XFlip(o.flags) then Reverse(colors) else colors
  }

  /** The X flip mirrors a sprite row and changes nothing else. */
  lemma XFlipMirrors(s: PpuState, o: Oam)
    requires Shape(s) && !XFlip(o.flags)
    ensures OamToColors(s, o.(flags := o.flags | 0x20)) == Reverse(OamToColors(s, o))
  {
    var f := o.(flags := o.flags | 0x20);
    assert YFlip(f.flags) == YFlip(o.flags) && PaletteNum(f.flags) == PaletteNum(o.flags);
    assert Priority(f.flags) == Priority(o.flags) && XFlip(f.flags);
  }

  /** `line` with the 8 colours written from position `at`. */
  function CopyInto(line: seq<OamColor>, at: int, colors: seq<OamColor>): (r: seq<OamColor>)
    requires 0 <= at && at + 8 <= |line| && |colors| == 8
    ensures |r| == |line|
    ensures forall i :: 0 <= i < |r| ==> r[i] == if at <= i < at + 8 then colors[i - at] else line[i]
  {
    line[..at] + colors + line[at + 8..]
  }

  /** The sprite line after the sprites of `sprites`, in buffer order, have
      each been drawn at x when their X position is x + 8 (later ones on top). */
  function SpritesOver(s: PpuState, line: seq<OamColor>, sprites: seq<Oam>): (r: seq<OamColor>)
    requires Shape(s) && |line| == LineWidth
    ensures |r| == LineWidth
    ensures forall i :: 0 <= i < LineWidth && !(s.beam.x <= i < s.beam.x + 8) ==> r[i] == line[i]
    decreases |sprites|
  {
    if sprites == [] then line
    else
      var o := sprites[|sprites| - 1];
      var before := SpritesOver(s, line, sprites[..|sprites| - 1]);
      if o.xPos == s.beam.x + 8 then CopyInto(before, s.beam.x, OamToColors(s, o)) else before
  }

  /** Drawing the sprites up to entry i of the buffer is drawing those
      before it and then entry i. */
  lemma SpritesOverStep(s: PpuState, line: seq<OamColor>, sprites: seq<Oam>, i: int)
    requires Shape(s) && |line| == LineWidth && 0 <= i < |sprites|
    ensures SpritesOver(s, line, sprites[..i + 1]) ==
      var before := SpritesOver(s, line, sprites[..i]);
      if sprites[i].xPos == s.beam.x + 8 then CopyInto(before, s.beam.x, OamToColors(s, sprites[i])) else before
  {
    assert sprites[..i + 1][..i] == sprites[..i];
  }

  /** `draw_sprite`. */
  function DrawnSprites(s: PpuState): (r: PpuState)
    requires Shape(s)
    ensures Shape(r) && r == s.(oamLine := r.oamLine)
  {
    s.(oamLine := SpritesOver(s, s.oamLine, s.buffer))
  }

  /** The last buffered sprite at x + 8 decides the 8 sprite pixels from x. */
  lemma {:induction false} LastSpriteWins(s: PpuState, line: seq<OamColor>, sprites: seq<Oam>, k: int)
    requires Shape(s) && |line| == LineWidth && 0 <= k < |sprites|
    requires sprites[k].xPos == s.beam.x + 8
    requires forall j :: k < j < |sprites| ==> sprites[j].xPos != s.beam.x + 8
    ensures SpritesOver(s, line, sprites)[s.beam.x..s.beam.x + 8] == OamToColors(s, sprites[k])
    decreases |sprites|
  {
    if k < |sprites| - 1 {
      var p := sprites[..|sprites| - 1];
      assert p[k] == sprites[k];
      forall j | k < j < |p| ensures p[j].xPos != s.beam.x + 8 {
        assert p[j] == sprites[j];
      }
      LastSpriteWins(s, line, p, k);
    }
  }

  /** With no buffered sprite at x + 8 the sprite line is left as it was. */
  lemma {:induction false} NoSpriteNoChange(s: PpuState, line: seq<OamColor>, sprites: seq<Oam>)
    requires Shape(s) && |line| == LineWidth
    requires forall j :: 0 <= j < |sprites| ==> sprites[j].xPos != s.beam.x + 8
    ensures SpritesOver(s, line, sprites) == line
    decreases |sprites|
  {
    if sprites != [] {
      var p := sprites[..|sprites| - 1];
      forall j | 0 <= j < |p| ensures p[j].xPos != s.beam.x + 8 {
        assert p[j] == sprites[j];
      }
      NoSpriteNoChange(s, line, p);
    }
  }

  /** The shade `put_pixels` writes: the sprite's when it is opaque (index
      not 0) and either in front or over background colour 0, otherwise the
      background's through BGP. */
  function PixelShade(bgIndex: ColorIndex, bgPalette: Palette, sprite: OamColor): (c: Shade)
  {
    if (!sprite.blend || bgIndex == 0) && sprite.index != 0 then sprite.color else bgPalette[bgIndex]
  }

  /** `put_pixels(px)`: writes pixel (px, y) and nothing else. */
  function PixelPut(s: PpuState, px: int): (r: PpuState)
    requires Shape(s) && 0 <= px < VisibleWidth
    ensures Shape(r) && r == s.(pixels := r.pixels)
    ensures forall i :: 0 <= i < |r.pixels| && i != s.beam.y * VisibleWidth + px ==> r.pixels[i] == s.pixels[i]
    ensures r.pixels[s.beam.y * VisibleWidth + px] == PixelShade(s.bgLine[px], s.regs.bgPalette, s.oamLine[px])
  {
    s.(pixels := s.pixels[s.beam.y * VisibleWidth + px := PixelShade(s.bgLine[px], s.regs.bgPalette, s.oamLine[px])])
  }

  /** The sprite chooses the pixel exactly when it is opaque and either has
      priority or lies over background colour 0. */
  lemma SpriteChoosesPixel(bgIndex: ColorIndex, bgPalette: Palette, sprite: OamColor)
    ensures sprite.index != 0 && (!sprite.blend || bgIndex == 0) ==> PixelShade(bgIndex, bgPalette, sprite) == sprite.color
    ensures sprite.index == 0 || (sprite.blend && bgIndex != 0) ==> PixelShade(bgIndex, bgPalette, sprite) == bgPalette[bgIndex]
  {
  }

  /** The condition on which `scan_oam` buffers an entry. */
  predicate Visible(s: PpuState, o: Oam) {
    var size := if SpriteSize(s.regs.lcdControl) then 16 else 8;
    o.xPos > 8 && s.beam.lines + 16 < o.yPos + size && o.yPos <= s.beam.lines + 16
  }

  /** `scan_oam(i)`: entry i is appended when it covers the current line, has
      X above 8, and fewer than 10 sprites are buffered. */
  function Scanned(s: PpuState, i: int): (r: PpuState)
    requires Shape(s) && 0 <= i < OamCount
    ensures Shape(r) && r == s.(buffer := r.buffer)
    ensures r.buffer == if Visible(s, s.oam[i]) && |s.buffer| < 10 then s.buffer + [s.oam[i]] else s.buffer
  {
    if Visible(s, s.oam[i]) && |s.buffer| < 10 then s.(buffer := s.buffer + [s.oam[i]]) else s
  }

  /** The drawing phase in Drawing mode: window, then background (both
      behind LCDC bit 0), then sprites. */
  function DrawnLine(s: PpuState): (r: PpuState)
    requires Shape(s)
    ensures Shape(r)
    ensures r == s.(bgLine := r.bgLine, oamLine := r.oamLine, curBg := r.curBg, drawingWindow := r.drawingWindow)
    ensures WindowDisplayEnable(s.regs.lcdControl) && BgWinEnable(s.regs.lcdControl) && WindowStarts(s) ==> r.drawingWindow
  {
    var lcdc := s.regs.lcdControl;
    var s1 := if BgWinEnable(lcdc)
      then DrawnBg(if WindowDisplayEnable(lcdc) then DrawnWindow(s) else s)
      else s;
    if SpriteEnable(lcdc) then DrawnSprites(s1) else s1
  }

  /** LCDC bit 1 off leaves the sprite line alone, and bit 0 off leaves the
      background line and the window latch alone. */
  lemma DrawnLineEnables(s: PpuState)
    requires Shape(s)
    ensures !SpriteEnable(s.regs.lcdControl) ==> DrawnLine(s).oamLine == s.oamLine
    ensures !BgWinEnable(s.regs.lcdControl) ==>
      DrawnLine(s).bgLine == s.bgLine && DrawnLine(s).drawingWindow == s.drawingWindow
  {
  }

  /** `draw_bg` at a fetch puts into pixel x the background map entry that
      LCDC bit 3 selects, at (x + SCX, y + SCY) wrapping at 256. */
  lemma BgPixel(s: PpuState)
    requires Shape(s) && !s.drawingWindow
    requires (s.beam.x + s.regs.scrollX) % 256 % 8 == 0 || s.beam.x == 0
    ensures var cx := (s.beam.x + s.regs.scrollX) % 256;
      var cy := (s.beam.y + s.regs.scrollY) % 256;
      DrawnBg(s).bgLine[s.beam.x] ==
      TileMapToColors(s.vram, s.regs.lcdControl, cx / 8, cy / 8, cy % 8, BgTileMapSelect(s.regs.lcdControl))[cx % 8]
  {
    FetchedPixel(s, (s.beam.x + s.regs.scrollX) % 256, (s.beam.y + s.regs.scrollY) % 256,
                 BgTileMapSelect(s.regs.lcdControl));
  }

  /** `draw_window` at a fetch, once the window has started, puts into
      pixel x the window map entry that LCDC bit 6 selects, at (x - WX, y - WY)
      wrapping at 256. */
  lemma WindowPixel(s: PpuState)
    requires Shape(s) && (s.drawingWindow || WindowStarts(s))
    requires (s.beam.x - s.regs.windowX) % 256 % 8 == 0 || s.beam.x == 0
    ensures var cx := (s.beam.x - s.regs.windowX) % 256;
      var cy := (s.beam.y - s.regs.windowY) % 256;
      DrawnWindow(s).bgLine[s.beam.x] ==
      TileMapToColors(s.vram, s.regs.lcdControl, cx / 8, cy / 8, cy % 8, WindowTileMapSelect(s.regs.lcdControl))[cx % 8]
  {
    FetchedPixel(s.(drawingWindow := true), (s.beam.x - s.regs.windowX) % 256,
                 (s.beam.y - s.regs.windowY) % 256, WindowTileMapSelect(s.regs.lcdControl));
  }

  /** The drawing half of `tick`, dispatched on the mode. */
  function Render(s: PpuState): (r: PpuState)
    requires Inv(s)
    ensures Inv(r)
    ensures r == s.(bgLine := r.bgLine, oamLine := r.oamLine, curBg := r.curBg,
                    drawingWindow := r.drawingWindow, buffer := r.buffer, pixels := r.pixels)
    ensures s.beam.mode != Drawing ==> r.drawingWindow == s.drawingWindow
    ensures s.beam.mode != OamScan ==> r.buffer == s.buffer
  {
    match s.beam.mode
    case Drawing => DrawnLine(s)
    case HBlank => if s.beam.cycles < 400 then PixelPut(s, s.beam.cycles - 240) else s
    case OamScan => if s.beam.cycles % 2 == 0 then Scanned(s, s.beam.cycles / 2) else s
    case VBlank => s
  }

  /** `tick`. */
  function Ticked(s: PpuState): (r: PpuState)
    requires Inv(s)
    ensures Inv(r)
    ensures r.beam == NextBeam(s.beam)
  {
    Render(Advance(s))
  }

  /** `n` ticks in a row. */
  function Ticks(s: PpuState, n: nat): (r: PpuState)
    requires Inv(s)
    ensures Inv(r)
  {
    if n == 0 then s else Ticked(Ticks(s, n - 1))
  }

  function Dot(s: PpuState): int {
    BeamDot(s.beam)
  }

  // ---- properties of the PPU model ----

  /** One tick moves the beam one dot on, modulo a frame of 456 x 154 dots. */
  lemma TickMovesOneDot(s: PpuState)
    requires Inv(s)
    ensures Dot(Ticked(s)) == (Dot(s) + 1) % FrameDots
  {
    NextBeamMovesOneDot(s.beam);
  }

  /** After n ticks the beam is n dots on, modulo a frame. */
  lemma {:induction false} TicksMoveDots(s: PpuState, n: nat)
    requires Inv(s)
    ensures Dot(Ticks(s, n)) == (Dot(s) + n) % FrameDots
  {
    if n > 0 {
      var a := Ticks(s, n - 1);
      var e := Dot(s) + n - 1;
      TicksMoveDots(s, n - 1);
      TickMovesOneDot(a);
      var d := Dot(a);
      assert d == e % FrameDots;
      ModSucc(e);
      assert Dot(Ticks(s, n)) == (d + 1) % FrameDots;
    }
  }

  /** 456 x 154 ticks bring the beam back to the dot where it started; in
      particular from (dot 0, line 0) back to (0, 0). */
  lemma FrameReturns(s: PpuState)
    requires Inv(s)
    ensures Ticks(s, FrameDots).beam.cycles == s.beam.cycles
    ensures Ticks(s, FrameDots).beam.lines == s.beam.lines
  {
    WholeFramesReturn(s, FrameDots);
  }

  /** What FrameReturns states, for any number of ticks that is the frame length. */
  lemma WholeFramesReturn(s: PpuState, n: nat)
    requires Inv(s) && n == FrameDots
    ensures Ticks(s, n).beam.cycles == s.beam.cycles
    ensures Ticks(s, n).beam.lines == s.beam.lines
  {
    TicksMoveDots(s, n);
    var t := Ticks(s, n);
    ModFrame(Dot(s));
    BeamDotDetermines(t.beam, s.beam);
  }

  /** After a tick, visible lines are in the mode their dot gives and lines
      144-153 in VBlank; the VBlank request is raised exactly on line 144
      and never cleared by the PPU. */
  lemma TickModes(s: PpuState)
    requires Inv(s)
    ensures Ticked(s).beam.lines < 144 ==> Ticked(s).beam.mode == ModeOf(Ticked(s).beam.cycles)
    ensures Ticked(s).beam.lines >= 144 ==> Ticked(s).beam.mode == VBlank
    ensures Ticked(s).intVBlank == (s.intVBlank || Ticked(s).beam.lines == 144)
  {
    NextBeamMode(s.beam);
    assert Ticked(s).intVBlank == Advance(s).intVBlank;
  }

  /** The sprite buffer is emptied at the start of every line and never
      holds more than 10 entries. */
  lemma TickBuffer(s: PpuState)
    requires Inv(s)
    ensures |Ticked(s).buffer| <= 10
    ensures Ticked(s).beam.cycles == 0 ==> Advance(s).buffer == []
    ensures Ticked(s).beam.cycles == 0 ==> |Ticked(s).buffer| <= 1
  {
    var a := Advance(s);
    if a.beam.cycles == 0 {
      assert a.buffer == [];
    }
  }

  /** `drawing_window` is only cleared by entering HBlank of a visible line,
      and once set the background fetch is skipped. */
  lemma WindowLatch(s: PpuState)
    requires Inv(s)
    ensures s.drawingWindow && !Ticked(s).drawingWindow ==> Ticked(s).beam.mode == HBlank
    ensures s.drawingWindow ==> DrawnBg(s) == s
  {
    var a := Advance(s);
    if s.drawingWindow && !a.drawingWindow {
      assert a.beam.lines < 144 && a.beam.cycles >= 240;
    }
    if a.drawingWindow && a.beam.mode == Drawing {
      assert DrawnWindow(a).drawingWindow;
      assert DrawnBg(DrawnWindow(a)).drawingWindow;
    }
  }

  // ---- memory and register access ----

  /** `read`: VRAM by the address minus 0x8000. */
  function VramRead(s: PpuState, addr: Addr): (r: bv8)
    requires |s.vram| == VramSize && 0x8000 <= addr < 0xA000
  {
    s.vram[addr - 0x8000]
  }

  function VramWritten(s: PpuState, addr: Addr, val: bv8): (r: PpuState)
    requires |s.vram| == VramSize && 0x8000 <= addr < 0xA000
  {
    s.(vram := s.vram[addr - 0x8000 := val])
  }

  /** A VRAM write is read back at its address and nowhere else. */
  lemma VramRoundTrip(s: PpuState, addr: Addr, other: Addr, val: bv8)
    requires |s.vram| == VramSize && 0x8000 <= addr < 0xA000 && 0x8000 <= other < 0xA000
    ensures VramRead(VramWritten(s, addr, val), addr) == val
    ensures other != addr ==> VramRead(VramWritten(s, addr, val), other) == VramRead(s, other)
    ensures VramWritten(s, addr, val) == s.(vram := VramWritten(s, addr, val).vram)
  {
  }

  /** Field `f` (0 Y, 1 X, 2 tile, 3 flags) of an OAM entry. */
  function OamField(o: Oam, f: int): bv8
    requires 0 <= f < 4
  {
    if f == 0 then o.yPos as bv8 else if f == 1 then o.xPos as bv8 else if f == 2 then o.tileNum else o.flags
  }

  function WithOamField(o: Oam, f: int, val: bv8): (r: Oam)
    requires 0 <= f < 4
    ensures OamField(r, f) == val
    ensures forall g :: 0 <= g < 4 && g != f ==> OamField(r, g) == OamField(o, g)
  {
    if f == 0 then o.(yPos := val as int) else if f == 1 then o.(xPos := val as int)
    else if f == 2 then o.(tileNum := val) else o.(flags := val)
  }

  /** `read_oam`: entry (addr - 0xFE00) / 4, field (addr - 0xFE00) % 4.
      Every address from 0xFE00 up names an entry below 160. */
  function OamRead(s: PpuState, addr: Addr): (r: bv8)
    requires |s.oam| == OamCount && 0xFE00 <= addr
    ensures (addr - 0xFE00) / 4 < OamCount
    ensures r == OamField(s.oam[(addr - 0xFE00) / 4], (addr - 0xFE00) % 4)
  {
    var a := addr - 0xFE00;
    OamField(s.oam[a / 4], a % 4)
  }

  function OamWritten(s: PpuState, addr: Addr, val: bv8): (r: PpuState)
    requires |s.oam| == OamCount && 0xFE00 <= addr
  {
    var a := addr - 0xFE00;
    s.(oam := s.oam[a / 4 := WithOamField(s.oam[a / 4], a % 4, val)])
  }

  /** An OAM write is read back at its address; every other byte of OAM
      reads as before. */
  lemma OamRoundTrip(s: PpuState, addr: Addr, other: Addr, val: bv8)
    requires |s.oam| == OamCount && 0xFE00 <= addr && 0xFE00 <= other
    ensures OamRead(OamWritten(s, addr, val), addr) == val
    ensures other != addr ==> OamRead(OamWritten(s, addr, val), other) == OamRead(s, other)
    ensures OamWritten(s, addr, val) == s.(oam := OamWritten(s, addr, val).oam)
  {
    var a, b := addr - 0xFE00, other - 0xFE00;
    assert a != b ==> a / 4 != b / 4 || a % 4 != b % 4;
  }

  /** The LCD registers at 0xFF40-0xFF4B. */
  datatype Register = Lcdc | Stat | Scy | Scx | Ly | Lyc | Bgp | Obp0 | Obp1 | Wy | Wx

  /** The `read_*` register accessors; LY is the line counter. */
  function RegisterRead(s: PpuState, reg: Register): (r: bv8)
    requires 0 <= s.beam.lines < 256
  {
    if reg == Ly then s.beam.lines as bv8 else StoredRead(s.regs, reg)
  }

  function StoredRead(g: Registers, reg: Register): (r: bv8)
    requires reg != Ly
  {
    match reg
    case Lcdc => g.lcdControl
    case Stat => g.lcdStatus
    case Scy => g.scrollY as bv8
    case Scx => g.scrollX as bv8
    case Lyc => g.linesCompare as bv8
    case Bgp => PaletteByte(g.bgPalette)
    case Obp0 => PaletteByte(g.objPalette0)
    case Obp1 => PaletteByte(g.objPalette1)
    case Wy => g.windowY as bv8
    case Wx => g.windowX as bv8
  }

  function StoredWritten(g: Registers, reg: Register, val: bv8): (r: Registers)
    requires reg != Ly
  {
    match reg
    case Lcdc => g.(lcdControl := val)
    case Stat => g.(lcdStatus := val)
    case Scy => g.(scrollY := val as int)
    case Scx => g.(scrollX := val as int)
    case Lyc => g.(linesCompare := val as int)
    case Bgp => g.(bgPalette := PaletteFrom(val))
    case Obp0 => g.(objPalette0 := PaletteFrom(val))
    case Obp1 => g.(objPalette1 := PaletteFrom(val))
    case Wy => g.(windowY := val as int)
    case Wx => g.(windowX := val as int)
  }

  /** The `write_*` register accessors; LY has none. */
  function RegisterWritten(s: PpuState, reg: Register, val: bv8): (r: PpuState)
    requires reg != Ly
    ensures r == s.(regs := r.regs)
  {
    s.(regs := StoredWritten(s.regs, reg, val))
  }

  /** A stored register reads back what was written, palettes through
      their byte round trip. */
  lemma StoredReadBack(g: Registers, reg: Register, val: bv8)
    requires reg != Ly
    ensures StoredRead(StoredWritten(g, reg, val), reg) == val
  {
    PaletteByteRoundTrip(val);
  }

  /** Writing one stored register leaves every other one as it was. */
  lemma StoredOthers(g: Registers, reg: Register, other: Register, val: bv8)
    requires reg != Ly && other != Ly && other != reg
    ensures StoredRead(StoredWritten(g, reg, val), other) == StoredRead(g, other)
  {
    match reg
    case Lcdc =>
    case Stat =>
    case Scy =>
    case Scx =>
    case Lyc =>
    case Bgp =>
    case Obp0 =>
    case Obp1 =>
    case Wy =>
    case Wx =>
  }

  /** A write keeps the counters, the buffers and the invariant. */
  lemma RegisterWriteKeepsInv(s: PpuState, reg: Register, val: bv8)
    requires Inv(s) && reg != Ly
    ensures Inv(RegisterWritten(s, reg, val))
  {
    var w := RegisterWritten(s, reg, val);
    assert Shape(w) && w.beam == s.beam;
  }

  /** Every writable register reads back what was written; a write changes
      no other register, LY included, and keeps the counters, the buffers
      and the invariant. */
  lemma RegisterRoundTrip(s: PpuState, reg: Register, other: Register, val: bv8)
    requires Inv(s) && reg != Ly
    ensures RegisterRead(RegisterWritten(s, reg, val), reg) == val
    ensures other != reg ==> RegisterRead(RegisterWritten(s, reg, val), other) == RegisterRead(s, other)
    ensures Inv(RegisterWritten(s, reg, val))
  {
    var w := RegisterWritten(s, reg, val);
    assert w.regs == StoredWritten(s.regs, reg, val) && w.beam == s.beam;
    StoredReadBack(s.regs, reg, val);
    if other != Ly && other != reg {
      StoredOthers(s.regs, reg, other, val);
    }
    RegisterWriteKeepsInv(s, reg, val);
  }

  // ---- the PPU object ----

  class Ppu {
    const vram: array<bv8>
    /** LCDC, STAT, SCY, SCX, LYC, WY, WX and the three palettes. */
    var regs: Registers
    /** `mode`, `cycles`, `lines`, `x` and `y`. */
    var beam: Beam
    var intVBlank: bool
    var intLcdStat: bool
    const oam: array<Oam>
    var buffer: seq<Oam>
    const bgLine: array<ColorIndex>
    const oamLine: array<OamColor>
    var curBg: seq<ColorIndex>
    var drawingWindow: bool
    const pixels: array<Shade>

    ghost function Repr(): set<object> {
      {this, vram, oam, bgLine, oamLine, pixels}
    }

    function State(): PpuState
      reads this, vram, oam, bgLine, oamLine, pixels
    {
      PpuState(vram[..], regs, beam, intVBlank, intLcdStat,
        oam[..], buffer, bgLine[..], oamLine[..], curBg, drawingWindow, pixels[..])
    }

    /** The arrays are distinct objects. */
    ghost predicate Separate() {
      vram != bgLine as object && vram != pixels as object && bgLine != pixels as object &&
      vram != oam as object && vram != oamLine as object && oam != bgLine as object &&
      oam != oamLine as object && oam != pixels as object && oamLine != bgLine as object &&
      oamLine != pixels as object
    }

    ghost predicate Valid()
      reads this, vram, oam, bgLine, oamLine, pixels
    {
      Separate() && Inv(State())
    }

    constructor ()
      ensures Valid() && fresh(Repr()) && State() == Initial
    {
      vram := new bv8[VramSize](_ => 0);
      oam := new Oam[OamCount](_ => Oam(0, 0, 0, 0));
      bgLine := new ColorIndex[LineWidth](_ => 0);
      oamLine := new OamColor[LineWidth](_ => NoColor);
      pixels := new Shade[VisibleWidth * VisibleHeight](_ => 0);
      regs := InitialRegisters;
      beam := Beam(VBlank, 0, 0, 0, 0);
      intVBlank, intLcdStat := false, false;
      buffer, curBg, drawingWindow := [], [0, 0, 0, 0, 0, 0, 0, 0], false;
      new;
      assert vram[..] == Initial.vram;
      assert oam[..] == Initial.oam;
      assert bgLine[..] == BlankLine();
      assert oamLine[..] == BlankSprites();
      assert pixels[..] == Initial.pixels;
    }

    /** Lines 374-419 of `tick`. */
    method AdvanceCounters()
      requires Valid()
      modifies this, bgLine, oamLine
      ensures Separate() && State() == Advance(old(State()))
    {
      var mode, cycles, lines, x, y := beam.mode, beam.cycles + 1, beam.lines, beam.x, beam.y;
      if cycles >= DotsPerLine {
        cycles := 0;
        lines := lines + 1;
        buffer := [];
        forall i | 0 <= i < LineWidth {
          bgLine[i] := 0;
        }
        forall i | 0 <= i < LineWidth {
          oamLine[i] := NoColor;
        }
        assert bgLine[..] == BlankLine();
        assert oamLine[..] == BlankSprites();
      }
      if lines >= LinesPerFrame {
        lines := 0;
      }
      if cycles == 80 {
        x := 0;
      }
      if lines == 0 {
        y := 0;
      }
      if lines < 144 {
        y := lines;
        if cycles < 80 {
          mode := OamScan;
        } else if cycles == 80 {
          mode := Drawing;
        } else if cycles < 240 {
          x := x + 1;
        } else {
          mode := HBlank;
          drawingWindow := false;
        }
      }
      if lines == 144 {
        mode := VBlank;
        intVBlank := true;
      }
      beam := Beam(mode, cycles, lines, x, y);
    }

    /** The shared tail of `draw_bg` and `draw_window`. */
    method Fetch(cx: int, cy: int, high: bool)
      requires Separate() && Shape(State()) && 0 <= cx < 256 && 0 <= cy < 256
      modifies this, bgLine
      ensures Separate() && State() == Fetched(old(State()), cx, cy, high)
    {
      ghost var s := State();
      if cx % 8 == 0 || beam.x == 0 {
        curBg := TileMapToColors(vram[..], regs.lcdControl, cx / 8, cy / 8, cy % 8, high);
      }
      assert curBg == FetchedRow(s, cx, cy, high);
      bgLine[beam.x] := curBg[cx % 8];
    }

    method DrawBg()
      requires Separate() && Shape(State())
      modifies this, bgLine
      ensures Separate() && State() == DrawnBg(old(State()))
    {
      if drawingWindow {
        return;
      }
      Fetch((beam.x + regs.scrollX) % 256, (beam.y + regs.scrollY) % 256, BgTileMapSelect(regs.lcdControl));
    }

    method DrawWindow()
      requires Separate() && Shape(State())
      modifies this, bgLine
      ensures Separate() && State() == DrawnWindow(old(State()))
    {
      var x, y := beam.x, beam.y;
      if !drawingWindow && !(x + 7 == regs.windowX && y >= regs.windowY) {
        return;
      }
      drawingWindow := true;
      Fetch((x - regs.windowX) % 256, (y - regs.windowY) % 256, WindowTileMapSelect(regs.lcdControl));
    }

    method DrawSprite()
      requires Separate() && Shape(State())
      modifies oamLine
      ensures Separate() && State() == DrawnSprites(old(State()))
    {
      var s := State();
      var x := beam.x;
      var i := 0;
      while i < |buffer|
        invariant 0 <= i <= |buffer|
        invariant oamLine[..] == SpritesOver(s, s.oamLine, buffer[..i])
      {
        var o := buffer[i];
        SpritesOverStep(s, s.oamLine, buffer, i);
        if o.xPos == x + 8 {
          CopySprite(x, OamToColors(s, o));
        }
        i := i + 1;
      }
      assert buffer[..i] == buffer;
    }

    /** `oam_line[x..x + 8].copy_from_slice(&colors)`. */
    method CopySprite(x: int, colors: seq<OamColor>)
      requires oamLine.Length == LineWidth && 0 <= x && x + 8 <= LineWidth && |colors| == 8
      modifies oamLine
      ensures oamLine[..] == CopyInto(old(oamLine[..]), x, colors)
    {
      forall k | 0 <= k < 8 {
        oamLine[x + k] := colors[k];
      }
    }

    /** The Drawing arm of `tick`. */
    method Draw()
      requires Separate() && Shape(State())
      modifies this, bgLine, oamLine
      ensures Separate() && State() == DrawnLine(old(State()))
    {
      if BgWinEnable(regs.lcdControl) {
        if WindowDisplayEnable(regs.lcdControl) {
          DrawWindow();
        }
        DrawBg();
      }
      if SpriteEnable(regs.lcdControl) {
        DrawSprite();
      }
    }

    method PutPixels(px: int)
      requires Separate() && Shape(State()) && 0 <= px < VisibleWidth
      modifies pixels
      ensures Separate() && State() == PixelPut(old(State()), px)
    {
      var index := bgLine[px];
      var color := regs.bgPalette[index];
      var sprite := oamLine[px];
      if (!sprite.blend || index == 0) && sprite.index != 0 {
        color := sprite.color;
      }
      pixels[beam.y * VisibleWidth + px] := color;
    }

    method ScanOam(i: int)
      requires Separate() && Shape(State()) && 0 <= i < OamCount
      modifies this
      ensures Separate() && State() == Scanned(old(State()), i)
    {
      var size := if SpriteSize(regs.lcdControl) then 16 else 8;
      var o := oam[i];
      var curY := beam.lines + 16;
      var targetY := o.yPos;
      if o.xPos > 8 && curY < targetY + size && targetY <= curY && |buffer| < 10 {
        buffer := buffer + [o];
      }
    }

    method Tick()
      requires Valid()
      modifies this, bgLine, oamLine, pixels
      ensures Valid() && State() == Ticked(old(State()))
    {
      AdvanceCounters();
      match beam.mode {
        case Drawing =>
          Draw();
        case HBlank =>
          if beam.cycles < 400 {
            PutPixels(beam.cycles - 240);
          }
        case OamScan =>
          if beam.cycles % 2 == 0 {
            ScanOam(beam.cycles / 2);
          }
        case VBlank =>
      }
    }

    /** `int_v_blank` and `int_lcd_stat`, which the bus sets and clears. */
    method SetInterrupts(vBlank: bool, lcdStat: bool)
      requires Valid()
      modifies this
      ensures Valid() && State() == old(State()).(intVBlank := vBlank, intLcdStat := lcdStat)
    {
      intVBlank, intLcdStat := vBlank, lcdStat;
    }

    function Read(addr: Addr): (r: bv8)
      requires 0x8000 <= addr < 0xA000
      reads this, vram, oam, bgLine, oamLine, pixels
      requires Valid()
      ensures r == VramRead(State(), addr)
    {
      vram[addr - 0x8000]
    }

    method Write(addr: Addr, val: bv8)
      requires Valid() && 0x8000 <= addr < 0xA000
      modifies vram
      ensures Valid() && State() == VramWritten(old(State()), addr, val)
    {
      vram[addr - 0x8000] := val;
    }

    function ReadOam(addr: Addr): (r: bv8)
      requires 0xFE00 <= addr
      reads this, vram, oam, bgLine, oamLine, pixels
      requires Valid()
      ensures r == OamRead(State(), addr)
    {
      var a := addr - 0xFE00;
      OamField(oam[a / 4], a % 4)
    }

    method WriteOam(addr: Addr, val: bv8)
      requires Valid() && 0xFE00 <= addr
      modifies oam
      ensures Valid() && State() == OamWritten(old(State()), addr, val)
    {
      var a := addr - 0xFE00;
      oam[a / 4] := WithOamField(oam[a / 4], a % 4, val);
    }

    function ReadRegister(reg: Register): (r: bv8)
      reads this, vram, oam, bgLine, oamLine, pixels
      requires Valid()
      ensures r == RegisterRead(State(), reg)
    {
      match reg
      case Lcdc => regs.lcdControl
      case Stat => regs.lcdStatus
      case Scy => regs.scrollY as bv8
      case Scx => regs.scrollX as bv8
      case Ly => beam.lines as bv8
      case Lyc => regs.linesCompare as bv8
      case Bgp => PaletteByte(regs.bgPalette)
      case Obp0 => PaletteByte(regs.objPalette0)
      case Obp1 => PaletteByte(regs.objPalette1)
      case Wy => regs.windowY as bv8
      case Wx => regs.windowX as bv8
    }

    method WriteRegister(reg: Register, val: bv8)
      requires Valid() && reg != Ly
      modifies this
      ensures Valid() && State() == RegisterWritten(old(State()), reg, val)
    {
      match reg {
        case Lcdc => regs := regs.(lcdControl := val);
        case Stat => regs := regs.(lcdStatus := val);
        case Scy => regs := regs.(scrollY := val as int);
        case Scx => regs := regs.(scrollX := val as int);
        case Lyc => regs := regs.(linesCompare := val as int);
        case Bgp => regs := regs.(bgPalette := PaletteFrom(val));
        case Obp0 => regs := regs.(objPalette0 := PaletteFrom(val));
        case Obp1 => regs := regs.(objPalette1 := PaletteFrom(val));
        case Wy => regs := regs.(windowY := val as int);
        case Wx => regs := regs.(windowX := val as int);
      }
    }
  }
}
