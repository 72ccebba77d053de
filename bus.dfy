/** The memory bus of src/bus.rs: it decodes a 16-bit address into the
    cartridge, the PPU's video and object memory, the work and high RAM,
    the joypad, timer, serial and LCD ports, the interrupt-flag byte and
    the interrupt-enable byte, and it drives the PPU and the timer. */
module Bus {
  import opened Common
  import Ppu
  import Joypad
  import Timer
  import Mbc

  // ---- the interrupt sources ----

  /** The five interrupt sources, in the bit order of `Ie` and of the
      interrupt-flag byte (0xFF0F). */
  datatype Interrupt = VBlank | LcdStat | TimerIrq | Serial | JoypadIrq

  function InterruptBit(i: Interrupt): (b: nat)
    ensures b < 5
  {
    match i
    case VBlank => 0
    case LcdStat => 1
    case TimerIrq => 2
    case Serial => 3
    case JoypadIrq => 4
  }

  /** The `Ie` bitfield getters (`v_blank`, `lcd_stat`, `timer`, `serial`, `joypad`). */
  function IeEnabled(ie: bv8, i: Interrupt): (r: bool) {
    Bit(ie, InterruptBit(i))
  }

  /** The `Ie` bitfield setters: bit `InterruptBit(i)` set to `val`. */
  function IeSet(ie: bv8, i: Interrupt, val: bool): (r: bv8) {
    var m: bv8 := 1 << InterruptBit(i);
    if val then ie | m else ie & !m
  }

  /** A setter is read back by its getter and leaves the other bits alone. */
  lemma IeSetGet(ie: bv8, i: Interrupt, j: Interrupt, val: bool)
    ensures IeEnabled(IeSet(ie, i, val), i) == val
    ensures j != i ==> IeEnabled(IeSet(ie, i, val), j) == IeEnabled(ie, j)
  {
  }

  // ---- the address map ----

  datatype TimerPort = Div | Tima | Tma | Tac

  /** The arms of the `read`/`write` matches. The work RAM is also seen
      through its echo at 0xE000-0xFDFF; both name a cell of `ram`. */
  datatype Region =
    | Cartridge
    | VideoRam
    | WorkRam(offset: nat)
    | ObjectRam
    | Unusable
    | JoypadPort
    | SerialData
    | SerialControl
    | TimerReg(port: TimerPort)
    | InterruptFlags
    | LcdReg(reg: Ppu.Register)
    | HighRam(offset: nat)
    | InterruptEnable
    | Unmapped

  function RegionOf(addr: Addr): (r: Region)
    ensures r.Cartridge? <==> addr <= 0x7FFF || 0xA000 <= addr <= 0xBFFF
    ensures r.VideoRam? <==> 0x8000 <= addr <= 0x9FFF
    ensures r.WorkRam? <==> 0xC000 <= addr <= 0xFDFF
    ensures r.WorkRam? ==> r.offset == (if addr < 0xE000 then addr - 0xC000 else addr - 0xE000)
    ensures r.ObjectRam? <==> 0xFE00 <= addr <= 0xFE9F
    ensures r.Unusable? <==> 0xFEA0 <= addr <= 0xFEFF
    ensures r.HighRam? <==> 0xFF80 <= addr <= 0xFFFE
    ensures r.HighRam? ==> r.offset == addr - 0xFF80
    ensures r.InterruptEnable? <==> addr == 0xFFFF
  {
    if addr <= 0x7FFF then Cartridge
    else if addr <= 0x9FFF then VideoRam
    else if addr <= 0xBFFF then Cartridge
    else if addr <= 0xDFFF then WorkRam(addr - 0xC000)
    else if addr <= 0xFDFF then WorkRam(addr - 0xE000)
    else if addr <= 0xFE9F then ObjectRam
    else if addr <= 0xFEFF then Unusable
    else if addr == 0xFF00 then JoypadPort
    else if addr == 0xFF01 then SerialData
    else if addr == 0xFF02 then SerialControl
    else if addr == 0xFF04 then TimerReg(Div)
    else if addr == 0xFF05 then TimerReg(Tima)
    else if addr == 0xFF06 then TimerReg(Tma)
    else if addr == 0xFF07 then TimerReg(Tac)
    else if addr == 0xFF0F then InterruptFlags
    else if addr == 0xFF40 then LcdReg(Ppu.Lcdc)
    else if addr == 0xFF41 then LcdReg(Ppu.Stat)
    else if addr == 0xFF42 then LcdReg(Ppu.Scy)
    else if addr == 0xFF43 then LcdReg(Ppu.Scx)
    else if addr == 0xFF44 then LcdReg(Ppu.Ly)
    else if addr == 0xFF45 then LcdReg(Ppu.Lyc)
    else if addr == 0xFF47 then LcdReg(Ppu.Bgp)
    else if addr == 0xFF48 then LcdReg(Ppu.Obp0)
    else if addr == 0xFF49 then LcdReg(Ppu.Obp1)
    else if addr == 0xFF4A then LcdReg(Ppu.Wy)
    else if addr == 0xFF4B then LcdReg(Ppu.Wx)
    else if 0xFF80 <= addr <= 0xFFFE then HighRam(addr - 0xFF80)
    else if addr == 0xFFFF then InterruptEnable
    else Unmapped
  }

  // ---- the bus state ----

  datatype BusState = BusState(
    ppu: Ppu.PpuState, joypad: Joypad.JoypadState, timer: Timer.TimerState,
    ram: seq<bv8>, hram: seq<bv8>, mbc: Mbc.RomOnly,
    ie: bv8, prevSerial: bool, intSerial: bool)

  const RamSize := 0x8000
  const HramSize := 0x80

  predicate Inv(s: BusState) {
    Ppu.Inv(s.ppu) && |s.ram| == RamSize && |s.hram| == HramSize && |s.mbc.rom.data| >= 0x8000
  }

  /** `Bus::new(ppu, mbc)`: zeroed RAM, default joypad and timer, IE clear. */
  function Initial(ppu: Ppu.PpuState, mbc: Mbc.RomOnly): (r: BusState)
    requires Ppu.Inv(ppu) && |mbc.rom.data| >= 0x8000
    ensures Inv(r)
  {
    BusState(ppu, Joypad.Default, Timer.Default, Ppu.Filled(RamSize, 0), Ppu.Filled(HramSize, 0),
      mbc, 0, false, false)
  }

  // ---- interrupt flags ----

  /** The `irq_*` getters: each names the flag of the component that raises it. */
  function IrqFlag(s: BusState, i: Interrupt): (r: bool) {
    match i
    case VBlank => s.ppu.intVBlank
    case LcdStat => s.ppu.intLcdStat
    case TimerIrq => s.timer.interrupt
    case Serial => s.intSerial
    case JoypadIrq => s.joypad.interrupt
  }

  /** The `set_irq_*` setters. */
  function IrqFlagSet(s: BusState, i: Interrupt, val: bool): (r: BusState) {
    match i
    case VBlank => s.(ppu := s.ppu.(intVBlank := val))
    case LcdStat => s.(ppu := s.ppu.(intLcdStat := val))
    case TimerIrq => s.(timer := s.timer.(interrupt := val))
    case Serial => s.(intSerial := val)
    case JoypadIrq => s.(joypad := s.joypad.(interrupt := val))
  }

  /** A setter is read back by its getter, changes no other flag and keeps
      the invariant. */
  lemma IrqFlagSetGet(s: BusState, i: Interrupt, j: Interrupt, val: bool)
    ensures IrqFlag(IrqFlagSet(s, i, val), i) == val
    ensures j != i ==> IrqFlag(IrqFlagSet(s, i, val), j) == IrqFlag(s, j)
    ensures Inv(s) ==> Inv(IrqFlagSet(s, i, val))
  {
  }

  /** `read_irq`: the byte "000jstlv". */
  function IrqRead(s: BusState): (r: bv8) {
    BitIf(s.joypad.interrupt, 4) | BitIf(s.intSerial, 3) | BitIf(s.timer.interrupt, 2) |
      BitIf(s.ppu.intLcdStat, 1) | BitIf(s.ppu.intVBlank, 0)
  }

  /** `write_irq`: bits 0-4 set the five flags; bits 5-7 are ignored. */
  function IrqWritten(s: BusState, val: bv8): (r: BusState) {
    s.(ppu := s.ppu.(intVBlank := Bit(val, 0), intLcdStat := Bit(val, 1)),
       timer := s.timer.(interrupt := Bit(val, 2)),
       intSerial := Bit(val, 3),
       joypad := s.joypad.(interrupt := Bit(val, 4)))
  }

  /** Bit `InterruptBit(i)` of the flag byte is the flag of source `i`, and
      bits 5-7 read 0. */
  lemma IrqReadBits(s: BusState, i: Interrupt)
    ensures Bit(IrqRead(s), InterruptBit(i)) == IrqFlag(s, i)
    ensures IrqRead(s) & 0xE0 == 0
  {
  }

  /** Reading the flag byte after writing `x` gives `x & 0x1F`. */
  lemma IrqRoundTrip(s: BusState, x: bv8)
    ensures IrqRead(IrqWritten(s, x)) == x & 0x1F
  {
  }

  /** A flag-byte write changes only the five flags. */
  lemma IrqWriteFrame(s: BusState, x: bv8, i: Interrupt)
    ensures IrqFlag(IrqWritten(s, x), i) == Bit(x, InterruptBit(i))
    ensures IrqFlagSet(IrqFlagSet(IrqFlagSet(IrqFlagSet(IrqFlagSet(s, VBlank, Bit(x, 0)),
      LcdStat, Bit(x, 1)), TimerIrq, Bit(x, 2)), Serial, Bit(x, 3)), JoypadIrq, Bit(x, 4)) == IrqWritten(s, x)
  {
  }

  // ---- serial control ----

  /** `write_serial_ctrl`: bit 7 is the transfer-start flag; its falling
      edge requests the serial interrupt. */
  function SerialCtrlWritten(s: BusState, val: bv8): (r: BusState) {
    var cur := Bit(val, 7);
    s.(intSerial := if s.prevSerial && !cur then true else s.intSerial, prevSerial := cur)
  }

  /** The serial interrupt is requested exactly on a 1-to-0 change of bit 7,
      is never cleared here, and bit 7 is always recorded. */
  lemma SerialEdge(s: BusState, val: bv8)
    ensures SerialCtrlWritten(s, val).intSerial <==> s.intSerial || (s.prevSerial && !Bit(val, 7))
    ensures SerialCtrlWritten(s, val).prevSerial == Bit(val, 7)
    ensures SerialCtrlWritten(s, val) == s.(intSerial := SerialCtrlWritten(s, val).intSerial,
      prevSerial := Bit(val, 7))
  {
  }

  // ---- byte access ----

  function TimerRead(t: Timer.TimerState, p: TimerPort): (r: bv8) {
    match p
    case Div => Timer.Div(t)
    case Tima => t.tima
    case Tma => t.tma
    case Tac => Timer.Tac(t)
  }

  function TimerWritten(t: Timer.TimerState, p: TimerPort, val: bv8): (r: Timer.TimerState) {
    match p
    case Div => Timer.DivWritten(t, val)
    case Tima => Timer.TimaWritten(t, val)
    case Tma => Timer.TmaWritten(t, val)
    case Tac => Timer.TacWritten(t, val)
  }

  /** `read`: the byte at an address. Serial ports, the unusable range and
      unmapped addresses read 0. */
  function ByteRead(s: BusState, addr: Addr): (r: bv8)
    requires Inv(s)
  {
    match RegionOf(addr)
    case Cartridge => Mbc.Read(s.mbc, addr)
    case VideoRam => Ppu.VramRead(s.ppu, addr)
    case WorkRam(o) => s.ram[o]
    case ObjectRam => Ppu.OamRead(s.ppu, addr)
    case Unusable => 0
    case JoypadPort => Joypad.P1(s.joypad)
    case SerialData => 0
    case SerialControl => 0
    case TimerReg(p) => TimerRead(s.timer, p)
    case InterruptFlags => IrqRead(s)
    case LcdReg(reg) => Ppu.RegisterRead(s.ppu, reg)
    case HighRam(o) => s.hram[o]
    case InterruptEnable => s.ie
    case Unmapped => 0
  }

  /** `write`: the state after storing a byte. The serial data port only
      logs, and LY (0xFF44) has no arm, so both change nothing. */
  function ByteWritten(s: BusState, addr: Addr, val: bv8): (r: BusState)
    requires Inv(s)
    ensures Inv(r)
  {
    match RegionOf(addr)
    case Cartridge => s.(mbc := Mbc.Write(s.mbc, addr, val))
    case VideoRam => s.(ppu := Ppu.VramWritten(s.ppu, addr, val))
    case WorkRam(o) => s.(ram := s.ram[o := val])
    case ObjectRam => s.(ppu := Ppu.OamWritten(s.ppu, addr, val))
    case Unusable => s
    case JoypadPort => s.(joypad := Joypad.P1Written(s.joypad, val))
    case SerialData => s
    case SerialControl => SerialCtrlWritten(s, val)
    case TimerReg(p) => s.(timer := TimerWritten(s.timer, p, val))
    case InterruptFlags => IrqWritten(s, val)
    case LcdReg(reg) =>
      if reg == Ppu.Ly then s
      else
        Ppu.RegisterWriteKeepsInv(s.ppu, reg, val);
        s.(ppu := Ppu.RegisterWritten(s.ppu, reg, val))
    case HighRam(o) => s.(hram := s.hram[o := val])
    case InterruptEnable => s.(ie := val)
    case Unmapped => s
  }

  /** `read_word`: little-endian, the high byte at `addr + 1` (wrapping). */
  function WordRead(s: BusState, addr: Addr): (r: bv16)
    requires Inv(s)
  {
    WordOf(ByteRead(s, addr), ByteRead(s, (addr + 1) % 0x1_0000))
  }

  /** `((high as u16) << 8) | (low as u16)`. */
  function WordOf(low: bv8, high: bv8): (w: bv16)
    ensures w & 0xFF == low as bv16 && w >> 8 == high as bv16
  {
    ((high as bv16) << 8) | (low as bv16)
  }

  /** `(val & 0x00FF) as u8`: the word's value modulo 256. */
  function LowByte(val: bv16): (b: bv8)
    ensures b as bv16 == val % 256
  {
    (val & 0xFF) as bv8
  }

  /** `(val >> 8) as u8`: the word's value divided by 256. */
  function HighByte(val: bv16): (b: bv8)
    ensures b as bv16 == val / 256
  {
    (val >> 8) as bv8
  }

  /** Splitting a word into its bytes and joining them gives it back. */
  lemma SplitJoin(val: bv16)
    ensures WordOf(LowByte(val), HighByte(val)) == val
  {
  }

  /** `write_word`: the low byte at `addr`, then the high byte at `addr + 1`. */
  function WordWritten(s: BusState, addr: Addr, val: bv16): (r: BusState)
    requires Inv(s)
    ensures Inv(r)
  {
    ByteWritten(ByteWritten(s, addr, LowByte(val)), (addr + 1) % 0x1_0000, HighByte(val))
  }

  /** The regions of the I/O ports at 0xFF00-0xFF4B. */
  predicate IsPort(r: Region) {
    r.JoypadPort? || r.SerialData? || r.SerialControl? || r.TimerReg? || r.InterruptFlags? || r.LcdReg?
  }

  // ---- properties of the address map ----

  /** The addresses whose byte is plain storage: work RAM, its echo, high RAM and IE. */
  predicate Storage(addr: Addr) {
    RegionOf(addr).WorkRam? || RegionOf(addr).HighRam? || RegionOf(addr).InterruptEnable?
  }

  /** The addresses that read back the byte just stored there. */
  predicate Writable(addr: Addr) {
    match RegionOf(addr)
    case VideoRam => true
    case WorkRam(_) => true
    case ObjectRam => true
    case TimerReg(p) => p == Tima || p == Tma
    case LcdReg(reg) => reg != Ppu.Ly
    case HighRam(_) => true
    case InterruptEnable => true
    case _ => false
  }

  /** Every writable address reads back what was written. */
  lemma ReadAfterWrite(s: BusState, addr: Addr, val: bv8)
    requires Inv(s) && Writable(addr)
    ensures ByteRead(ByteWritten(s, addr, val), addr) == val
  {
    match RegionOf(addr)
    case VideoRam => Ppu.VramRoundTrip(s.ppu, addr, addr, val);
    case ObjectRam => Ppu.OamRoundTrip(s.ppu, addr, addr, val);
    case LcdReg(reg) => Ppu.RegisterRoundTrip(s.ppu, reg, reg, val);
    case TimerReg(p) => Timer.TimaTmaWrites(s.timer, val);
    case _ =>
  }

  /** A work-RAM byte is also read through its echo 0x2000 higher. */
  lemma EchoMirrors(s: BusState, addr: Addr)
    requires Inv(s) && 0xE000 <= addr <= 0xFDFF
    ensures ByteRead(s, addr) == ByteRead(s, addr - 0x2000)
  {
  }

  /** A write through the echo is seen at the work-RAM address and back. */
  lemma EchoWrites(s: BusState, addr: Addr, val: bv8)
    requires Inv(s) && 0xC000 <= addr <= 0xDDFF
    ensures ByteRead(ByteWritten(s, addr + 0x2000, val), addr) == val
    ensures ByteRead(ByteWritten(s, addr, val), addr + 0x2000) == val
  {
  }

  /** Storing a byte of plain storage leaves every other storage byte alone,
      except the echo of the same cell. */
  lemma StorageFrame(s: BusState, addr: Addr, other: Addr, val: bv8)
    requires Inv(s) && Storage(addr) && Storage(other)
    requires other != addr && other != addr + 0x2000 && other != addr - 0x2000
    ensures ByteRead(ByteWritten(s, addr, val), other) == ByteRead(s, other)
  {
  }

  /** A byte of plain storage is all a write to it changes. */
  lemma StorageWriteFrame(s: BusState, addr: Addr, val: bv8)
    requires Inv(s) && Storage(addr)
    ensures ByteWritten(s, addr, val) ==
      s.(ram := ByteWritten(s, addr, val).ram, hram := ByteWritten(s, addr, val).hram,
        ie := ByteWritten(s, addr, val).ie)
  {
  }

  /** The unusable range, the serial data port, LY and every unlisted
      address ignore writes. */
  lemma IgnoredWrites(s: BusState, addr: Addr, val: bv8)
    requires Inv(s)
    requires RegionOf(addr) in {Unusable, SerialData, Unmapped, LcdReg(Ppu.Ly)}
    ensures ByteWritten(s, addr, val) == s
  {
  }

  /** The unusable range, both serial ports and every unlisted address read 0. */
  lemma ZeroReads(s: BusState, addr: Addr)
    requires Inv(s)
    requires RegionOf(addr) in {Unusable, SerialData, SerialControl, Unmapped}
    ensures ByteRead(s, addr) == 0
  {
  }

  /** LY at 0xFF44 is the PPU's line counter and the bus cannot change it. */
  lemma LyReadOnly(s: BusState, val: bv8)
    requires Inv(s)
    ensures ByteRead(s, 0xFF44) == s.ppu.beam.lines as bv8
    ensures ByteWritten(s, 0xFF44, val) == s
  {
  }

  /** A word stored at two bytes of plain storage is read back. */
  lemma WordRoundTrip(s: BusState, addr: Addr, val: bv16)
    requires Inv(s) && addr < 0xFFFF && Storage(addr) && Storage(addr + 1)
    ensures WordRead(WordWritten(s, addr, val), addr) == val
  {
    var lo, hi := LowByte(val), HighByte(val);
    var s1 := ByteWritten(s, addr, lo);
    ReadAfterWrite(s, addr, lo);
    ReadAfterWrite(s1, addr + 1, hi);
    StorageFrame(s1, addr + 1, addr, hi);
    var next := (addr + 1) % 0x1_0000;
    assert next == addr + 1;
    var s2 := ByteWritten(s1, next, hi);
    assert s2 == WordWritten(s, addr, val);
    assert ByteRead(s2, addr) == lo;
    assert ByteRead(s2, next) == hi;
    SplitJoin(val);
    assert WordRead(s2, addr) == WordOf(lo, hi);
  }

  // ---- the tick fan-out ----

  /** `tick`: two PPU dots and four timer ticks; nothing else changes. */
  function Ticked(s: BusState): (r: BusState)
    requires Inv(s)
    ensures Inv(r)
  {
    var t := s.timer;
    s.(ppu := Ppu.Ticked(Ppu.Ticked(s.ppu)),
       timer := Timer.Ticked(Timer.Ticked(Timer.Ticked(Timer.Ticked(t)))))
  }

  /** A bus tick is two PPU ticks and four timer ticks. */
  lemma {:induction false} TickFanOut(s: BusState)
    requires Inv(s)
    ensures Ticked(s) == s.(ppu := Ppu.Ticks(s.ppu, 2), timer := Timer.Ticks(s.timer, 4))
  {
    assert Ppu.Ticks(s.ppu, 1) == Ppu.Ticked(s.ppu);
    Timer.FourTicks(s.timer);
  }

  /** A bus tick moves the beam two dots on. */
  lemma TickDots(s: BusState)
    requires Inv(s)
    ensures Ppu.Dot(Ticked(s).ppu) == (Ppu.Dot(s.ppu) + 2) % Ppu.FrameDots
  {
    TickFanOut(s);
    Ppu.TicksMoveDots(s.ppu, 2);
  }

  /** A bus tick moves the timer counter four on. */
  lemma TickCounter(s: BusState)
    requires Inv(s)
    ensures Ticked(s).timer.counter == (s.timer.counter + 4) % 0x1_0000
  {
    Timer.FourTicks(s.timer);
    Timer.TicksCounter(s.timer, 4);
  }

  // ---- the bus object ----

  class Bus {
    const ppu: Ppu.Ppu
    const joypad: Joypad.Joypad
    const timer: Timer.Timer
    const ram: array<bv8>
    const hram: array<bv8>
    var mbc: Mbc.RomOnly
    /** `ie`: the interrupt-enable byte at 0xFFFF. */
    var ie: bv8
    var prevSerial: bool
    var intSerial: bool

    ghost function Repr(): set<object> {
      {this, joypad, timer, ram, hram} + ppu.Repr()
    }

    function State(): BusState
      reads this, ppu, ppu.vram, ppu.oam, ppu.bgLine, ppu.oamLine, ppu.pixels, joypad, timer, ram, hram
    {
      BusState(ppu.State(), joypad.State(), timer.State(), ram[..], hram[..], mbc, ie, prevSerial, intSerial)
    }

    ghost predicate Valid()
      reads this, ppu, ppu.vram, ppu.oam, ppu.bgLine, ppu.oamLine, ppu.pixels, joypad, timer, ram, hram
    {
      ppu.Valid() && ram != hram && ram !in ppu.Repr() && hram !in ppu.Repr() &&
      ram.Length == RamSize && hram.Length == HramSize && |mbc.rom.data| >= 0x8000
    }

    /** `Bus::new`: takes the PPU and the cartridge controller. */
    constructor (p: Ppu.Ppu, m: Mbc.RomOnly)
      requires p.Valid() && |m.rom.data| >= 0x8000
      ensures Valid() && ppu == p && fresh(Repr() - p.Repr())
      ensures State() == Initial(old(p.State()), m)
    {
      ppu, mbc := p, m;
      joypad := new Joypad.Joypad();
      timer := new Timer.Timer();
      ram := new bv8[RamSize](_ => 0);
      hram := new bv8[HramSize](_ => 0);
      ie, prevSerial, intSerial := 0, false, false;
    }

    method Tick()
      requires Valid()
      modifies Repr()
      ensures Valid() && State() == Ticked(old(State()))
    {
      ppu.Tick();
      ppu.Tick();
      TickTimer();
    }

    /** The four timer ticks of `tick`. */
    method TickTimer()
      requires Valid()
      modifies timer
      ensures Valid()
      ensures State() == old(State()).(timer := Timer.Ticked(Timer.Ticked(Timer.Ticked(Timer.Ticked(old(State()).timer)))))
    {
      timer.Tick();
      timer.Tick();
      timer.Tick();
      timer.Tick();
    }

    /** The `irq_*` getters. */
    function Irq(i: Interrupt): (r: bool)
      reads this, ppu, joypad, timer
    {
      match i
      case VBlank => ppu.intVBlank
      case LcdStat => ppu.intLcdStat
      case TimerIrq => timer.interrupt
      case Serial => intSerial
      case JoypadIrq => joypad.interrupt
    }

    lemma IrqIsFlag(i: Interrupt)
      ensures Irq(i) == IrqFlag(State(), i)
    {
    }

    /** The `set_irq_*` setters. */
    method SetIrq(i: Interrupt, val: bool)
      requires Valid()
      modifies this, ppu, joypad, timer
      ensures Valid()
      ensures State() == IrqFlagSet(old(State()), i, val)
    {
      match i {
        case VBlank => ppu.SetInterrupts(val, ppu.intLcdStat);
        case LcdStat => ppu.SetInterrupts(ppu.intVBlank, val);
        case TimerIrq => timer.SetInterrupt(val);
        case Serial => intSerial := val;
        case JoypadIrq => joypad.SetInterrupt(val);
      }
    }

    function ReadIrq(): (r: bv8)
      reads this, ppu, joypad, timer
      ensures r == IrqRead(State())
    {
      BitIf(joypad.interrupt, 4) | BitIf(intSerial, 3) | BitIf(timer.interrupt, 2) |
        BitIf(ppu.intLcdStat, 1) | BitIf(ppu.intVBlank, 0)
    }

    method WriteIrq(val: bv8)
      requires Valid()
      modifies this, ppu, joypad, timer
      ensures Valid() && State() == IrqWritten(old(State()), val)
    {
      ppu.SetInterrupts(Bit(val, 0), Bit(val, 1));
      timer.SetInterrupt(Bit(val, 2));
      intSerial := Bit(val, 3);
      joypad.SetInterrupt(Bit(val, 4));
    }

    method WriteSerialCtrl(val: bv8)
      requires Valid()
      modifies this
      ensures Valid() && State() == SerialCtrlWritten(old(State()), val)
    {
      var cur := Bit(val, 7);
      if prevSerial && !cur {
        intSerial := true;
      }
      prevSerial := cur;
    }

    function Read(addr: Addr): (r: bv8)
      reads this, ppu, ppu.vram, ppu.oam, ppu.bgLine, ppu.oamLine, ppu.pixels, joypad, timer, ram, hram
      requires Valid()
      ensures r == ByteRead(State(), addr)
    {
      match RegionOf(addr)
      case Cartridge => Mbc.Read(mbc, addr)
      case VideoRam => ppu.Read(addr)
      case WorkRam(o) => ram[o]
      case ObjectRam => ppu.ReadOam(addr)
      case Unusable => 0
      case JoypadPort => joypad.Read()
      case SerialData => 0
      case SerialControl => 0
      case TimerReg(p) =>
        (match p
         case Div => timer.ReadDiv()
         case Tima => timer.ReadTima()
         case Tma => timer.ReadTma()
         case Tac => timer.ReadTac())
      case InterruptFlags => ReadIrq()
      case LcdReg(reg) => ppu.ReadRegister(reg)
      case HighRam(o) => hram[o]
      case InterruptEnable => ie
      case Unmapped => 0
    }

    function ReadWord(addr: Addr): (r: bv16)
      reads this, ppu, ppu.vram, ppu.oam, ppu.bgLine, ppu.oamLine, ppu.pixels, joypad, timer, ram, hram
      requires Valid()
      ensures r == WordRead(State(), addr)
    {
      WordOf(Read(addr), Read((addr + 1) % 0x1_0000))
    }

    method Write(addr: Addr, val: bv8)
      requires Valid()
      modifies Repr()
      ensures Valid() && State() == ByteWritten(old(State()), addr, val)
    {
      match RegionOf(addr) {
        case Cartridge => mbc := Mbc.Write(mbc, addr, val);
        case VideoRam => ppu.Write(addr, val);
        case WorkRam(o) => ram[o] := val;
        case ObjectRam => ppu.WriteOam(addr, val);
        case Unusable =>
        case HighRam(o) => hram[o] := val;
        case InterruptEnable => ie := val;
        case Unmapped =>
        case _ => WritePort(addr, val);
      }
    }

    /** The arms of `write` for the ports at 0xFF00-0xFF4B. */
    method WritePort(addr: Addr, val: bv8)
      requires Valid() && IsPort(RegionOf(addr))
      modifies this, ppu, joypad, timer
      ensures Valid() && State() == ByteWritten(old(State()), addr, val)
    {
      match RegionOf(addr) {
        case JoypadPort => joypad.Write(val);
        case SerialData =>
        case SerialControl => WriteSerialCtrl(val);
        case TimerReg(p) => WriteTimer(p, val);
        case InterruptFlags => WriteIrq(val);
        case LcdReg(reg) =>
          if reg != Ppu.Ly {
            ppu.WriteRegister(reg, val);
          }
      }
    }

    /** `write_div`, `write_tima`, `write_tma` and `write_tac`. */
    method WriteTimer(p: TimerPort, val: bv8)
      requires Valid()
      modifies timer
      ensures Valid() && State() == old(State()).(timer := TimerWritten(old(State()).timer, p, val))
    {
      match p {
        case Div => timer.WriteDiv(val);
        case Tima => timer.WriteTima(val);
        case Tma => timer.WriteTma(val);
        case Tac => timer.WriteTac(val);
      }
    }

    method WriteWord(addr: Addr, val: bv16)
      requires Valid()
      modifies Repr()
      ensures Valid() && State() == WordWritten(old(State()), addr, val)
    {
      Write(addr, LowByte(val));
      Write((addr + 1) % 0x1_0000, HighByte(val));
    }
  }
}
