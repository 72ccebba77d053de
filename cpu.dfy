/** The partial CPU of src/cpu.rs: the register pairs with their 8-bit
    accessors as written, the flag helpers, operand-slot decoding, the
    fetch-advance-execute `tick`, and the five implemented instructions NOP,
    LD r,imm8, LD r,r, INC r and JP a16. */
module Cpu {
  import opened Common
  import Bus

  // ---- the opcode enums, as sets of bytes ----

  /** The twelve bytes that are not an `Opecode` value. */
  predicate Unused(b: bv8) {
    b == 0xD3 || b == 0xDB || b == 0xDD || b == 0xDE || b == 0xE3 || b == 0xE4 ||
    b == 0xEB || b == 0xEC || b == 0xED || b == 0xF4 || b == 0xFC || b == 0xFD
  }

  /** `Opecode::from_u8(b)` is `Some`: the enum lists the other 244 bytes. */
  predicate IsOpcode(b: bv8) {
    !Unused(b)
  }

  /** `PrefixedOpecode::from_u8(b)` is `Some`: the rotates, shifts and swaps
      0x00-0x3F, and only the bit-0 forms of BIT (0x40-0x47), RES (0x80-0x87)
      and SET (0xC0-0xC7). The CPU never decodes a prefixed opcode. */
  predicate IsPrefixedOpcode(b: bv8) {
    b < 0x48 || 0x80 <= b < 0x88 || 0xC0 <= b < 0xC8
  }

  // ---- operand slots and the handler arms of `do_mnemonic` ----

  /** `r8_index_left`: bits 3-5 of the opcode. */
  function LeftSlot(op: bv8): (i: bv8)
    ensures i < 8
  {
    (op & 0x38) >> 3
  }

  /** `r8_index_right`: bits 0-2 of the opcode. */
  function RightSlot(op: bv8): (i: bv8)
    ensures i < 8
  {
    op & 0x07
  }

  /** The opcodes of the `load_8_r_im8` arm. */
  predicate LoadImmOp(b: bv8) {
    b == 0x3E || b == 0x06 || b == 0x0E || b == 0x16 || b == 0x1E || b == 0x26 || b == 0x2E || b == 0x36
  }

  /** The opcodes of the `load_8_r_r` arm: no load from A other than LD A,A. */
  predicate LoadRegOp(b: bv8) {
    b == 0x7F || b == 0x78 || b == 0x79 || b == 0x7A || b == 0x7B || b == 0x7C || b == 0x7D || b == 0x7E ||
    b == 0x40 || b == 0x41 || b == 0x42 || b == 0x43 || b == 0x44 || b == 0x45 || b == 0x46 ||
    b == 0x48 || b == 0x49 || b == 0x4A || b == 0x4B || b == 0x4C || b == 0x4D || b == 0x4E ||
    b == 0x50 || b == 0x51 || b == 0x52 || b == 0x53 || b == 0x54 || b == 0x55 || b == 0x56 ||
    b == 0x58 || b == 0x59 || b == 0x5A || b == 0x5B || b == 0x5C || b == 0x5D || b == 0x5E ||
    b == 0x60 || b == 0x61 || b == 0x62 || b == 0x63 || b == 0x64 || b == 0x65 || b == 0x66 ||
    b == 0x68 || b == 0x69 || b == 0x6A || b == 0x6B || b == 0x6C || b == 0x6D || b == 0x6E ||
    b == 0x70 || b == 0x71 || b == 0x72 || b == 0x73 || b == 0x74 || b == 0x75
  }

  /** The opcodes of the `inc_8_r` arm. */
  predicate IncOp(b: bv8) {
    b == 0x3C || b == 0x04 || b == 0x0C || b == 0x14 || b == 0x1C || b == 0x24 || b == 0x2C || b == 0x34
  }

  const NopOp: bv8 := 0x00
  const JumpOp: bv8 := 0xC3

  /** What `do_mnemonic` runs for an opcode, with its decoded slots. */
  datatype Handler =
    | NopArm
    | LoadImmArm(dst: bv8)
    | LoadRegArm(dst: bv8, src: bv8)
    | IncArm(dst: bv8)
    | JumpArm
    | NoArm

  /** The arm of `do_mnemonic` an opcode takes, by its bit pattern; the
      lemmas below show that each pattern is exactly the arm's opcode list. */
  function Decode(op: bv8): (h: Handler)
    ensures h.LoadImmArm? ==> h.dst == LeftSlot(op)
    ensures h.LoadRegArm? ==> h.dst == LeftSlot(op) && h.src == RightSlot(op)
    ensures h.IncArm? ==> h.dst == LeftSlot(op)
  {
    if op == NopOp then NopArm
    else if op & 0xC7 == 0x06 then LoadImmArm(LeftSlot(op))
    else if op & 0xC0 == 0x40 && op != 0x76 && (op & 0x07 != 0x07 || op == 0x7F) then LoadRegArm(LeftSlot(op), RightSlot(op))
    else if op & 0xC7 == 0x04 then IncArm(LeftSlot(op))
    else if op == JumpOp then JumpArm
    else NoArm
  }

  /** Every opcode with a handler is an `Opecode` value. */
  lemma HandledAreOpcodes(op: bv8)
    requires !Decode(op).NoArm?
    ensures IsOpcode(op)
  {
    assert op <= JumpOp;
  }

  /** LD r,imm8 and INC r are the opcodes `00 rrr 110` and `00 rrr 100`. */
  lemma ImmAndIncPatterns(op: bv8)
    ensures LoadImmOp(op) <==> op & 0xC7 == 0x06
    ensures IncOp(op) <==> op & 0xC7 == 0x04
  {
  }

  /** The LD r,r arm is `01 ddd sss` without HALT (0x76) and without the
      loads whose source slot is A (7), apart from LD A,A. */
  lemma LoadRegPattern(op: bv8)
    ensures LoadRegOp(op) <==> op & 0xC0 == 0x40 && op != 0x76 && (op & 0x07 != 0x07 || op == 0x7F)
  {
  }

  // ---- register pairs and their 8-bit halves, as written ----

  /** `a()`, `b()`, `d()`, `h()`: `((pair & 0xF0) >> 8) as u8`, which is
      always 0. */
  function HighOf(pair: bv16): (r: bv8)
    ensures r == 0
  {
    ((pair & 0xF0) >> 8) as bv8
  }

  /** `f()`, `c()`, `e()`, `l()`: the low nibble of the pair. */
  function LowOf(pair: bv16): (r: bv8)
    ensures r < 0x10
  {
    (pair & 0x0F) as bv8
  }

  /** `set_a`, `set_b`, `set_d`, `set_h`: keep the low nibble, put `val` in
      the high byte. */
  function WithHigh(pair: bv16, val: bv8): (r: bv16)
    ensures r >> 8 == val as bv16
    ensures r & 0xFF == pair & 0x0F
  {
    (pair & 0x0F) | ((val as bv16) << 8)
  }

  /** `set_f`, `set_c`, `set_e`, `set_l`: keep bits 4-7, clear the high
      byte, OR in `val`. */
  function WithLow(pair: bv16, val: bv8): (r: bv16)
    ensures r >> 8 == 0
    ensures r & 0xFF == (pair & 0xF0) | val as bv16
  {
    (pair & 0xF0) | val as bv16
  }

  // ---- the flags ----

  datatype Flag = Zero | Subtract | HalfCarry | Carry

  /** The bit of `af` each flag lives in: 15, 14, 13, 12. */
  function FlagMask(f: Flag): (m: bv16)
    ensures m & 0xF000 == m && m != 0
  {
    match f
    case Zero => 0x8000
    case Subtract => 0x4000
    case HalfCarry => 0x2000
    case Carry => 0x1000
  }

  /** `flag_z`, `flag_n`, `flag_h`, `flag_c`: `(af >> 8) & bit > 0`. */
  function FlagOf(af: bv16, f: Flag): (r: bool)
    ensures r <==> af & FlagMask(f) != 0
  {
    match f
    case Zero => (af >> 8) & 0x80 != 0
    case Subtract => (af >> 8) & 0x40 != 0
    case HalfCarry => (af >> 8) & 0x20 != 0
    case Carry => (af >> 8) & 0x10 != 0
  }

  /** `flag_nz`: as written it tests bit 5 of the high byte, bit 13 of `af`. */
  function NzOf(af: bv16): (r: bool) {
    (af >> 8) & 0x20 == 0
  }

  /** `flag_nc`: bit 12 of `af` clear. */
  function NcOf(af: bv16): (r: bool) {
    (af >> 8) & 0x10 == 0
  }

  /** `set_flag_*`: `af |= ((val as u16) << 8) << k`; a flag is only ever set. */
  function FlagSet(af: bv16, f: Flag, val: bool): (r: bv16) {
    af | (((if val then 1 else 0) << 8) << (match f case Zero => 7 case Subtract => 6 case HalfCarry => 5 case Carry => 4))
  }

  /** `flag_nz` is the negation of the half-carry flag, not of the zero
      flag; `flag_nc` is the negation of the carry flag. */
  lemma NotFlags(af: bv16)
    ensures NzOf(af) == !FlagOf(af, HalfCarry)
    ensures NcOf(af) == !FlagOf(af, Carry)
  {
  }

  /** A flag setter ORs its flag in. */
  lemma FlagSetGet(af: bv16, f: Flag, val: bool)
    ensures FlagOf(FlagSet(af, f, val), f) == (FlagOf(af, f) || val)
  {
  }

  /** A flag setter leaves the other flags alone and clears no bit of `af`. */
  lemma FlagSetOther(af: bv16, f: Flag, g: Flag, val: bool)
    requires g != f
    ensures FlagOf(FlagSet(af, f, val), g) == FlagOf(af, g)
    ensures FlagSet(af, f, val) & af == af
  {
  }

  // ---- the CPU state ----

  datatype Pair = AF | BC | DE | HL

  datatype CpuState = CpuState(
    af: bv16, bc: bv16, de: bv16, hl: bv16, sp: bv16, pc: bv16, stalls: bv8, bus: Bus.BusState)

  predicate Inv(s: CpuState) {
    Bus.Inv(s.bus)
  }

  function PairOf(s: CpuState, p: Pair): (v: bv16) {
    match p
    case AF => s.af
    case BC => s.bc
    case DE => s.de
    case HL => s.hl
  }

  function WithPair(s: CpuState, p: Pair, v: bv16): (t: CpuState)
    ensures PairOf(t, p) == v
    ensures forall q :: q != p ==> PairOf(t, q) == PairOf(s, q)
    ensures t.sp == s.sp && t.pc == s.pc && t.stalls == s.stalls && t.bus == s.bus
  {
    match p
    case AF => s.(af := v)
    case BC => s.(bc := v)
    case DE => s.(de := v)
    case HL => s.(hl := v)
  }

  datatype CpuError = UnknownOpcode(byte: bv8) | Unimplemented(op: bv8) | UnknownR8(index: bv8)

  /** The state after a CPU operation and its `Result<()>`; an operation
      that fails part-way keeps the changes made before the failure. */
  datatype Step = Step(state: CpuState, outcome: Outcome<CpuError>)

  /** `Cpu::new(bus)`: every register and the stall count 0. */
  function Initial(bus: Bus.BusState): (s: CpuState)
    ensures s.bus == bus && s.pc == 0 && s.stalls == 0
    ensures s.af == 0 && s.bc == 0 && s.de == 0 && s.hl == 0 && s.sp == 0
  {
    CpuState(0, 0, 0, 0, 0, 0, 0, bus)
  }

  /** `reset`: PC at 0x0100, every other register and the stall count 0. */
  function AfterReset(s: CpuState): (r: CpuState)
    ensures r.bus == s.bus && r.pc == 0x0100 && r.stalls == 0
    ensures r.af == 0 && r.bc == 0 && r.de == 0 && r.hl == 0 && r.sp == 0
  {
    Initial(s.bus).(pc := 0x0100)
  }

  /** Reset forgets every register: it depends on the bus alone, and a
      second reset changes nothing. */
  lemma ResetForgets(s: CpuState, t: CpuState)
    requires s.bus == t.bus
    ensures AfterReset(s) == AfterReset(t)
    ensures AfterReset(AfterReset(s)) == AfterReset(s)
  {
  }

  /** An 8-bit register: the high or the low half of a pair. */
  datatype Reg8 = Reg8(pair: Pair, high: bool)

  const RegA := Reg8(AF, true)
  const RegF := Reg8(AF, false)
  const RegB := Reg8(BC, true)
  const RegC := Reg8(BC, false)
  const RegD := Reg8(DE, true)
  const RegE := Reg8(DE, false)
  const RegH := Reg8(HL, true)
  const RegL := Reg8(HL, false)

  /** The getter of a register. */
  function Get(s: CpuState, r: Reg8): (v: bv8) {
    if r.high then HighOf(PairOf(s, r.pair)) else LowOf(PairOf(s, r.pair))
  }

  /** The setter of a register. */
  function Set(s: CpuState, r: Reg8, val: bv8): (t: CpuState)
    ensures t.sp == s.sp && t.pc == s.pc && t.stalls == s.stalls && t.bus == s.bus
  {
    var p := PairOf(s, r.pair);
    WithPair(s, r.pair, if r.high then WithHigh(p, val) else WithLow(p, val))
  }

  /** A getter sees only the low nibble of what its setter stored: a high
      setter puts the byte in the high half of the pair, which the high
      getter masks away. */
  lemma SetGet(s: CpuState, r: Reg8, val: bv8)
    ensures Get(Set(s, r, val), r) == if r.high then 0 else val & 0x0F
    ensures r.high ==> (PairOf(Set(s, r, val), r.pair) >> 8) as bv8 == val
  {
  }

  /** Setting one 8-bit register leaves every other 8-bit getter unchanged,
      including the other half of the same pair. */
  lemma SetOther(s: CpuState, r: Reg8, r': Reg8, val: bv8)
    requires r' != r
    ensures Get(Set(s, r, val), r') == Get(s, r')
  {
    if r'.pair == r.pair && r.high {
      assert Get(Set(s, r, val), r') == LowOf(WithHigh(PairOf(s, r.pair), val));
    }
  }

  /** A low-half setter clears the high byte of its pair, and with it any
      flag stored there. */
  lemma LowSetClearsHigh(s: CpuState, r: Reg8, val: bv8)
    requires !r.high
    ensures PairOf(Set(s, r, val), r.pair) >> 8 == 0
    ensures r.pair == AF ==> forall f :: !FlagOf(Set(s, r, val).af, f)
  {
  }

  /** The register an operand slot names; slot 6 is the byte at HL. */
  function SlotReg(index: bv8): (r: Reg8)
    requires index < 8 && index != 6
    ensures r.high <==> index in {0, 2, 4, 7}
    ensures r != RegF
  {
    if index == 0 then RegB else if index == 1 then RegC else if index == 2 then RegD
    else if index == 3 then RegE else if index == 4 then RegH else if index == 5 then RegL
    else RegA
  }

  /** `r8`: slots 0-5 and 7 read a register, slot 6 the bus at HL. */
  function SlotRead(s: CpuState, index: bv8): (r: Result<bv8, CpuError>)
    requires Inv(s)
    ensures r.Err? <==> index > 7
  {
    if index > 7 then Err(UnknownR8(index))
    else if index == 6 then Ok(Bus.ByteRead(s.bus, s.hl as int))
    else Ok(Get(s, SlotReg(index)))
  }

  /** `set_r8`: slots 0-5 and 7 write a register, slot 6 the bus at HL. */
  function SlotWritten(s: CpuState, index: bv8, val: bv8): (r: Step)
    requires Inv(s)
    ensures Inv(r.state)
    ensures r.outcome.Fail? <==> index > 7
  {
    if index > 7 then Step(s, Fail(UnknownR8(index)))
    else if index == 6 then Step(s.(bus := Bus.ByteWritten(s.bus, s.hl as int, val)), Pass)
    else Step(Set(s, SlotReg(index), val), Pass)
  }

  /** A register slot changes only its register; slot 6 changes only the
      bus; a bad slot changes nothing. */
  lemma SetR8Frame(s: CpuState, index: bv8, val: bv8)
    requires Inv(s)
    ensures index < 8 && index != 6 ==> SlotWritten(s, index, val).state.bus == s.bus
    ensures index < 8 && index != 6 ==> forall r :: r != SlotReg(index) ==>
      Get(SlotWritten(s, index, val).state, r) == Get(s, r)
    ensures index == 6 ==> SlotWritten(s, index, val).state == s.(bus := Bus.ByteWritten(s.bus, s.hl as int, val))
    ensures index > 7 ==> SlotWritten(s, index, val).state == s
  {
    if index < 8 && index != 6 {
      forall r | r != SlotReg(index)
        ensures Get(SlotWritten(s, index, val).state, r) == Get(s, r)
      {
        SetOther(s, SlotReg(index), r, val);
      }
    }
  }

  /** What a slot reads after it is written: the byte itself at a writable
      HL, its low nibble for C, E and L, and 0 for B, D, H and A. */
  lemma SlotRoundTrip(s: CpuState, index: bv8, val: bv8)
    requires Inv(s) && index < 8
    ensures index == 6 && Bus.Writable(s.hl as int) ==> SlotRead(SlotWritten(s, index, val).state, index) == Ok(val)
    ensures index in {1, 3, 5} ==> SlotRead(SlotWritten(s, index, val).state, index) == Ok(val & 0x0F)
    ensures index in {0, 2, 4, 7} ==> SlotRead(SlotWritten(s, index, val).state, index) == Ok(0)
  {
    if index == 6 {
      if Bus.Writable(s.hl as int) {
        Bus.ReadAfterWrite(s.bus, s.hl as int, val);
      }
    } else {
      SetGet(s, SlotReg(index), val);
    }
  }

  // ---- the instructions ----

  /** `load_8_r_im8`: the byte at PC goes to the slot, PC moves past it. */
  function LoadImmStep(s: CpuState, index: bv8): (r: Step)
    requires Inv(s)
    ensures Inv(r.state)
    ensures r.outcome.Fail? <==> index > 7
  {
    SlotWritten(s.(pc := s.pc + 1), index, Bus.ByteRead(s.bus, s.pc as int))
  }

  /** `load_8_r_r`: the right slot's byte goes to the left slot. */
  function LoadRegStep(s: CpuState, left: bv8, right: bv8): (r: Step)
    requires Inv(s)
    ensures Inv(r.state)
    ensures r.outcome.Fail? <==> left > 7 || right > 7
  {
    match SlotRead(s, right)
    case Err(e) => Step(s, Fail(e))
    case Ok(v) => SlotWritten(s, left, v)
  }

  /** The flags `inc_8_r` sets, all by OR: zero when the sum wraps to 0,
      half-carry from `(val & 0x08) + 1 > 0x08`, carry on overflow. */
  function IncFlags(af: bv16, val: bv8): (r: bv16) {
    var res := val + 1;
    FlagSet(FlagSet(FlagSet(FlagSet(af, Zero, res == 0), Subtract, false),
      HalfCarry, (val & 0x08) + 1 > 0x08), Carry, val == 0xFF)
  }

  /** `inc_8_r`: the slot's byte plus one (wrapping), then the flags. */
  function IncStep(s: CpuState, index: bv8): (r: Step)
    requires Inv(s)
    ensures Inv(r.state)
    ensures r.outcome.Fail? <==> index > 7
  {
    match SlotRead(s, index)
    case Err(e) => Step(s, Fail(e))
    case Ok(val) =>
      var t := SlotWritten(s, index, val + 1);
      if t.outcome.Fail? then t
      else Step(t.state.(af := IncFlags(t.state.af, val)), Pass)
  }

  /** `jp_16`: PC becomes the word at PC. */
  function JumpStep(s: CpuState): (r: Step)
    requires Inv(s)
    ensures Inv(r.state) && r.outcome == Pass
  {
    Step(s.(pc := Bus.WordRead(s.bus, s.pc as int)), Pass)
  }

  /** `do_mnemonic`: only the opcodes without a handler fail; every slot a
      handler decodes is in range. */
  function Executed(s: CpuState, op: bv8): (r: Step)
    requires Inv(s)
    ensures Inv(r.state)
    ensures r.outcome.Fail? <==> Decode(op).NoArm?
  {
    match Decode(op)
    case NopArm => Step(s, Pass)
    case LoadImmArm(i) => LoadImmStep(s, i)
    case LoadRegArm(i, j) => LoadRegStep(s, i, j)
    case IncArm(i) => IncStep(s, i)
    case JumpArm => JumpStep(s)
    case NoArm => Step(s, Fail(Unimplemented(op)))
  }

  /** The state after `self.bus.tick()`. */
  function BusTicked(s: CpuState): (r: CpuState)
    requires Inv(s)
    ensures Inv(r) && r == s.(bus := Bus.Ticked(s.bus))
  {
    s.(bus := Bus.Ticked(s.bus))
  }

  /** The part of `tick` after a successful fetch of `op`: advance PC,
      execute, and tick the bus once if the instruction succeeded. */
  function Run(s: CpuState, op: bv8): (r: Step)
    requires Inv(s)
    ensures Inv(r.state)
  {
    Finished(Executed(s.(pc := s.pc + 1), op))
  }

  /** After executing: a failure is returned as is, a success ticks the bus. */
  function Finished(t: Step): (r: Step)
    requires Inv(t.state)
    ensures Inv(r.state)
  {
    if t.outcome.Fail? then t else Step(BusTicked(t.state), Pass)
  }

  /** `tick`: a stall, or fetch, advance PC, execute and tick the bus once. */
  function Ticked(s: CpuState): (r: Step)
    requires Inv(s)
    ensures Inv(r.state)
  {
    if s.stalls > 0 then Step(s.(stalls := s.stalls - 1), Pass)
    else
      var byte := Bus.ByteRead(s.bus, s.pc as int);
      if !IsOpcode(byte) then Step(s, Fail(UnknownOpcode(byte)))
      else Run(s, byte)
  }

  // ---- properties of the instructions ----

  /** INC only ORs flags in: each is its old value or its new condition. */
  lemma IncFlagsOr(af: bv16, val: bv8)
    ensures FlagOf(IncFlags(af, val), Zero) == (FlagOf(af, Zero) || val == 0xFF)
    ensures FlagOf(IncFlags(af, val), Subtract) == FlagOf(af, Subtract)
    ensures FlagOf(IncFlags(af, val), HalfCarry) == (FlagOf(af, HalfCarry) || val & 0x08 != 0)
    ensures FlagOf(IncFlags(af, val), Carry) == (FlagOf(af, Carry) || val == 0xFF)
  {
    var a1 := FlagSet(af, Zero, val + 1 == 0);
    var a2 := FlagSet(a1, Subtract, false);
    var a3 := FlagSet(a2, HalfCarry, (val & 0x08) + 1 > 0x08);
    FlagSetGet(af, Zero, val + 1 == 0);
    FlagSetOther(a1, Subtract, Zero, false);
    FlagSetOther(a2, HalfCarry, Zero, (val & 0x08) + 1 > 0x08);
    FlagSetOther(a3, Carry, Zero, val == 0xFF);
    FlagSetOther(af, Zero, Subtract, val + 1 == 0);
    FlagSetGet(a1, Subtract, false);
    FlagSetOther(a2, HalfCarry, Subtract, (val & 0x08) + 1 > 0x08);
    FlagSetOther(a3, Carry, Subtract, val == 0xFF);
    FlagSetOther(af, Zero, HalfCarry, val + 1 == 0);
    FlagSetOther(a1, Subtract, HalfCarry, false);
    FlagSetGet(a2, HalfCarry, (val & 0x08) + 1 > 0x08);
    FlagSetOther(a3, Carry, HalfCarry, val == 0xFF);
    FlagSetOther(af, Zero, Carry, val + 1 == 0);
    FlagSetOther(a1, Subtract, Carry, false);
    FlagSetOther(a2, HalfCarry, Carry, (val & 0x08) + 1 > 0x08);
    FlagSetGet(a3, Carry, val == 0xFF);
  }

  /** INC on B, C, D, E, H or L stores the byte plus one and ORs the flags
      into the old ones; the registers of the other slots are unchanged. */
  lemma IncRegister(s: CpuState, index: bv8)
    requires Inv(s) && index < 6
    ensures IncStep(s, index).outcome == Pass
    ensures IncStep(s, index).state ==
      Set(s, SlotReg(index), Get(s, SlotReg(index)) + 1).(af := IncFlags(s.af, Get(s, SlotReg(index))))
  {
    var t := Set(s, SlotReg(index), Get(s, SlotReg(index)) + 1);
    assert t.af == s.af;
  }

  /** LD between two registers: the destination reads what its getter
      makes of the source byte, every other register is unchanged. */
  lemma LoadRegCopies(s: CpuState, i: bv8, j: bv8)
    requires Inv(s) && i < 8 && j < 8 && i != 6 && j != 6
    ensures LoadRegStep(s, i, j).outcome == Pass
    ensures Get(LoadRegStep(s, i, j).state, SlotReg(i)) ==
      if SlotReg(i).high then 0 else Get(s, SlotReg(j)) & 0x0F
    ensures forall r :: r != SlotReg(i) ==> Get(LoadRegStep(s, i, j).state, r) == Get(s, r)
  {
    SetGet(s, SlotReg(i), Get(s, SlotReg(j)));
    SetR8Frame(s, i, Get(s, SlotReg(j)));
  }

  /** A stalled tick only counts the stall down. */
  lemma StallTick(s: CpuState)
    requires Inv(s) && s.stalls > 0
    ensures Ticked(s) == Step(s.(stalls := s.stalls - 1), Pass)
  {
  }

  /** A byte that is not an opcode fails the tick and changes nothing. */
  lemma UnknownOpcodeTick(s: CpuState)
    requires Inv(s) && s.stalls == 0 && !IsOpcode(Bus.ByteRead(s.bus, s.pc as int))
    ensures Ticked(s) == Step(s, Fail(UnknownOpcode(Bus.ByteRead(s.bus, s.pc as int))))
  {
  }

  /** An opcode without a handler fails after PC has moved on, without a
      bus tick. */
  lemma UnimplementedTick(s: CpuState)
    requires Inv(s) && s.stalls == 0
    requires IsOpcode(Bus.ByteRead(s.bus, s.pc as int)) && Decode(Bus.ByteRead(s.bus, s.pc as int)) == NoArm
    ensures Ticked(s) == Step(s.(pc := s.pc + 1), Fail(Unimplemented(Bus.ByteRead(s.bus, s.pc as int))))
  {
  }

  /** NOP moves PC on by one and ticks the bus once. */
  lemma NopTick(s: CpuState)
    requires Inv(s) && s.stalls == 0 && Bus.ByteRead(s.bus, s.pc as int) == NopOp
    ensures Ticked(s) == Step(BusTicked(s.(pc := s.pc + 1)), Pass)
  {
  }

  /** A tick that runs an implemented instruction `op` ticks the bus once
      after it. */
  lemma TickRuns(s: CpuState, op: bv8, t: Step)
    requires Inv(s) && s.stalls == 0 && op == Bus.ByteRead(s.bus, s.pc as int) && !Decode(op).NoArm?
    requires t == Executed(s.(pc := s.pc + 1), op)
    ensures Step(BusTicked(t.state), Pass) == Ticked(s)
  {
    HandledAreOpcodes(op);
  }

  /** The LD r,imm8 handler, once PC has moved past the opcode: slot `i`
      receives the operand byte. */
  lemma LoadImmExecuted(s: CpuState, op: bv8, i: bv8)
    requires Inv(s) && Decode(op) == LoadImmArm(i)
    ensures Executed(s, op) == SlotWritten(s.(pc := s.pc + 1), i, Bus.ByteRead(s.bus, s.pc as int))
  {
  }

  /** LD r,imm8 consumes one operand byte: with `s1` the state after the
      opcode fetch, slot `i` receives the byte at `s1`'s PC, PC moves on
      once more and the bus ticks once. */
  lemma LoadImmTick(s: CpuState, op: bv8, i: bv8)
    requires Inv(s) && s.stalls == 0 && op == Bus.ByteRead(s.bus, s.pc as int) && Decode(op) == LoadImmArm(i)
    ensures var s1 := s.(pc := s.pc + 1);
      Step(BusTicked(SlotWritten(s1.(pc := s1.pc + 1), i, Bus.ByteRead(s1.bus, s1.pc as int)).state), Pass)
      == Ticked(s)
  {
    var s1 := s.(pc := s.pc + 1);
    LoadImmExecuted(s1, op, i);
    TickRuns(s, op, Executed(s1, op));
  }

  /** JP a16 sets PC to the little-endian word after the opcode and ticks
      the bus once. */
  lemma JumpTick(s: CpuState)
    requires Inv(s) && s.stalls == 0 && Bus.ByteRead(s.bus, s.pc as int) == JumpOp
    ensures Step(BusTicked(s.(pc := Bus.WordRead(s.bus, (s.pc + 1) as int))), Pass) == Ticked(s)
  {
    var s1 := s.(pc := s.pc + 1);
    assert Executed(s1, JumpOp) == JumpStep(s1);
    TickRuns(s, JumpOp, Executed(s1, JumpOp));
  }

  // ---- the CPU object ----

  class Cpu {
    var af: bv16
    var bc: bv16
    var de: bv16
    var hl: bv16
    var sp: bv16
    var pc: bv16
    var stalls: bv8
    const bus: Bus.Bus

    ghost function Repr(): set<object> {
      {this} + bus.Repr()
    }

    function State(): CpuState
      reads this, bus, bus.ppu, bus.ppu.vram, bus.ppu.oam, bus.ppu.bgLine, bus.ppu.oamLine, bus.ppu.pixels
      reads bus.joypad, bus.timer, bus.ram, bus.hram
    {
      CpuState(af, bc, de, hl, sp, pc, stalls, bus.State())
    }

    ghost predicate Valid()
      reads this, bus, bus.ppu, bus.ppu.vram, bus.ppu.oam, bus.ppu.bgLine, bus.ppu.oamLine, bus.ppu.pixels
      reads bus.joypad, bus.timer, bus.ram, bus.hram
    {
      bus.Valid() && this !in bus.Repr()
    }

    /** `Cpu::new`: every register 0. */
    constructor (b: Bus.Bus)
      requires b.Valid()
      ensures Valid() && bus == b && State() == Initial(old(b.State()))
    {
      bus := b;
      af, bc, de, hl, sp, pc, stalls := 0, 0, 0, 0, 0, 0, 0;
    }

    method Reset()
      modifies this
      ensures State() == AfterReset(old(State()))
    {
      af := 0;
      bc := 0;
      de := 0;
      hl := 0;
      sp := 0;
      pc := 0x0100;
      stalls := 0;
    }

    /** `a()`, `f()`, `b()`, `c()`, `d()`, `e()`, `h()`, `l()`. */
    function Reg(r: Reg8): (v: bv8)
      reads this, bus, bus.ppu, bus.ppu.vram, bus.ppu.oam, bus.ppu.bgLine, bus.ppu.oamLine, bus.ppu.pixels
      reads bus.joypad, bus.timer, bus.ram, bus.hram
      ensures r.high ==> v == 0
      ensures !r.high ==> v == (PairOf(State(), r.pair) & 0x0F) as bv8
    {
      Get(State(), r)
    }

    /** `set_a`, `set_f`, `set_b`, `set_c`, `set_d`, `set_e`, `set_h`, `set_l`. */
    method SetReg(r: Reg8, val: bv8)
      requires Valid()
      modifies this
      ensures Valid() && State() == Set(old(State()), r, val)
    {
      match r.pair {
        case AF => af := if r.high then WithHigh(af, val) else WithLow(af, val);
        case BC => bc := if r.high then WithHigh(bc, val) else WithLow(bc, val);
        case DE => de := if r.high then WithHigh(de, val) else WithLow(de, val);
        case HL => hl := if r.high then WithHigh(hl, val) else WithLow(hl, val);
      }
    }

    /** `flag_z`, `flag_n`, `flag_h`, `flag_c`. */
    function Flag(f: Flag): (r: bool)
      reads this
      ensures r <==> af & FlagMask(f) != 0
    {
      FlagOf(af, f)
    }

    /** `flag_nz`. */
    function FlagNz(): (r: bool)
      reads this
      ensures r == !Flag(HalfCarry)
    {
      NzOf(af)
    }

    /** `flag_nc`. */
    function FlagNc(): (r: bool)
      reads this
      ensures r == !Flag(Carry)
    {
      NcOf(af)
    }

    /** `set_flag_z`, `set_flag_n`, `set_flag_h`, `set_flag_c`. */
    method SetFlag(f: Flag, val: bool)
      requires Valid()
      modifies this
      ensures Valid() && State() == old(State()).(af := FlagSet(old(af), f, val))
    {
      af := FlagSet(af, f, val);
    }

    /** `r8`. */
    function R8(index: bv8): (r: Result<bv8, CpuError>)
      reads this, bus, bus.ppu, bus.ppu.vram, bus.ppu.oam, bus.ppu.bgLine, bus.ppu.oamLine, bus.ppu.pixels
      reads bus.joypad, bus.timer, bus.ram, bus.hram
      requires Valid()
      ensures r == SlotRead(State(), index)
    {
      if index > 7 then Err(UnknownR8(index))
      else if index == 6 then Ok(bus.Read(hl as int))
      else Ok(Reg(SlotReg(index)))
    }

    /** `set_r8`. */
    method SetR8(index: bv8, val: bv8) returns (o: Outcome<CpuError>)
      requires Valid()
      modifies Repr()
      ensures Valid()
      ensures State() == SlotWritten(old(State()), index, val).state && o == SlotWritten(old(State()), index, val).outcome
    {
      if index > 7 {
        return Fail(UnknownR8(index));
      } else if index == 6 {
        bus.Write(hl as int, val);
      } else {
        SetReg(SlotReg(index), val);
      }
      o := Pass;
    }

    /** `nop`. */
    method Nop() returns (o: Outcome<CpuError>)
      ensures o == Pass
    {
      o := Pass;
    }

    /** `load_8_r_im8`. */
    method LoadR8Im8(index: bv8) returns (o: Outcome<CpuError>)
      requires Valid()
      modifies Repr()
      ensures Valid()
      ensures State() == LoadImmStep(old(State()), index).state && o == LoadImmStep(old(State()), index).outcome
    {
      var val := bus.Read(pc as int);
      pc := pc + 1;
      o := SetR8(index, val);
    }

    /** `load_8_r_r`. */
    method LoadR8R8(left: bv8, right: bv8) returns (o: Outcome<CpuError>)
      requires Valid()
      modifies Repr()
      ensures Valid()
      ensures State() == LoadRegStep(old(State()), left, right).state
      ensures o == LoadRegStep(old(State()), left, right).outcome
    {
      var val := R8(right);
      if val.Err? {
        return Fail(val.error);
      }
      o := SetR8(left, val.value);
    }

    /** `inc_8_r`. */
    method IncR8(index: bv8) returns (o: Outcome<CpuError>)
      requires Valid()
      modifies Repr()
      ensures Valid()
      ensures State() == IncStep(old(State()), index).state && o == IncStep(old(State()), index).outcome
    {
      var r := R8(index);
      if r.Err? {
        return Fail(r.error);
      }
      var val := r.value;
      o := SetR8(index, val + 1);
      if o.Fail? {
        return;
      }
      SetIncFlags(val);
    }

    /** The four flag writes of `inc_8_r` for the old byte `val`. */
    method SetIncFlags(val: bv8)
      requires Valid()
      modifies this
      ensures Valid() && State() == old(State()).(af := IncFlags(old(af), val))
    {
      var res, c := val + 1, val == 0xFF;
      SetFlag(Zero, res == 0);
      SetFlag(Subtract, false);
      SetFlag(HalfCarry, (val & 0x08) + 1 > 0x08);
      SetFlag(Carry, c);
    }

    /** `jp_16`. */
    method Jp16() returns (o: Outcome<CpuError>)
      requires Valid()
      modifies this
      ensures Valid()
      ensures State() == JumpStep(old(State())).state && o == Pass
    {
      pc := bus.ReadWord(pc as int);
      o := Pass;
    }

    /** `do_mnemonic`. */
    method DoMnemonic(op: bv8) returns (o: Outcome<CpuError>)
      requires Valid()
      modifies Repr()
      ensures Valid()
      ensures State() == Executed(old(State()), op).state && o == Executed(old(State()), op).outcome
    {
      var right := op & 0x07;
      var left := (op & 0x38) >> 3;
      match Decode(op) {
        case NopArm => o := Nop();
        case LoadImmArm(_) => o := LoadR8Im8(left);
        case LoadRegArm(_, _) => o := LoadR8R8(left, right);
        case IncArm(_) => o := IncR8(left);
        case JumpArm => o := Jp16();
        case NoArm => o := Fail(Unimplemented(op));
      }
    }

    /** `self.bus.tick()`. */
    method TickBus()
      requires Valid()
      modifies Repr()
      ensures Valid() && State() == BusTicked(old(State()))
    {
      bus.Tick();
    }

    /** `self.pc += 1` after the fetch. */
    method Advance()
      requires Valid()
      modifies this
      ensures Valid() && State() == old(State()).(pc := old(State()).pc + 1)
    {
      pc := pc + 1;
    }

    /** The bus tick that follows a successful instruction. */
    method Finish(r: Outcome<CpuError>) returns (o: Outcome<CpuError>)
      requires Valid()
      modifies Repr()
      ensures Valid()
      ensures State() == Finished(Step(old(State()), r)).state && o == Finished(Step(old(State()), r)).outcome
    {
      o := r;
      if o.Pass? {
        TickBus();
      }
    }

    /** The part of `tick` after a successful fetch. */
    method RunOpcode(op: bv8) returns (o: Outcome<CpuError>)
      requires Valid()
      modifies Repr()
      ensures Valid()
      ensures State() == Run(old(State()), op).state && o == Run(old(State()), op).outcome
    {
      Advance();
      var r := DoMnemonic(op);
      o := Finish(r);
    }

    /** `tick`. */
    method Tick() returns (o: Outcome<CpuError>)
      requires Valid()
      modifies Repr()
      ensures Valid()
      ensures State() == Ticked(old(State())).state && o == Ticked(old(State())).outcome
    {
      ghost var s := State();
      if stalls > 0 {
        stalls := stalls - 1;
        StallTick(s);
        return Pass;
      }
      var byte := bus.Read(pc as int);
      if !IsOpcode(byte) {
        UnknownOpcodeTick(s);
        return Fail(UnknownOpcode(byte));
      }
      o := RunOpcode(byte);
    }
  }
}
