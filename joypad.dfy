/** The joypad of src/joypad.rs: eight key latches, two select lines written
    through P1 (0xFF00), and the joypad interrupt request raised by a press.
    A read returns the selected group active-low. */
module Joypad {
  import opened Common

  datatype Key = A | B | Up | Down | Left | Right | Select | Start

  predicate IsDirection(k: Key) {
    k.Up? || k.Down? || k.Left? || k.Right?
  }

  /** The bit a key reads on in its group: right/A on bit 0, left/B on 1,
      up/select on 2, down/start on 3. */
  function KeyBit(k: Key): (i: nat)
    ensures i < 4
  {
    match k
    case A => 0
    case Right => 0
    case B => 1
    case Left => 1
    case Select => 2
    case Up => 2
    case Start => 3
    case Down => 3
  }

  datatype JoypadState = JoypadState(
    up: bool, down: bool, left: bool, right: bool,
    a: bool, b: bool, start: bool, select: bool,
    direction: bool, button: bool,
    interrupt: bool)

  const Default := JoypadState(false, false, false, false, false, false, false, false, false, false, false)

  function Held(s: JoypadState, k: Key): bool {
    match k
    case A => s.a
    case B => s.b
    case Up => s.up
    case Down => s.down
    case Left => s.left
    case Right => s.right
    case Select => s.select
    case Start => s.start
  }

  /** The state with the latch of `k` set to `v` and every other field kept. */
  function SetKey(s: JoypadState, k: Key, v: bool): (t: JoypadState)
    ensures Held(t, k) == v
    ensures forall j :: j != k ==> Held(t, j) == Held(s, j)
    ensures t.direction == s.direction && t.button == s.button && t.interrupt == s.interrupt
  {
    match k
    case A => s.(a := v)
    case B => s.(b := v)
    case Up => s.(up := v)
    case Down => s.(down := v)
    case Left => s.(left := v)
    case Right => s.(right := v)
    case Select => s.(select := v)
    case Start => s.(start := v)
  }

  /** `press`: latches the key and requests the joypad interrupt. */
  function Pressed(s: JoypadState, k: Key): JoypadState {
    SetKey(s, k, true).(interrupt := true)
  }

  /** `release`: clears the latch; the interrupt request is left alone. */
  function Released(s: JoypadState, k: Key): JoypadState {
    SetKey(s, k, false)
  }

  /** `read_button`, packed `110dseba` with every field inverted. */
  function ButtonByte(s: JoypadState): bv8 {
    0xC0 | BitIf(!s.direction, 4) | BitIf(!s.start, 3) | BitIf(!s.select, 2)
      | BitIf(!s.b, 1) | BitIf(!s.a, 0)
  }

  /** `read_direction`, packed `11b0dulr` with every field inverted. */
  function DirectionByte(s: JoypadState): bv8 {
    0xC0 | BitIf(!s.button, 5) | BitIf(!s.down, 3) | BitIf(!s.up, 2)
      | BitIf(!s.left, 1) | BitIf(!s.right, 0)
  }

  /** `read`: the direction group wins over the button group; with neither
      selected every line reads high. */
  function P1(s: JoypadState): bv8 {
    if s.direction then DirectionByte(s)
    else if s.button then ButtonByte(s)
    else 0xFF
  }

  /** `write`: a 0 on bit 4 selects the directions, a 0 on bit 5 the buttons. */
  function P1Written(s: JoypadState, val: bv8): JoypadState {
    s.(direction := val & 0x10 == 0, button := val & 0x20 == 0)
  }

  // ---- properties of the joypad model ----

  /** A key of the selected group reads 0 exactly while it is held. */
  lemma ReadShowsHeldKey(s: JoypadState, k: Key)
    ensures s.direction && IsDirection(k) ==> (Bit(P1(s), KeyBit(k)) <==> !Held(s, k))
    ensures !s.direction && s.button && !IsDirection(k) ==> (Bit(P1(s), KeyBit(k)) <==> !Held(s, k))
  {
    var v := P1(s);
    if s.direction && IsDirection(k) {
      assert Bit(v, KeyBit(k)) == Bit(BitIf(!Held(s, k), KeyBit(k)), KeyBit(k));
    } else if !s.direction && s.button && !IsDirection(k) {
      assert Bit(v, KeyBit(k)) == Bit(BitIf(!Held(s, k), KeyBit(k)), KeyBit(k));
    }
  }

  /** The bits a read fixes: 7 and 6 always high; in the direction group bit 4
      low and bit 5 the inverted button select; in the button group bit 5 low
      and bit 4 the inverted direction select (so high whenever it is read). */
  lemma ReadFixedBits(s: JoypadState)
    ensures P1(s) & 0xC0 == 0xC0
    ensures s.direction ==> P1(s) & 0x10 == 0 && (P1(s) & 0x20 != 0 <==> !s.button)
    ensures !s.direction && s.button ==> P1(s) & 0x20 == 0 && P1(s) & 0x10 == 0x10
    ensures !s.direction && !s.button ==> P1(s) == 0xFF
  {
  }

  /** Writing P1 and reading it back: bit 4 low selects directions, else bit
      5 low selects buttons, else the read is 0xFF. */
  lemma WriteThenRead(s: JoypadState, val: bv8)
    ensures val & 0x10 == 0 ==> P1(P1Written(s, val)) == DirectionByte(P1Written(s, val))
    ensures val & 0x10 != 0 && val & 0x20 == 0 ==> P1(P1Written(s, val)) == ButtonByte(P1Written(s, val))
    ensures val & 0x30 == 0x30 ==> P1(P1Written(s, val)) == 0xFF
  {
    var t := P1Written(s, val);
    assert t.direction <==> val & 0x10 == 0;
    assert val & 0x30 == 0x30 ==> !t.direction && !t.button;
  }

  /** A press always requests the interrupt; a release never changes it; a
      release after a press of a key that was up restores every latch. */
  lemma PressRelease(s: JoypadState, k: Key)
    ensures Pressed(s, k).interrupt && Held(Pressed(s, k), k)
    ensures Released(s, k).interrupt == s.interrupt && !Held(Released(s, k), k)
    ensures !Held(s, k) ==> Released(Pressed(s, k), k) == s.(interrupt := true)
  {
    if !Held(s, k) {
      match k
      case A =>
      case B =>
      case Up =>
      case Down =>
      case Left =>
      case Right =>
      case Select =>
      case Start =>
    }
  }

  /** Setting a latch to the value it already holds changes nothing. */
  lemma SetKeySame(s: JoypadState, k: Key, v: bool)
    requires Held(s, k) == v
    ensures SetKey(s, k, v) == s
  {
    match k
    case A => assert SetKey(s, k, v) == s.(a := v);
    case B => assert SetKey(s, k, v) == s.(b := v);
    case Up => assert SetKey(s, k, v) == s.(up := v);
    case Down => assert SetKey(s, k, v) == s.(down := v);
    case Left => assert SetKey(s, k, v) == s.(left := v);
    case Right => assert SetKey(s, k, v) == s.(right := v);
    case Select => assert SetKey(s, k, v) == s.(select := v);
    case Start => assert SetKey(s, k, v) == s.(start := v);
  }

  /** Pressing a key twice is pressing it once, and so is releasing it. */
  lemma PressIdempotent(s: JoypadState, k: Key)
    ensures Pressed(Pressed(s, k), k) == Pressed(s, k)
    ensures Released(Released(s, k), k) == Released(s, k)
  {
    SetKeySame(Pressed(s, k), k, true);
    SetKeySame(Released(s, k), k, false);
  }

  /** Pressing or releasing one key never changes what another key reads. */
  lemma KeysIndependent(s: JoypadState, k: Key, j: Key)
    requires j != k
    ensures Held(Pressed(s, k), j) == Held(s, j)
    ensures Held(Released(s, k), j) == Held(s, j)
  {
  }

  // ---- the joypad object ----

  class Joypad {
    var up: bool
    var down: bool
    var left: bool
    var right: bool
    var a: bool
    var b: bool
    var start: bool
    var select: bool
    var direction: bool
    var button: bool
    /** `int`: the joypad interrupt request, also set and cleared by the bus. */
    var interrupt: bool

    function State(): JoypadState
      reads this
    {
      JoypadState(up, down, left, right, a, b, start, select, direction, button, interrupt)
    }

    constructor ()
      ensures State() == Default
    {
      up, down, left, right := false, false, false, false;
      a, b, start, select := false, false, false, false;
      direction, button, interrupt := false, false, false;
    }

    /** `int`, which the bus sets and clears. */
    method SetInterrupt(val: bool)
      modifies this
      ensures State() == old(State()).(interrupt := val)
    {
      interrupt := val;
    }

    method Press(k: Key)
      modifies this
      ensures State() == Pressed(old(State()), k)
    {
      match k {
        case A => a := true;
        case B => b := true;
        case Select => select := true;
        case Start => start := true;
        case Up => up := true;
        case Down => down := true;
        case Right => right := true;
        case Left => left := true;
      }
      assert Held(State(), k);
      interrupt := true;
    }

    method Release(k: Key)
      modifies this
      ensures State() == Released(old(State()), k)
    {
      match k {
        case A => a := false;
        case B => b := false;
        case Select => select := false;
        case Start => start := false;
        case Up => up := false;
        case Down => down := false;
        case Right => right := false;
        case Left => left := false;
      }
      assert Held(State(), k) == false;
    }

    function ReadButton(): (r: bv8)
      reads this
      ensures r == ButtonByte(State())
    {
      0xC0 | BitIf(!direction, 4) | BitIf(!start, 3) | BitIf(!select, 2) | BitIf(!b, 1) | BitIf(!a, 0)
    }

    function ReadDirection(): (r: bv8)
      reads this
      ensures r == DirectionByte(State())
    {
      0xC0 | BitIf(!button, 5) | BitIf(!down, 3) | BitIf(!up, 2) | BitIf(!left, 1) | BitIf(!right, 0)
    }

    function Read(): (r: bv8)
      reads this
      ensures r == P1(State())
    {
      if direction then ReadDirection()
      else if button then ReadButton()
      else 0xFF
    }

    method Write(val: bv8)
      modifies this
      ensures State() == P1Written(old(State()), val)
    {
      direction := val & 0x10 == 0;
      button := val & 0x20 == 0;
    }
  }
}
