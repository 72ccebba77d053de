/** The timer of src/timer.rs: a free-running wrapping 16-bit counter whose
    selected bit is watched for falling edges; each falling edge increments
    TIMA, and an increment that wraps TIMA to 0 on a counter divisible by 4
    reloads TIMA from TMA and raises the timer interrupt. */
module Timer {
  import opened Common

  /** The clock select of TAC (`Clock`), by its 2-bit code. */
  datatype Clock = Clock4096 | Clock262144 | Clock65536 | Clock16384

  function ClockCode(c: Clock): (r: bv8)
    ensures r <= 3
  {
    match c
    case Clock4096 => 0
    case Clock262144 => 1
    case Clock65536 => 2
    case Clock16384 => 3
  }

  /** `FromPrimitive::from_u8`: a 2-bit value always names a clock. */
  function ClockFromCode(s: bv8): (r: Option<Clock>)
    ensures r.Some? <==> s <= 3
    ensures r.Some? ==> ClockCode(r.value) == s
  {
    if s == 0 then Some(Clock4096)
    else if s == 1 then Some(Clock262144)
    else if s == 2 then Some(Clock65536)
    else if s == 3 then Some(Clock16384)
    else None
  }

  /** The counter bit each clock watches: 9, 3, 5 or 7. */
  function SelectedBit(c: Clock): nat {
    match c
    case Clock4096 => 9
    case Clock262144 => 3
    case Clock65536 => 5
    case Clock16384 => 7
  }

  /** `counter & (1 << n) > 0`. */
  predicate CounterBit(counter: Word, n: nat) {
    (counter / Pow2(n)) % 2 == 1
  }

  /** The timer's fields, as a value. */
  datatype TimerState = TimerState(
    counter: Word, tima: bv8, tma: bv8, enable: bool, clock: Clock, prev: bool, interrupt: bool)

  /** `Timer::default()`. */
  const Default := TimerState(0, 0, 0, false, Clock4096, false, false)

  /** The level `sync` compares against `prev`: the selected bit, or false
      while the timer is disabled. */
  predicate Level(s: TimerState) {
    s.enable && CounterBit(s.counter, SelectedBit(s.clock))
  }

  /** What a falling edge does to TIMA, TMA's reload and the interrupt. */
  function Increment(s: TimerState): TimerState {
    if s.counter % 4 == 0 && s.tima + 1 == 0 then s.(tima := s.tma, interrupt := true)
    else s.(tima := s.tima + 1)
  }

  /** `sync`, as a function of the state. */
  function Synced(s: TimerState): TimerState {
    var t := if s.prev && !Level(s) then Increment(s) else s;
    t.(prev := Level(s))
  }

  /** `tick`: the counter wraps forward by one, then `sync`. */
  function Ticked(s: TimerState): TimerState {
    Synced(s.(counter := (s.counter + 1) % 0x1_0000))
  }

  function Div(s: TimerState): (r: bv8) {
    (s.counter / 256) as bv8
  }

  /** `write_div`: any value resets the counter and nothing else. */
  function DivWritten(s: TimerState, val: bv8): TimerState {
    s.(counter := 0)
  }

  function TimaWritten(s: TimerState, val: bv8): TimerState {
    Synced(s).(tima := val)
  }

  function TmaWritten(s: TimerState, val: bv8): TimerState {
    Synced(s.(tma := val))
  }

  /** TAC as read back: bit 2 the enable, bits 1-0 the clock code. */
  function Tac(s: TimerState): bv8 {
    (if s.enable then 4 else 0) | ClockCode(s.clock)
  }

  /** `write_tac`: bit 2 is the enable, bits 1-0 the clock; bits 7-3 are ignored. */
  function TacWritten(s: TimerState, val: bv8): TimerState {
    var c := ClockFromCode(val & 3);
    s.(enable := val & 4 != 0, clock := if c.Some? then c.value else s.clock)
  }

  // ---- properties of the timer model ----

  /** A tick moves the counter forward by one modulo 2^16. */
  lemma TickCounter(s: TimerState)
    ensures Ticked(s).counter == (s.counter + 1) % 0x1_0000
    ensures Ticked(s).tma == s.tma && Ticked(s).enable == s.enable && Ticked(s).clock == s.clock
  {
  }

  /** TIMA changes only on a falling edge: `prev` set and the selected bit
      of the counter (cleared while disabled) now clear. */
  lemma TimaChangesOnlyOnFallingEdge(s: TimerState)
    ensures Synced(s).tima != s.tima ==> s.prev && !Level(s)
    ensures Synced(s).prev == Level(s)
    ensures !(s.prev && !Level(s)) ==> Synced(s) == s.(prev := Level(s))
  {
  }

  /** On a falling edge TIMA increments, except that an increment to 0 on a
      counter divisible by 4 reloads TMA and raises the interrupt. */
  lemma FallingEdgeIncrements(s: TimerState)
    requires s.prev && !Level(s)
    ensures Synced(s).interrupt == (s.interrupt || (s.counter % 4 == 0 && s.tima == 0xFF))
    ensures s.counter % 4 == 0 && s.tima == 0xFF ==> Synced(s).tima == s.tma
    ensures !(s.counter % 4 == 0 && s.tima == 0xFF) ==> Synced(s).tima == s.tima + 1
  {
  }

  /** No timer operation ever clears the interrupt flag. */
  lemma InterruptNeverCleared(s: TimerState, v: bv8)
    requires s.interrupt
    ensures Synced(s).interrupt && Ticked(s).interrupt
    ensures DivWritten(s, v).interrupt && TimaWritten(s, v).interrupt
    ensures TmaWritten(s, v).interrupt && TacWritten(s, v).interrupt
  {
    SyncKeepsInterrupt(s);
    SyncKeepsInterrupt(s.(counter := (s.counter + 1) % 0x1_0000));
    SyncKeepsInterrupt(s.(tma := v));
  }

  lemma SyncKeepsInterrupt(s: TimerState)
    requires s.interrupt
    ensures Synced(s).interrupt
  {
  }

  /** DIV is the high byte of the counter; writing it makes it read 0. */
  lemma DivRoundTrip(s: TimerState, v: bv8)
    ensures Div(DivWritten(s, v)) == 0
    ensures DivWritten(s, v) == DivWritten(s, !v)
  {
  }

  /** TAC reads back the low three bits of what was written. */
  lemma TacRoundTrip(s: TimerState, v: bv8)
    ensures Tac(TacWritten(s, v)) == v & 0x07
  {
  }

  /** After writing TIMA it reads back the written value; writing TMA stores
      it before the edge check runs. */
  lemma TimaTmaWrites(s: TimerState, v: bv8)
    ensures TimaWritten(s, v).tima == v
    ensures TmaWritten(s, v).tma == v
  {
  }

  /** `n` ticks in a row. */
  function Ticks(s: TimerState, n: nat): TimerState {
    if n == 0 then s else Ticked(Ticks(s, n - 1))
  }

  /** Four ticks, as the bus runs them. */
  lemma FourTicks(s: TimerState)
    ensures Ticks(s, 4) == Ticked(Ticked(Ticked(Ticked(s))))
  {
    assert Ticks(s, 1) == Ticked(s);
    assert Ticks(s, 2) == Ticked(Ticked(s));
    assert Ticks(s, 3) == Ticked(Ticks(s, 2));
  }

  lemma WrapSucc(c: Word, n: nat)
    ensures ((c + n) % 0x1_0000 + 1) % 0x1_0000 == (c + n + 1) % 0x1_0000
  {
    var q, r := (c + n) / 0x1_0000, (c + n) % 0x1_0000;
    assert c + n == q * 0x1_0000 + r;
    if r + 1 < 0x1_0000 {
      assert c + n + 1 == q * 0x1_0000 + (r + 1);
    } else {
      assert c + n + 1 == (q + 1) * 0x1_0000;
    }
  }

  /** `n` ticks move the counter `n` on, modulo 2^16. */
  lemma {:induction false} TicksCounter(s: TimerState, n: nat)
    ensures Ticks(s, n).counter == (s.counter + n) % 0x1_0000
  {
    if n > 0 {
      TicksCounter(s, n - 1);
      WrapSucc(s.counter, n - 1);
    }
  }

  /** The state a block of ticks starts from: enabled on clock 0 (bit 9), the
      counter at a multiple of 1024 and `prev` clear. */
  predicate BlockStart(s: TimerState) {
    s.enable && s.clock == Clock4096 && s.counter % 1024 == 0 && !s.prev
  }

  lemma Bit9Below(c: Word, m: nat)
    requires c % 1024 == 0 && m < 1024
    ensures c + m < 0x1_0000
    ensures CounterBit(c + m, 9) <==> m >= 512
  {
    assert Pow2(9) == 512 by {
      assert Pow2(1) == 2 && Pow2(2) == 4 && Pow2(3) == 8 && Pow2(4) == 16;
      assert Pow2(5) == 32 && Pow2(6) == 64 && Pow2(7) == 128 && Pow2(8) == 256;
    }
    var q := c / 1024;
    assert c == 1024 * q;
    assert (c + m) / 512 == 2 * q + m / 512;
  }

  /** Within a block nothing but the counter and `prev` moves. */
  lemma {:induction false} TicksWithinBlock(s: TimerState, n: nat)
    requires BlockStart(s) && n < 1024
    ensures Ticks(s, n) == s.(counter := s.counter + n, prev := n >= 512)
  {
    if n > 0 {
      TicksWithinBlock(s, n - 1);
      Bit9Below(s.counter, n - 1);
      Bit9Below(s.counter, n);
    }
  }

  /** TIMA increments exactly once per 1024 ticks on clock 0: after a whole
      block it has moved one step (with the TMA reload on overflow) and the
      next block starts. */
  lemma {:induction false} TicksBlock(s: TimerState)
    requires BlockStart(s)
    ensures forall n :: 0 <= n < 1024 ==> Ticks(s, n).tima == s.tima
    ensures Ticks(s, 1024) == Increment(s).(counter := (s.counter + 1024) % 0x1_0000)
    ensures BlockStart(Ticks(s, 1024))
  {
    forall n | 0 <= n < 1024 ensures Ticks(s, n).tima == s.tima {
      TicksWithinBlock(s, n);
    }
    TicksWithinBlock(s, 1023);
    LastTickOfBlock(s, s.(counter := s.counter + 1023, prev := true));
  }

  /** The counter after a block start moves to the next block start, wrapping at 16 bits. */
  lemma NextBlock(c: Word)
    requires c % 1024 == 0
    ensures c + 1023 < 0x1_0000
    ensures (c + 1024) % 0x1_0000 == (c + 1023 + 1) % 0x1_0000
    ensures (c + 1024) % 0x1_0000 % 1024 == 0 && (c + 1024) % 0x1_0000 % 4 == 0 && c % 4 == 0
  {
    var q := c / 1024;
    assert c == 1024 * q && q < 64;
    if q < 63 {
      assert (c + 1024) % 0x1_0000 == 1024 * (q + 1);
    } else {
      assert (c + 1024) % 0x1_0000 == 0;
    }
  }

  /** The 1024th tick of a block: the counter reaches the next multiple of
      1024, bit 9 falls and TIMA moves. */
  lemma LastTickOfBlock(s: TimerState, t: TimerState)
    requires BlockStart(s) && t == s.(counter := s.counter + 1023, prev := true)
    ensures Ticked(t) == Increment(s).(counter := (s.counter + 1024) % 0x1_0000)
    ensures BlockStart(Ticked(t))
  {
    var c := (s.counter + 1024) % 0x1_0000;
    NextBlock(s.counter);
    Bit9Below(c, 0);
    var u := t.(counter := c);
    assert !Level(u);
    assert Ticked(t) == Synced(u);
    assert Synced(u) == Increment(u).(prev := false);
    assert Increment(u) == Increment(s).(counter := c, prev := true);
  }

  // ---- the timer object ----

  class Timer {
    var counter: Word
    var tima: bv8
    var tma: bv8
    var enable: bool
    var clock: Clock
    var prev: bool
    /** `int`: the timer interrupt request, also set and cleared by the bus. */
    var interrupt: bool

    function State(): TimerState
      reads this
    {
      TimerState(counter, tima, tma, enable, clock, prev, interrupt)
    }

    constructor ()
      ensures State() == Default
    {
      counter, tima, tma := 0, 0, 0;
      enable, clock, prev, interrupt := false, Clock4096, false, false;
    }

    /** `int`, which the bus sets and clears. */
    method SetInterrupt(val: bool)
      modifies this
      ensures State() == old(State()).(interrupt := val)
    {
      interrupt := val;
    }

    method Sync()
      modifies this
      ensures State() == Synced(old(State()))
    {
      var cur := false;
      if enable {
        cur := CounterBit(counter, SelectedBit(clock));
      }
      if prev && !cur {
        tima := tima + 1;
        if counter % 4 == 0 && tima == 0 {
          tima := tma;
          interrupt := true;
        }
      }
      prev := cur;
    }

    method Tick()
      modifies this
      ensures State() == Ticked(old(State()))
    {
      counter := (counter + 1) % 0x1_0000;
      Sync();
    }

    function ReadDiv(): (r: bv8)
      reads this
      ensures r == Div(State())
    {
      (counter / 256) as bv8
    }

    method WriteDiv(val: bv8)
      modifies this
      ensures State() == DivWritten(old(State()), val)
    {
      counter := 0;
    }

    function ReadTima(): (r: bv8)
      reads this
      ensures r == State().tima
    {
      tima
    }

    method WriteTima(val: bv8)
      modifies this
      ensures State() == TimaWritten(old(State()), val)
    {
      Sync();
      tima := val;
    }

    function ReadTma(): (r: bv8)
      reads this
      ensures r == State().tma
    {
      tma
    }

    method WriteTma(val: bv8)
      modifies this
      ensures State() == TmaWritten(old(State()), val)
    {
      tma := val;
      Sync();
    }

    function ReadTac(): (r: bv8)
      reads this
      ensures r == Tac(State())
    {
      (if enable then 4 else 0) | ClockCode(clock)
    }

    method WriteTac(val: bv8)
      modifies this
      ensures State() == TacWritten(old(State()), val)
    {
      enable := val & 4 != 0;
      var c := ClockFromCode(val & 3);
      if c.Some? {
        clock := c.value;
      }
    }
  }
}
