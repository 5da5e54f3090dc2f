/** The Game Boy timers: the DIV register counting every 256 clock cycles (128 at double speed), the TIMA
  * register counting at the period TAC selects and reloading from TMA with a timer interrupt when it
  * overflows, and a seconds tick for the MBC3 real-time clock every 4 MiB cycles. */
module GbTimers {
  import GbAlu

  /** Clock cycles per TIMA increment for TAC's low two bits. */
  const PERIODS: seq<int> := [1024, 16, 64, 256]
  const NOT_SET := -1
  const RTC_CYCLES := 4 * 1024 * 1024
  const TAC_ENABLE := 4

  /** Everything update_timers reads and writes: its static variables, the four timer registers, the
    * timer bit of the interrupt flags and the number of seconds passed to the MBC3 clock. */
  datatype TimerState = TimerState(frequency: int, counter: int, clocks: nat, dividerCounter: int,
                                   div: int, tima: int, tma: int, tac: int,
                                   timerInterrupt: bool, rtcSeconds: nat)

  predicate IsByte(b: int) { 0 <= b < 256 }

  ghost predicate ValidState(st: TimerState)
  {
    (st.frequency == NOT_SET || st.frequency in PERIODS) && st.counter >= 0 && st.dividerCounter >= 0
    && IsByte(st.div) && IsByte(st.tima) && IsByte(st.tma) && IsByte(st.tac)
  }

  /** The timer's state at power-on: no frequency chosen yet. */
  function Initial(div: int, tima: int, tma: int, tac: int): (st: TimerState)
    requires IsByte(div) && IsByte(tima) && IsByte(tma) && IsByte(tac)
    ensures ValidState(st) && st.frequency == NOT_SET && st.counter == 0 && st.dividerCounter == 0
  {
    TimerState(NOT_SET, 0, 0, 0, div, tima, tma, tac, false, 0)
  }

  /** set_timer_frequency: an index below 4 selects its period; any other leaves it. */
  function SetFrequency(frequency: int, n: int): (f: int)
    ensures 0 <= n < |PERIODS| ==> f == PERIODS[n]
    ensures !(0 <= n < |PERIODS|) ==> f == frequency
  {
    if 0 <= n < |PERIODS| then PERIODS[n] else frequency
  }

  /** get_timer_frequency: halved at double speed, with C's division toward zero. */
  function Effective(frequency: int, cgbSpeed: bool): (p: int)
    ensures frequency in PERIODS ==> p > 0 && (cgbSpeed ==> 2 * p == frequency) && (!cgbSpeed ==> p == frequency)
    ensures frequency == NOT_SET ==> p == if cgbSpeed then 0 else NOT_SET
  {
    if !cgbSpeed then frequency else if frequency >= 0 then frequency / 2 else -((-frequency) / 2)
  }

  /** increment_tima: the register plus one in eight bits; on wrapping to 0 it takes TMA and the timer
    * interrupt is raised. */
  function IncrementTima(tima: int, tma: int): (r: (int, bool))
    requires IsByte(tima) && IsByte(tma)
    ensures IsByte(r.0) && (r.1 <==> tima == 255)
    ensures r.1 ==> r.0 == tma
    ensures !r.1 ==> r.0 == tima + 1
  {
    var t := (tima + 1) % 256;
    if t == 0 then (tma, true) else (t, false)
  }

  /** TIMA and the interrupt request after n increments. */
  function TimaAfter(tima: int, tma: int, irq: bool, n: nat): (r: (int, bool))
    requires IsByte(tima) && IsByte(tma)
    ensures IsByte(r.0)
    decreases n
  {
    if n == 0 then (tima, irq)
    else
      var (t, raised) := IncrementTima(tima, tma);
      TimaAfter(t, tma, irq || raised, n - 1)
  }

  /** n increments raise the interrupt exactly when they carry TIMA past 255, and short of that they just
    * add n. */
  lemma {:induction false} TimaAfterOverflow(tima: int, tma: int, n: nat)
    requires IsByte(tima) && IsByte(tma)
    ensures TimaAfter(tima, tma, false, n).1 <==> n > 255 - tima
    ensures n <= 255 - tima ==> TimaAfter(tima, tma, false, n).0 == tima + n
    decreases n
  {
    if n > 0 {
      var (t, raised) := IncrementTima(tima, tma);
      if raised {
        RaisedStays(t, tma, n - 1);
      } else {
        TimaAfterOverflow(t, tma, n - 1);
      }
    }
  }

  /** An interrupt already requested stays requested. */
  lemma {:induction false} RaisedStays(tima: int, tma: int, n: nat)
    requires IsByte(tima) && IsByte(tma)
    ensures TimaAfter(tima, tma, true, n).1
    decreases n
  {
    if n > 0 {
      var (t, raised) := IncrementTima(tima, tma);
      RaisedStays(t, tma, n - 1);
    }
  }

  /** The timer loop of update_timers: while the counter reaches the current period, it drops by that
    * period, TIMA is incremented and the period becomes the one TAC selects. Returns the counter, the
    * period, TIMA and the interrupt request. */
  function TimerLoop(counter: int, frequency: int, next: int, cgbSpeed: bool, tima: int, tma: int, irq: bool)
    : (r: (int, int, int, bool))
    requires frequency in PERIODS && next in PERIODS && IsByte(tima) && IsByte(tma)
    decreases counter
    ensures IsByte(r.2) && r.1 in PERIODS && (counter >= 0 ==> 0 <= r.0)
    ensures r.1 == frequency || r.1 == next
  {
    if counter >= Effective(frequency, cgbSpeed) then
      var (t, raised) := IncrementTima(tima, tma);
      TimerLoop(counter - Effective(frequency, cgbSpeed), next, next, cgbSpeed, t, tma, irq || raised)
    else (counter, frequency, tima, irq)
  }

  /** With the period unchanged, the loop increments TIMA once per whole period the counter holds and keeps
    * the remainder. */
  lemma {:induction false} TimerLoopClosedForm(counter: int, p: int, cgbSpeed: bool, tima: int, tma: int, irq: bool)
    requires p in PERIODS && IsByte(tima) && IsByte(tma) && counter >= 0
    decreases counter
    ensures var e := Effective(p, cgbSpeed);
            var (t, i) := TimaAfter(tima, tma, irq, counter / e);
            TimerLoop(counter, p, p, cgbSpeed, tima, tma, irq) == (counter % e, p, t, i)
  {
    var e := Effective(p, cgbSpeed);
    if counter >= e {
      var (t, raised) := IncrementTima(tima, tma);
      TimerLoopClosedForm(counter - e, p, cgbSpeed, t, tma, irq || raised);
      PeriodStep(counter, e);
    }
  }

  /** Taking one period off a counter takes one off the quotient and keeps the remainder. */
  lemma PeriodStep(c: int, e: int)
    requires e > 0 && c >= e
    ensures (c - e) / e == c / e - 1 && (c - e) % e == c % e
  {
    var q, r := c / e, c % e;
    assert c - e == (q - 1) * e + r;
    GbAlu.DivUnique(c - e, e, q - 1, r);
  }

  /** A period that changed while the timer ran takes effect only after the next increment: one increment
    * at the old period, then the rest at the new one. */
  lemma NewPeriodAfterIncrement(counter: int, f: int, next: int, cgbSpeed: bool, tima: int, tma: int, irq: bool)
    requires f in PERIODS && next in PERIODS && IsByte(tima) && IsByte(tma) && counter >= 0
    ensures var e := Effective(f, cgbSpeed);
            counter < e ==> TimerLoop(counter, f, next, cgbSpeed, tima, tma, irq) == (counter, f, tima, irq)
    ensures var e := Effective(f, cgbSpeed);
            counter >= e ==> var (t, raised) := IncrementTima(tima, tma);
                             TimerLoop(counter, f, next, cgbSpeed, tima, tma, irq)
                             == TimerLoop(counter - e, next, next, cgbSpeed, t, tma, irq || raised)
  {
  }

  /** Clock cycles per DIV increment. */
  function DividerPeriod(cgbSpeed: bool): int
  {
    if cgbSpeed then 128 else 256
  }

  /** The DIV update: the counter gains the cycles, then DIV goes up once per whole divider period. */
  function Divider(dividerCounter: int, div: int, cycles: nat, cgbSpeed: bool): (r: (int, int))
    requires dividerCounter >= 0 && IsByte(div)
  {
    var total := dividerCounter + cycles;
    (total % DividerPeriod(cgbSpeed), (div + total / DividerPeriod(cgbSpeed)) % 256)
  }

  /** Taking one period off the counter takes one off the quotient and keeps the remainder. */
  lemma DividerStep(c: int, cgbSpeed: bool)
    requires c >= DividerPeriod(cgbSpeed)
    ensures var p := DividerPeriod(cgbSpeed); (c - p) / p == c / p - 1 && (c - p) % p == c % p
  {
    if cgbSpeed {
      assert (c - 128) / 128 == c / 128 - 1 && (c - 128) % 128 == c % 128;
    } else {
      assert (c - 256) / 256 == c / 256 - 1 && (c - 256) % 256 == c % 256;
    }
  }

  /** A counter below the period holds no whole period. */
  lemma DividerBelow(c: int, cgbSpeed: bool)
    requires 0 <= c < DividerPeriod(cgbSpeed)
    ensures var p := DividerPeriod(cgbSpeed); c / p == 0 && c % p == c
  {
    if cgbSpeed {
      assert c / 128 == 0 && c % 128 == c;
    } else {
      assert c / 256 == 0 && c % 256 == c;
    }
  }

  /** Whole periods counted in two goes add up to those counted in one. */
  lemma SplitCount(t: int, b: nat, cgbSpeed: bool)
    requires t >= 0
    ensures var p := DividerPeriod(cgbSpeed);
            (t % p + b) % p == (t + b) % p && t / p + (t % p + b) / p == (t + b) / p
  {
    if cgbSpeed {
      var q1, r1 := t / 128, t % 128;
      var q2, r2 := (r1 + b) / 128, (r1 + b) % 128;
      assert t + b == (q1 + q2) * 128 + r2;
    } else {
      var q1, r1 := t / 256, t % 256;
      var q2, r2 := (r1 + b) / 256, (r1 + b) % 256;
      assert t + b == (q1 + q2) * 256 + r2;
    }
  }

  lemma ModAdd256(x: int, y: int)
    ensures (x % 256 + y) % 256 == (x + y) % 256
  {
    var k := x / 256;
    assert x + y == (x % 256 + y) + 256 * k;
  }

  /** Splitting the cycles over two updates counts DIV the same as one update: no cycle is lost. */
  lemma DividerAdditive(dividerCounter: int, div: int, a: nat, b: nat, cgbSpeed: bool)
    requires dividerCounter >= 0 && IsByte(div)
    ensures var (c1, d1) := Divider(dividerCounter, div, a, cgbSpeed);
            Divider(c1, d1, b, cgbSpeed) == Divider(dividerCounter, div, a + b, cgbSpeed)
  {
    var t := dividerCounter + a;
    var p := DividerPeriod(cgbSpeed);
    SplitCount(t, b, cgbSpeed);
    ModAdd256(div + t / p, (t % p + b) / p);
  }

  /** The real-time clock part: the cycles accumulate, and past 4 MiB one second goes to the MBC3 clock. */
  function ClockTick(st: TimerState, cycles: nat): (r: TimerState)
    ensures r == st.(clocks := r.clocks, rtcSeconds := r.rtcSeconds)
    ensures r.clocks + (r.rtcSeconds - st.rtcSeconds) * RTC_CYCLES == st.clocks + cycles
    ensures st.clocks < RTC_CYCLES && cycles <= RTC_CYCLES ==> r.clocks < RTC_CYCLES
    ensures r.rtcSeconds == st.rtcSeconds || r.rtcSeconds == st.rtcSeconds + 1
  {
    var clocks := st.clocks + cycles;
    if clocks >= RTC_CYCLES then st.(clocks := clocks - RTC_CYCLES, rtcSeconds := st.rtcSeconds + 1)
    else st.(clocks := clocks)
  }

  /** update_divider_reg on the state. */
  function DividerUpdate(st: TimerState, cycles: nat, cgbSpeed: bool): (r: TimerState)
    requires st.dividerCounter >= 0 && IsByte(st.div)
  {
    var (dc, div) := Divider(st.dividerCounter, st.div, cycles, cgbSpeed);
    st.(dividerCounter := dc, div := div)
  }

  /** The TIMA part of update_timers, with the TAC value read at its start. */
  function TimerUpdate(st: TimerState, tac: int, cycles: nat, cgbSpeed: bool): (r: TimerState)
    requires ValidState(st) && IsByte(tac)
    ensures ValidState(r)
  {
    if (tac / TAC_ENABLE) % 2 == 0 then st
    else
      var next := PERIODS[tac % 4];
      var f := if st.frequency == NOT_SET then next else st.frequency;
      var (counter, frequency, tima, irq) := TimerLoop(st.counter + cycles, f, next, cgbSpeed, st.tima, st.tma, st.timerInterrupt);
      st.(frequency := frequency, counter := counter, tima := tima, timerInterrupt := irq)
  }

  /** update_timers after `cycles` clock cycles. */
  function Update(st: TimerState, cycles: nat, cgbSpeed: bool): (r: TimerState)
    requires ValidState(st)
  {
    TimerUpdate(DividerUpdate(ClockTick(st, cycles), cycles, cgbSpeed), st.tac, cycles, cgbSpeed)
  }

  /** update_timers keeps the state well formed and touches neither TAC nor TMA; DIV advances by the
    * divider periods of the cycles. */
  lemma UpdateValid(st: TimerState, cycles: nat, cgbSpeed: bool)
    requires ValidState(st)
    ensures var r := Update(st, cycles, cgbSpeed);
            ValidState(r) && r.tac == st.tac && r.tma == st.tma
            && r.div == (st.div + (st.dividerCounter + cycles) / DividerPeriod(cgbSpeed)) % 256
            && 0 <= r.dividerCounter < DividerPeriod(cgbSpeed)
  {
  }

  /** With the timer disabled (TAC bit 2 clear) TIMA, its counter, its period and the interrupt are left
    * alone; with it enabled and its period settled, TIMA advances once per period of the accumulated
    * cycles. */
  lemma UpdateTimer(st: TimerState, cycles: nat, cgbSpeed: bool)
    requires ValidState(st)
    ensures var r := Update(st, cycles, cgbSpeed);
            ((st.tac / TAC_ENABLE) % 2 == 0 ==> r.tima == st.tima && r.counter == st.counter && r.timerInterrupt == st.timerInterrupt && r.frequency == st.frequency)
            && ((st.tac / TAC_ENABLE) % 2 == 1 && st.frequency == PERIODS[st.tac % 4] ==>
                  var e := Effective(st.frequency, cgbSpeed);
                  r.frequency == st.frequency && r.counter == (st.counter + cycles) % e
                  && (r.tima, r.timerInterrupt) == TimaAfter(st.tima, st.tma, st.timerInterrupt, (st.counter + cycles) / e))
  {
    if (st.tac / TAC_ENABLE) % 2 == 1 && st.frequency == PERIODS[st.tac % 4] {
      TimerLoopClosedForm(st.counter + cycles, st.frequency, cgbSpeed, st.tima, st.tma, st.timerInterrupt);
    }
  }

  /** The timers' static variables and registers. */
  class Timers {
    var frequency: int
    var counter: int
    var clocks: nat
    var dividerCounter: int
    var div: int
    var tima: int
    var tma: int
    var tac: int
    var timerInterrupt: bool
    var rtcSeconds: nat

    ghost function Abs(): TimerState
      reads this
    {
      TimerState(frequency, counter, clocks, dividerCounter, div, tima, tma, tac, timerInterrupt, rtcSeconds)
    }

    constructor(div0: int, tima0: int, tma0: int, tac0: int)
      requires IsByte(div0) && IsByte(tima0) && IsByte(tma0) && IsByte(tac0)
      ensures Abs() == Initial(div0, tima0, tma0, tac0)
    {
      frequency, counter, clocks, dividerCounter := NOT_SET, 0, 0, 0;
      div, tima, tma, tac := div0, tima0, tma0, tac0;
      timerInterrupt, rtcSeconds := false, 0;
    }

    /** update_divider_reg: the counting loop, run on locals. */
    method UpdateDivider(cycles: nat, cgbSpeed: bool)
      requires ValidState(Abs())
      modifies this
      ensures Abs() == DividerUpdate(old(Abs()), cycles, cgbSpeed)
    {
      var c := dividerCounter + cycles;
      var d := div;
      var period := if cgbSpeed then 128 else 256;
      while c >= period
        invariant 0 <= c && IsByte(d) && period == DividerPeriod(cgbSpeed) && Abs() == old(Abs())
        invariant (c % period, (d + c / period) % 256) == Divider(old(dividerCounter), old(div), cycles, cgbSpeed)
      {
        DividerStep(c, cgbSpeed);
        ModAdd256(d + 1, c / period - 1);
        d := (d + 1) % 256;
        c := c - period;
      }
      DividerBelow(c, cgbSpeed);
      dividerCounter, div := c, d;
    }

    /** The seconds count of update_timers. */
    method TickClock(cycles: nat)
      modifies this
      ensures Abs() == ClockTick(old(Abs()), cycles)
    {
      clocks := clocks + cycles;
      if clocks >= RTC_CYCLES {
        rtcSeconds := rtcSeconds + 1;
        clocks := clocks - RTC_CYCLES;
      }
    }

    /** The TIMA part of update_timers: the timer loop, run on locals, when TAC enables the timer. */
    method RunTimer(control: int, cycles: nat, cgbSpeed: bool)
      requires ValidState(Abs()) && IsByte(control)
      modifies this
      ensures Abs() == TimerUpdate(old(Abs()), control, cycles, cgbSpeed)
    {
      if (control / TAC_ENABLE) % 2 == 0 {
        return;
      }
      var next := PERIODS[control % 4];
      if frequency == NOT_SET {
        frequency := SetFrequency(frequency, control % 4);
      }
      var c, f, t, irq := counter + cycles, frequency, tima, timerInterrupt;
      ghost var loop := TimerLoop(c, f, next, cgbSpeed, t, tma, irq);
      while c >= Effective(f, cgbSpeed)
        invariant f in PERIODS && IsByte(t) && c >= 0 && Abs() == old(Abs()).(frequency := frequency)
        invariant TimerLoop(c, f, next, cgbSpeed, t, tma, irq) == loop
        decreases c
      {
        c := c - Effective(f, cgbSpeed);
        var r := IncrementTima(t, tma);
        t, irq := r.0, irq || r.1;
        f := SetFrequency(f, control % 4);
      }
      frequency, counter, tima, timerInterrupt := f, c, t, irq;
    }

    /** update_timers: the real-time clock's seconds, DIV, and TIMA when TAC enables it. */
    method UpdateTimers(cycles: nat, cgbSpeed: bool)
      requires ValidState(Abs())
      modifies this
      ensures Abs() == Update(old(Abs()), cycles, cgbSpeed)
    {
      TickClock(cycles);
      var control := tac;
      UpdateDivider(cycles, cgbSpeed);
      RunTimer(control, cycles, cgbSpeed);
    }
  }
}
