/** The Game Boy emulator's scheduler: run_one_frame steps the CPU (or, while halted or stopped, just lets
  * time pass) until the LCD reports a finished frame, polling the keyboard every 15000 cycles; run repeats
  * frames until quit. What the CPU, the interrupt controller, the LCD and the joypad answer at each step is
  * an input (a Reaction); the calls made to the other units are recorded as Effects. */
module GbEmu {
  import GbRomInfo

  const KEY_POLL_CYCLES := 15000
  const STEPS_OFF := 0
  const STEPS_SET := 1

  /** A call the scheduler makes to another unit: timers, sound and serial fed a number of cycles; the LCD
    * advanced while halted; one instruction executed with the given skip_bug; the keys polled; the debugger
    * asked for a command; the cycles of an instruction passed on by add_current_cycles. */
  datatype Effect = Feed(cycles: int) | Lcd(cycles: int) | Exec(skipBug: bool) | PollKeys | DebugCommand
                  | AllCycles(cycles: int)

  /** What the rest of the emulator answers during one scheduler step: the executed instruction's cycles
    * and the halted, stopped and double-speed flags it leaves (STOP may switch speed), whether a key is held, whether update_keys asks to quit,
    * what handle_interrupts returns and whether it wakes the CPU from halt, whether the LCD finished a
    * frame, and the debugger's command flags and step count should it be asked. */
  datatype Reaction = Reaction(opcodeCycles: nat, haltedAfter: bool, stoppedAfter: bool, speedAfter: bool,
                               keyPressed: bool,
                               keysQuit: bool, interruptSkip: bool, wakes: bool, drawn: bool,
                               command: bv8, steps: int)

  /** The globals of emu.c that the scheduler reads and writes. */
  datatype EmuState = EmuState(quit: bool, stopped: bool, halted: bool, cgbSpeed: bool, frameDrawn: bool,
                               cycles: int, currentCycles: int, skipBug: bool, debug: bool, stepCount: int)

  /** The cycles one step takes while halted or stopped. */
  function IdleCycles(cgbSpeed: bool): int
  {
    if cgbSpeed then 2 else 4
  }

  /** The first part of a step. While halted or stopped time passes, a key ends stop, and only a halted
    * CPU lets the LCD advance; otherwise one instruction executes and leaves its cycles and the halted,
    * stopped and speed flags. */
  function Head(s: EmuState, r: Reaction): (t: EmuState)
  {
    var idle := s.halted || s.stopped;
    s.(currentCycles := if idle then IdleCycles(s.cgbSpeed) else r.opcodeCycles,
       halted := if idle then s.halted else r.haltedAfter,
       stopped := if idle then s.stopped && !r.keyPressed else r.stoppedAfter,
       cgbSpeed := if idle then s.cgbSpeed else r.speedAfter,
       frameDrawn := if idle && !s.halted then s.frameDrawn else r.drawn)
  }

  /** The calls of that part: while halted or stopped timers, sound and serial are fed, then the LCD
    * when halted; otherwise one instruction runs with the current skip_bug. */
  function HeadEffects(s: EmuState): seq<Effect>
  {
    var cur := IdleCycles(s.cgbSpeed);
    if s.halted then [Feed(cur), Lcd(cur)] else if s.stopped then [Feed(cur)] else [Exec(s.skipBug)]
  }

  /** The cycle account: past 15000 the keys are polled, quit is or-ed with their answer and the count
    * restarts from 0. */
  function Account(s: EmuState, r: Reaction): (t: EmuState)
  {
    var poll := s.cycles + s.currentCycles > KEY_POLL_CYCLES;
    s.(quit := if poll then s.quit || r.keysQuit else s.quit,
       cycles := if poll then 0 else s.cycles + s.currentCycles)
  }

  function AccountEffects(s: EmuState): seq<Effect>
  {
    if s.cycles + s.currentCycles > KEY_POLL_CYCLES then [PollKeys] else []
  }

  /** handle_interrupts: its answer becomes the next skip_bug, and it may end halt. */
  function Interrupts(s: EmuState, r: Reaction): (t: EmuState)
  {
    s.(skipBug := r.interruptSkip, halted := s.halted && !r.wakes)
  }

  /** The step count a debugger command sets: its step count when the command sets one, otherwise off. */
  function CommandSteps(command: bv8, steps: int): int
  {
    if command & STEPS_SET as bv8 != 0 then steps else STEPS_OFF
  }

  /** The debugger's step count: a positive count is decremented while debugging, and when it reaches 0 a
    * command is asked for and sets the next count. */
  function Debug(s: EmuState, r: Reaction): (t: EmuState)
  {
    var dec := s.debug && s.stepCount > 0;
    s.(stepCount := if dec && s.stepCount - 1 != 0 then s.stepCount - 1
                    else if dec then CommandSteps(r.command, r.steps) else s.stepCount)
  }

  function DebugEffects(s: EmuState): seq<Effect>
  {
    if s.debug && s.stepCount == 1 then [DebugCommand] else []
  }

  /** One iteration of run_one_frame's loop: the new globals and the calls made, in order. */
  function Step(s: EmuState, r: Reaction): (t: (EmuState, seq<Effect>))
  {
    var s1 := Head(s, r);
    var s2 := Interrupts(Account(s1, r), r);
    (Debug(s2, r), HeadEffects(s) + AccountEffects(s1) + DebugEffects(s2))
  }

  /** A step while halted or stopped feeds 4 cycles (2 at double speed) and executes nothing; a stop only
    * ends on a key press; and without halt the LCD neither advances nor reports a frame. */
  lemma IdleRules(s: EmuState, r: Reaction)
    requires s.halted || s.stopped
    ensures var (t, e) := Step(s, r);
            t.currentCycles == IdleCycles(s.cgbSpeed) && |e| >= 1 && e[0] == Feed(IdleCycles(s.cgbSpeed))
            && (forall x :: x in e ==> !x.Exec?) && t.skipBug == r.interruptSkip && t.cgbSpeed == s.cgbSpeed
            && (s.stopped ==> (t.stopped <==> !r.keyPressed))
            && (!s.halted ==> t.frameDrawn == s.frameDrawn && forall x :: x in e ==> !x.Lcd?)
  {
  }

  /** Otherwise exactly one instruction runs, first, with the skip_bug of the previous step, the step
    * takes that instruction's cycles, and the speed is the one the instruction leaves. */
  lemma ExecuteRules(s: EmuState, r: Reaction)
    requires !s.halted && !s.stopped
    ensures var (t, e) := Step(s, r);
            t.currentCycles == r.opcodeCycles && |e| >= 1 && e[0] == Exec(s.skipBug)
            && (forall x :: x in e[1..] ==> !x.Exec?) && t.skipBug == r.interruptSkip
            && t.frameDrawn == r.drawn && t.stopped == r.stoppedAfter && t.cgbSpeed == r.speedAfter
  {
    var s1 := Head(s, r);
    var e := [Exec(s.skipBug)] + AccountEffects(s1) + DebugEffects(Interrupts(Account(s1, r), r));
    assert e[1..] == AccountEffects(s1) + DebugEffects(Interrupts(Account(s1, r), r));
  }

  /** A speed switch reaches the idle feed: after an instruction that leaves the CPU halted, at double
    * speed, and an interrupt check that does not wake it, the next step feeds 2 cycles, and 4 at normal
    * speed. */
  lemma SpeedSwitchThenIdle(s: EmuState, r: Reaction, r2: Reaction)
    requires !s.halted && !s.stopped && r.haltedAfter && !r.wakes
    ensures var t := Step(s, r).0;
            var (u, e) := Step(t, r2);
            t.halted && u.currentCycles == (if r.speedAfter then 2 else 4)
            && e[..2] == [Feed(u.currentCycles), Lcd(u.currentCycles)]
  {
  }

  /** The cycle count stays within 0..15000, the keys are polled exactly when it would pass 15000, and
    * quit once set stays set. */
  lemma StepAccount(s: EmuState, r: Reaction)
    requires 0 <= s.cycles <= KEY_POLL_CYCLES
    ensures var (t, e) := Step(s, r);
            var cur := if s.halted || s.stopped then IdleCycles(s.cgbSpeed) else r.opcodeCycles;
            0 <= t.cycles <= KEY_POLL_CYCLES
            && (PollKeys in e <==> s.cycles + cur > KEY_POLL_CYCLES)
            && (s.cycles + cur > KEY_POLL_CYCLES ==> t.cycles == 0 && t.quit == (s.quit || r.keysQuit))
            && (s.cycles + cur <= KEY_POLL_CYCLES ==> t.cycles == s.cycles + cur && t.quit == s.quit)
  {
  }

  /** Where a run of steps ends: the final globals, the number of reactions used and the calls made. */
  datatype Outcome = Outcome(state: EmuState, used: nat, trace: seq<Effect>)

  /** run_one_frame's loop from state s over the reactions rs: it stops once a frame is drawn (or the
    * reactions run out). */
  function Steps(s: EmuState, rs: seq<Reaction>): (o: Outcome)
    decreases |rs|
    ensures o.used <= |rs| && (o.state.frameDrawn || o.used == |rs|)
  {
    if |rs| == 0 || s.frameDrawn then Outcome(s, 0, [])
    else
      var st := Step(s, rs[0]);
      var o := Steps(st.0, rs[1..]);
      Outcome(o.state, o.used + 1, st.1 + o.trace)
  }

  /** run_one_frame: the frame flag cleared, then steps until the frame is drawn. */
  function Frame(s: EmuState, rs: seq<Reaction>): (o: Outcome)
    ensures o.used <= |rs| && (o.state.frameDrawn || o.used == |rs|) && (|rs| > 0 ==> o.used >= 1)
  {
    Steps(s.(frameDrawn := false), rs)
  }

  /** Before the last step of a frame no frame was drawn: run_one_frame returns at the first drawn frame. */
  lemma {:induction false} StepsStopAtFirstFrame(s: EmuState, rs: seq<Reaction>, k: nat)
    requires !s.frameDrawn && k < Steps(s, rs).used
    ensures !Steps(s, rs[..k]).state.frameDrawn && Steps(s, rs[..k]).used == k
    decreases |rs|
  {
    if k > 0 {
      StepsStopAtFirstFrame(Step(s, rs[0]).0, rs[1..], k - 1);
      assert rs[..k][1..] == rs[1..][..k - 1];
    }
  }

  /** Quit, once set, is never cleared by any number of steps. */
  lemma {:induction false} StepsKeepQuit(s: EmuState, rs: seq<Reaction>)
    requires s.quit
    ensures Steps(s, rs).state.quit
    decreases |rs|
  {
    if |rs| > 0 && !s.frameDrawn {
      StepsKeepQuit(Step(s, rs[0]).0, rs[1..]);
    }
  }

  /** The cycle count stays within 0..15000 over any number of steps. */
  lemma {:induction false} StepsKeepCycleBound(s: EmuState, rs: seq<Reaction>)
    requires 0 <= s.cycles <= KEY_POLL_CYCLES
    ensures 0 <= Steps(s, rs).state.cycles <= KEY_POLL_CYCLES
    decreases |rs|
  {
    if |rs| > 0 && !s.frameDrawn {
      StepAccount(s, rs[0]);
      StepsKeepCycleBound(Step(s, rs[0]).0, rs[1..]);
    }
  }

  /** setup_debug: when debugging, a first command sets the step count. */
  function SetupDebug(s: EmuState, command: bv8, steps: int): (t: EmuState)
  {
    s.(stepCount := if s.debug then CommandSteps(command, steps) else s.stepCount)
  }

  /** run: frames until quit. It ends only once quit is set, unless the reactions run out first. */
  function RunFrames(s: EmuState, rs: seq<Reaction>): (o: Outcome)
    decreases |rs|
    ensures o.used <= |rs| && (o.state.quit || o.used == |rs|)
    ensures s.quit ==> o == Outcome(s, 0, [])
  {
    if s.quit || |rs| == 0 then Outcome(s, 0, [])
    else
      var f := Frame(s, rs);
      var o := RunFrames(f.state, rs[f.used..]);
      Outcome(o.state, f.used + o.used, f.trace + o.trace)
  }

  /** The scheduler's globals, with the calls made so far. */
  class Emulator {
    var quit: bool
    var stopped: bool
    var halted: bool
    var cgbSpeed: bool
    var frameDrawn: bool
    var cycles: int
    var currentCycles: int
    var skipBug: bool
    var debug: bool
    var stepCount: int
    var cgbFeatures: bool
    var effects: seq<Effect>

    ghost function Abs(): EmuState
      reads this
    {
      EmuState(quit, stopped, halted, cgbSpeed, frameDrawn, cycles, currentCycles, skipBug, debug, stepCount)
    }

    /** The globals' initial values, then the part of init_emu that sets the debug flag and derives
      * cgb_features from the cartridge header. */
    constructor(h: GbRomInfo.Header, debugger: bool)
      ensures Abs() == EmuState(false, false, false, false, false, 0, 0, false, debugger, STEPS_OFF) && effects == []
      ensures cgbFeatures <==> h.colourFlag == 0x80 || h.colourFlag == 0xC0
    {
      quit, stopped, halted, cgbSpeed, frameDrawn := false, false, false, false, false;
      cycles, currentCycles, skipBug, stepCount, effects := 0, 0, false, STEPS_OFF, [];
      debug := debugger;
      GbRomInfo.HeaderFlags(h);
      cgbFeatures := GbRomInfo.IsColourCompatible(h) || GbRomInfo.IsColourOnly(h);
    }

    /** add_current_cycles: an instruction's extra cycles are counted and passed to every unit. */
    method AddCurrentCycles(c: nat)
      modifies this
      ensures Abs() == old(Abs()).(cycles := old(cycles) + c) && effects == old(effects) + [AllCycles(c)]
    {
      cycles := cycles + c;
      effects := effects + [AllCycles(c)];
    }

    /** The halted-or-stopped branch of the loop body. */
    method IdleStep(r: Reaction)
      requires halted || stopped
      modifies this
      ensures Abs() == Head(old(Abs()), r) && effects == old(effects) + HeadEffects(old(Abs()))
    {
      currentCycles := if cgbSpeed then 2 else 4;
      effects := effects + [Feed(currentCycles)];
      if stopped {
        if r.keyPressed {
          stopped := false;
        }
      }
      if halted {
        effects := effects + [Lcd(currentCycles)];
        frameDrawn := r.drawn;
      }
    }

    /** The executing branch of the loop body. */
    method ExecuteStep(r: Reaction)
      requires !halted && !stopped
      modifies this
      ensures Abs() == Head(old(Abs()), r) && effects == old(effects) + HeadEffects(old(Abs()))
    {
      currentCycles := 0;
      effects := effects + [Exec(skipBug)];
      currentCycles := currentCycles + r.opcodeCycles;
      halted, stopped, cgbSpeed, frameDrawn := r.haltedAfter, r.stoppedAfter, r.speedAfter, r.drawn;
    }

    /** The cycle account of the loop body. */
    method AccountCycles(r: Reaction)
      modifies this
      ensures Abs() == Account(old(Abs()), r) && effects == old(effects) + AccountEffects(old(Abs()))
    {
      cycles := cycles + currentCycles;
      if cycles > KEY_POLL_CYCLES {
        effects := effects + [PollKeys];
        quit := quit || r.keysQuit;
        cycles := 0;
      }
    }

    /** handle_interrupts' part of the loop body. */
    method HandleInterrupts(r: Reaction)
      modifies this
      ensures Abs() == Interrupts(old(Abs()), r) && effects == old(effects)
    {
      skipBug := r.interruptSkip;
      halted := halted && !r.wakes;
    }

    /** The debugger's part of the loop body. */
    method DebugStep(r: Reaction)
      modifies this
      ensures Abs() == Debug(old(Abs()), r) && effects == old(effects) + DebugEffects(old(Abs()))
    {
      if debug && stepCount > 0 {
        stepCount := stepCount - 1;
        if stepCount == 0 {
          effects := effects + [DebugCommand];
          stepCount := if r.command & STEPS_SET as bv8 != 0 then r.steps else STEPS_OFF;
        }
      }
    }

    /** One iteration of run_one_frame's loop. */
    method StepOnce(r: Reaction)
      modifies this
      ensures Abs() == Step(old(Abs()), r).0 && effects == old(effects) + Step(old(Abs()), r).1
    {
      ghost var e0, s0 := effects, Abs();
      if halted || stopped {
        IdleStep(r);
      } else {
        ExecuteStep(r);
      }
      ghost var s1 := Abs();
      AccountCycles(r);
      HandleInterrupts(r);
      ghost var s2 := Abs();
      DebugStep(r);
      Append3(e0, HeadEffects(s0), AccountEffects(s1), DebugEffects(s2));
    }

    /** run_one_frame: returns the number of reactions used, stopping at the first drawn frame. */
    method RunOneFrame(rs: seq<Reaction>) returns (used: nat)
      modifies this
      ensures var o := Frame(old(Abs()), rs); Abs() == o.state && used == o.used && effects == old(effects) + o.trace
    {
      ghost var e0 := effects;
      frameDrawn := false;
      ghost var total := Steps(Abs(), rs);
      used := 0;
      while !frameDrawn && used < |rs|
        invariant used <= |rs|
        invariant Steps(Abs(), rs[used..]).state == total.state && Steps(Abs(), rs[used..]).used + used == total.used
        invariant effects + Steps(Abs(), rs[used..]).trace == e0 + total.trace
        decreases |rs| - used
      {
        assert rs[used..][1..] == rs[used + 1..];
        ghost var e1, s1 := effects, Abs();
        StepOnce(rs[used]);
        Append(e1, Step(s1, rs[used]).1, Steps(Abs(), rs[used + 1..]).trace);
        used := used + 1;
      }
    }

    /** setup_debug: when debugging, the first command sets the step count. */
    method SetupDebugger(command: bv8, steps: int)
      modifies this
      ensures Abs() == SetupDebug(old(Abs()), command, steps)
      ensures effects == old(effects) + if debug then [DebugCommand] else []
    {
      if debug {
        effects := effects + [DebugCommand];
        stepCount := if command & STEPS_SET as bv8 != 0 then steps else STEPS_OFF;
      }
    }

    /** run: frames until quit, over the given reactions; returns the number used. */
    method Run(command: bv8, steps: int, rs: seq<Reaction>) returns (used: nat)
      modifies this
      ensures var o := RunFrames(SetupDebug(old(Abs()), command, steps), rs);
              Abs() == o.state && used == o.used
              && effects == old(effects) + (if old(debug) then [DebugCommand] else []) + o.trace
    {
      SetupDebugger(command, steps);
      used := RunLoop(rs);
    }

    /** run's loop: frames until quit. */
    method RunLoop(rs: seq<Reaction>) returns (used: nat)
      modifies this
      ensures var o := RunFrames(old(Abs()), rs); Abs() == o.state && used == o.used && effects == old(effects) + o.trace
    {
      ghost var e0 := effects;
      ghost var total := RunFrames(Abs(), rs);
      used := 0;
      while !quit && used < |rs|
        invariant used <= |rs|
        invariant RunFrames(Abs(), rs[used..]).state == total.state && RunFrames(Abs(), rs[used..]).used + used == total.used
        invariant effects + RunFrames(Abs(), rs[used..]).trace == e0 + total.trace
        decreases |rs| - used
      {
        ghost var e1, frame := effects, Frame(Abs(), rs[used..]);
        var n := RunOneFrame(rs[used..]);
        assert rs[used..][n..] == rs[used + n..];
        Append(e1, frame.trace, RunFrames(Abs(), rs[used + n..]).trace);
        used := used + n;
      }
    }
  }

  /** Concatenation regroups: the trace grown by a step's calls, then the rest, is the trace followed by
    * both. */
  lemma Append<T>(a: seq<T>, b: seq<T>, c: seq<T>)
    ensures a + (b + c) == (a + b) + c
  {
  }

  lemma Append3<T>(a: seq<T>, b: seq<T>, c: seq<T>, d: seq<T>)
    ensures a + (b + c + d) == a + b + c + d
  {
  }
}
